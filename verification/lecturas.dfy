/** The reading page (src/pages/Lecturas.tsx): the capture panel that picks a
    route and one of its contracts, derives the previous reading, and records
    the new one classified against the 0–200 m³ envelope. */
module Lecturas {
  import opened Wrappers
  import opened Entities
  import opened Records
  import opened Data
  import Order
  import Clock

  // ---------------------------------------------------------------------------
  // The previous reading.

  /** Reading `i` is the one the descending, stable sort by date puts first
      among the contract's readings: no reading of the contract is later, and
      every earlier-stored one is strictly earlier. */
  predicate IsLatest(ls: seq<Lectura>, cid: string, i: nat) {
    && i < |ls|
    && ls[i].contratoId == cid
    && (forall j :: 0 <= j < |ls| && ls[j].contratoId == cid ==> Order.LessEq(ls[j].fecha, ls[i].fecha))
    && (forall j :: 0 <= j < i && ls[j].contratoId == cid ==> Order.Less(ls[j].fecha, ls[i].fecha))
  }

  /** The contract's newest reading by date, as an index into the store's
      readings; None when the contract has none. */
  function Latest(ls: seq<Lectura>, cid: string): (r: Option<nat>)
    ensures r.None? <==> forall j :: 0 <= j < |ls| ==> ls[j].contratoId != cid
    ensures r.Some? ==> IsLatest(ls, cid, r.value)
    decreases |ls|
  {
    if |ls| == 0 then None
    else
      var n := |ls| - 1;
      var prev := Latest(ls[..n], cid);
      if ls[n].contratoId != cid then prev
      else if prev.None? then Some(n)
      else
        var i := prev.value;
        Order.Total(ls[i].fecha, ls[n].fecha);
        Order.Asymmetric(ls[i].fecha, ls[n].fecha);
        LatestStep(ls, cid, i);
        if Order.Less(ls[i].fecha, ls[n].fecha) then Some(n) else prev
  }

  /** Extending the latest reading of a prefix by one more reading of the contract. */
  lemma LatestStep(ls: seq<Lectura>, cid: string, i: nat)
    requires |ls| > 0 && IsLatest(ls[..|ls| - 1], cid, i)
    ensures ls[|ls| - 1].contratoId == cid && Order.Less(ls[i].fecha, ls[|ls| - 1].fecha) ==> IsLatest(ls, cid, |ls| - 1)
    ensures ls[|ls| - 1].contratoId == cid && !Order.Less(ls[i].fecha, ls[|ls| - 1].fecha) ==> IsLatest(ls, cid, i)
  {
    var n := |ls| - 1;
    if ls[n].contratoId == cid && Order.Less(ls[i].fecha, ls[n].fecha) {
      forall j | 0 <= j < n && ls[j].contratoId == cid
        ensures Order.Less(ls[j].fecha, ls[n].fecha)
      {
        assert ls[..n][j] == ls[j];
        Order.Transitive(ls[j].fecha, ls[i].fecha, ls[n].fecha);
      }
    } else if ls[n].contratoId == cid {
      Order.Total(ls[i].fecha, ls[n].fecha);
      forall j | 0 <= j < |ls| && ls[j].contratoId == cid
        ensures Order.LessEq(ls[j].fecha, ls[i].fecha)
      {
        if j < n {
          assert ls[..n][j] == ls[j];
        }
      }
      forall j | 0 <= j < i && ls[j].contratoId == cid
        ensures Order.Less(ls[j].fecha, ls[i].fecha)
      {
        assert ls[..n][j] == ls[j];
      }
    }
  }

  /** At most one reading is the latest. */
  lemma LatestUnique(ls: seq<Lectura>, cid: string, i: nat, j: nat)
    requires IsLatest(ls, cid, i) && IsLatest(ls, cid, j)
    ensures i == j
  {
    if i < j {
      Order.Asymmetric(ls[i].fecha, ls[j].fecha);
      Order.Irreflexive(ls[i].fecha);
    } else if j < i {
      Order.Asymmetric(ls[j].fecha, ls[i].fecha);
      Order.Irreflexive(ls[j].fecha);
    }
  }

  lemma LatestIsUnique(ls: seq<Lectura>, cid: string, i: nat)
    requires IsLatest(ls, cid, i)
    ensures forall j :: IsLatest(ls, cid, j) ==> j == i
  {
    forall j | IsLatest(ls, cid, j)
      ensures j == i
    {
      LatestUnique(ls, cid, i, j);
    }
  }

  predicate MeterOf(cid: string, m: Medidor) {
    m.contratoId == cid
  }

  /** `anterior`: the latest reading's value; with no reading, the baseline of
      the first meter of the contract; with neither, 0. */
  function Anterior(s: Store, cid: string): (r: int)
    ensures forall i: nat :: IsLatest(s.lecturas, cid, i) ==> r == s.lecturas[i].lecturaActual
    ensures (forall j :: 0 <= j < |s.lecturas| ==> s.lecturas[j].contratoId != cid) ==>
              && (forall k ::
                    (0 <= k < |s.medidores| && s.medidores[k].contratoId == cid &&
                     forall j :: 0 <= j < k ==> s.medidores[j].contratoId != cid)
                    ==> r == s.medidores[k].lecturaInicial)
              && ((forall k :: 0 <= k < |s.medidores| ==> s.medidores[k].contratoId != cid) ==> r == 0)
  {
    match Latest(s.lecturas, cid)
    case Some(i) =>
      LatestIsUnique(s.lecturas, cid, i);
      s.lecturas[i].lecturaActual
    case None =>
      match FirstIndex(s.medidores, (m: Medidor) => MeterOf(cid, m))
      case Some(k) => s.medidores[k].lecturaInicial
      case None => 0
  }

  // ---------------------------------------------------------------------------
  // Classification.

  const RangoMin: int := 0
  const RangoMax: int := 200

  datatype Clasificacion = Clasificacion(consumo: int, estado: LecturaEstado, incidencia: string)

  /** `consumo`, `esValida` and the incident text of `handleCapture`. */
  function Clasificar(anterior: int, actual: int, nota: string): (r: Clasificacion)
    ensures r.consumo == actual - anterior
    ensures r.estado == Valida <==> 0 <= actual - anterior <= 200
    ensures r.estado == Valida || r.estado == NoValida
    ensures nota != "" ==> r.incidencia == nota
    ensures nota == "" && r.estado == Valida ==> r.incidencia == ""
    ensures nota == "" && r.estado == NoValida ==> r.incidencia == "Fuera de rango"
  {
    var consumo := actual - anterior;
    var esValida := consumo >= RangoMin && consumo <= RangoMax && actual >= anterior;
    Clasificacion(consumo, if esValida then Valida else NoValida,
                  if nota != "" then nota else if esValida then "" else "Fuera de rango")
  }

  /** From 15 to 250 the reading is 235 m³, out of range. */
  lemma OutOfRangeExample()
    ensures Clasificar(15, 250, "") == Clasificacion(235, NoValida, "Fuera de rango")
  {
  }

  // ---------------------------------------------------------------------------
  // The capture panel.

  /** The panel state: chosen route, chosen contract, the typed value (None
      while the box is empty) and the operator's note. */
  datatype Panel = Panel(selectedRuta: string, contratoId: string, lecturaActual: Option<int>, incidencia: string)

  const PanelInicial := Panel("", "", None, "")

  predicate RutaId(id: string, r: Ruta) {
    r.id == id
  }

  /** The first route whose identifier is the selected one, if any. */
  function RutaSeleccionada(s: Store, p: Panel): (r: Option<Ruta>)
    ensures r.Some? ==> r.value in s.rutas && r.value.id == p.selectedRuta
    ensures r.None? ==> forall j :: 0 <= j < |s.rutas| ==> s.rutas[j].id != p.selectedRuta
  {
    Find(s.rutas, (r: Ruta) => RutaId(p.selectedRuta, r))
  }

  /** The contracts the route lists, in store order: what the second select
      offers. */
  function RutaContratos(s: Store, ruta: Ruta): (r: seq<Contrato>)
    ensures forall c :: c in r <==> c in s.contratos && c.id in ruta.contratoIds
  {
    Filter(s.contratos, (c: Contrato) => c.id in ruta.contratoIds)
  }

  predicate Offers(cs: seq<Contrato>, id: string) {
    exists c :: c in cs && c.id == id
  }

  /** The route select as written: only the route changes, so a contract chosen
      on the previous route stays chosen. */
  function ElegirRutaAsWritten(s: Store, p: Panel, id: string): (r: Option<Panel>)
    ensures r.Some? <==> exists j :: 0 <= j < |s.rutas| && s.rutas[j].id == id
    ensures r.Some? ==> r.value.selectedRuta == id && r.value.contratoId == p.contratoId
  {
    if exists j :: 0 <= j < |s.rutas| && s.rutas[j].id == id then Some(p.(selectedRuta := id)) else None
  }

  /** The route select as it is evidently meant to work: choosing a route
      clears the contract chosen on the previous one. */
  function ElegirRuta(s: Store, p: Panel, id: string): (r: Option<Panel>)
    ensures r.Some? <==> exists j :: 0 <= j < |s.rutas| && s.rutas[j].id == id
    ensures r.Some? ==> r.value.selectedRuta == id && r.value.contratoId == ""
  {
    if exists j :: 0 <= j < |s.rutas| && s.rutas[j].id == id
    then Some(p.(selectedRuta := id, contratoId := "")) else None
  }

  /** The contract select, shown only once a route is found, offering its members. */
  function ElegirContrato(s: Store, p: Panel, cid: string): (r: Option<Panel>)
    ensures r.Some? <==> RutaSeleccionada(s, p).Some? && Offers(RutaContratos(s, RutaSeleccionada(s, p).value), cid)
    ensures r.Some? ==> r.value == p.(contratoId := cid)
  {
    match RutaSeleccionada(s, p)
    case None => None
    case Some(ruta) => if Offers(RutaContratos(s, ruta), cid) then Some(p.(contratoId := cid)) else None
  }

  /** The two text boxes. */
  function Escribir(p: Panel, valor: Option<int>, nota: string): (r: Panel)
    ensures r.selectedRuta == p.selectedRuta && r.contratoId == p.contratoId
    ensures r.lecturaActual == valor && r.incidencia == nota
  {
    p.(lecturaActual := valor, incidencia := nota)
  }

  /** `handleCapture`, behind the "Registrar lectura" button, which is on screen
      only while a route is found and is enabled once a contract is chosen and
      a value typed. The reading records the chosen route and contract, the
      previous value, the classification, the date and the month. The page reads
      the clock twice, once for the date (`nowFecha`) and once for the month
      (`nowPeriodo`). Afterwards the value, the note and the contract are
      cleared; the route stays. */
  function Capturar(s: Store, p: Panel, nowFecha: string, nowPeriodo: string): (r: Option<(Store, Panel)>)
    ensures r.Some? <==> RutaSeleccionada(s, p).Some? && p.contratoId != "" && p.lecturaActual.Some?
    ensures r.Some? ==>
              var t := r.value.0;
              var n := |s.lecturas|;
              var ant := Anterior(s, p.contratoId);
              var k := Clasificar(ant, p.lecturaActual.value, p.incidencia);
              && t == s.(lecturas := t.lecturas, counter := s.counter + 1)
              && |t.lecturas| == n + 1
              && t.lecturas[..n] == s.lecturas
              && t.lecturas[n] == Lectura(NextId(s, "L"), p.contratoId, p.selectedRuta, ant,
                                          p.lecturaActual.value, k.consumo, k.estado, k.incidencia,
                                          Clock.DatePart(nowFecha), Clock.MonthPart(nowPeriodo))
              && t.lecturas[n].estado != LecturaPendiente
    ensures r.Some? ==> r.value.1 == Panel(p.selectedRuta, "", None, "")
    ensures r.Some? && WellFormed(s) ==> WellFormed(r.value.0)
  {
    if RutaSeleccionada(s, p).Some? && p.contratoId != "" && p.lecturaActual.Some? then
      var ant := Anterior(s, p.contratoId);
      var k := Clasificar(ant, p.lecturaActual.value, p.incidencia);
      var t := AddLectura(s, Lectura("", p.contratoId, p.selectedRuta, ant, p.lecturaActual.value,
                                     k.consumo, k.estado, k.incidencia,
                                     Clock.DatePart(nowFecha), Clock.MonthPart(nowPeriodo)));
      assert t.lecturas[..|s.lecturas|] == s.lecturas;
      Some((t, Panel(p.selectedRuta, "", None, "")))
    else None
  }

  /** The panel invariant: a chosen contract is a member of the chosen route. */
  predicate PanelOk(s: Store, p: Panel) {
    p.contratoId != "" ==>
      RutaSeleccionada(s, p).Some? && Offers(RutaContratos(s, RutaSeleccionada(s, p).value), p.contratoId)
  }

  /** Every panel event of the corrected page keeps the invariant. */
  lemma PanelEventsKeepOk(s: Store, p: Panel, id: string, cid: string, valor: Option<int>, nota: string, f: string, m: string)
    requires PanelOk(s, p)
    ensures ElegirRuta(s, p, id).Some? ==> PanelOk(s, ElegirRuta(s, p, id).value)
    ensures ElegirContrato(s, p, cid).Some? ==> PanelOk(s, ElegirContrato(s, p, cid).value)
    ensures PanelOk(s, Escribir(p, valor, nota))
    ensures Capturar(s, p, f, m).Some? ==> PanelOk(Capturar(s, p, f, m).value.0, Capturar(s, p, f, m).value.1)
  {
    var e := Escribir(p, valor, nota);
    assert RutaSeleccionada(s, e) == RutaSeleccionada(s, p);
  }

  /** With the invariant, every captured reading belongs to a contract that the
      recorded route lists. */
  lemma CapturedContractOnRoute(s: Store, p: Panel, f: string, m: string)
    requires PanelOk(s, p)
    ensures Capturar(s, p, f, m).Some? ==>
              var l := Capturar(s, p, f, m).value.0.lecturas[|s.lecturas|];
              exists j :: 0 <= j < |s.rutas| && s.rutas[j].id == l.rutaId && l.contratoId in s.rutas[j].contratoIds
  {
    if Capturar(s, p, f, m).Some? {
      var ruta := RutaSeleccionada(s, p).value;
      assert Offers(RutaContratos(s, ruta), p.contratoId);
      var c :| c in RutaContratos(s, ruta) && c.id == p.contratoId;
      var j :| 0 <= j < |s.rutas| && s.rutas[j] == ruta;
    }
  }

  /** In general the period comes from the second read alone: the reading's
      period is the month of its date exactly when both reads fall in the
      same month. */
  lemma CapturarPeriodFromSecondRead(s: Store, p: Panel, f: string, m: string)
    requires Clock.IsIsoTimestamp(f) && Clock.IsIsoTimestamp(m)
    ensures Capturar(s, p, f, m).Some? ==>
              var l := Capturar(s, p, f, m).value.0.lecturas[|s.lecturas|];
              && l.fecha == f[..10] && l.periodo == m[..7]
              && (l.periodo == l.fecha[..7] <==> f[..7] == m[..7])
  {
    Clock.PeriodOfDate(f);
    Clock.PeriodOfDate(m);
  }

  const EndOfJanuary := "2025-01-31T23:59:59.999Z"
  const StartOfFebruary := "2025-02-01T00:00:00.000Z"

  /** The two reads may straddle a UTC month boundary: a date read at the last
      millisecond of January and a month read at the first of February are
      both timestamps, and their months differ, so such a capture stores date
      "2025-01-31" with period "2025-02". */
  lemma AcrossMonths()
    ensures Clock.IsIsoTimestamp(EndOfJanuary) && Clock.IsIsoTimestamp(StartOfFebruary)
    ensures EndOfJanuary[..10] == "2025-01-31" && StartOfFebruary[..7] == "2025-02"
    ensures EndOfJanuary[..7] != StartOfFebruary[..7]
  {
    assert EndOfJanuary[6] != StartOfFebruary[6];
  }

  /** A store with one contract on route R001 and a second, empty route R101. */
  const Demo: Store := Store(
    [], [], [],
    [ Contrato("CT001", "T001", Agua, Domestico, "Juan Pérez García", "PEGJ800101", "Juriquilla", "442-111-2233",
               Activo, "2025-01-25", None, Some("R001")) ],
    [],
    [ Ruta("R001", "Norte", "Juriquilla", "LIB-001", "Pedro Ramírez", ["CT001"]),
      Ruta("R101", "Sur", "Centro", "LIB-002", "Ana Ruiz", []) ],
    [], [], [], [], [], [], 101)

  lemma DemoSelects()
    ensures RutaSeleccionada(Demo, Panel("R001", "", None, "")) == Some(Demo.rutas[0])
    ensures RutaSeleccionada(Demo, Panel("R101", "CT001", None, "")) == Some(Demo.rutas[1])
    ensures RutaSeleccionada(Demo, Panel("R101", "CT001", Some(20), "")) == Some(Demo.rutas[1])
    ensures RutaSeleccionada(Demo, Panel("R001", "CT001", Some(20), "")) == Some(Demo.rutas[0])
  {
    assert Demo.rutas[0].id == "R001" && Demo.rutas[1].id == "R101";
  }

  lemma DemoOffers()
    ensures Offers(RutaContratos(Demo, Demo.rutas[0]), "CT001")
    ensures !Offers(RutaContratos(Demo, Demo.rutas[1]), "CT001")
  {
    assert Demo.contratos[0] in RutaContratos(Demo, Demo.rutas[0]);
    assert RutaContratos(Demo, Demo.rutas[1]) == [];
  }

  /** The page as written breaks that: choosing route R001, its contract CT001,
      then route R101 and typing 20 records a reading on route R101 for CT001,
      which R101 does not list. */
  lemma StaleContractCounterexample()
    ensures ElegirRutaAsWritten(Demo, PanelInicial, "R001") == Some(Panel("R001", "", None, ""))
    ensures ElegirContrato(Demo, Panel("R001", "", None, ""), "CT001") == Some(Panel("R001", "CT001", None, ""))
    ensures ElegirRutaAsWritten(Demo, Panel("R001", "CT001", None, ""), "R101") == Some(Panel("R101", "CT001", None, ""))
    ensures !PanelOk(Demo, Panel("R101", "CT001", None, ""))
    ensures var c := Capturar(Demo, Panel("R101", "CT001", Some(20), ""), "2025-03-01T10:00:00.000Z", "2025-03-01T10:00:00.000Z");
            && c.Some?
            && c.value.0.lecturas[0].rutaId == "R101"
            && c.value.0.lecturas[0].contratoId == "CT001"
            && "CT001" !in Demo.rutas[1].contratoIds
  {
    DemoSelects();
    DemoOffers();
    assert Demo.rutas[0].id == "R001" && Demo.rutas[1].id == "R101";
  }

  /** The corrected select does not: after the same clicks no contract is chosen,
      so the capture button stays disabled. */
  lemma CorrectedClearsContract()
    ensures ElegirRuta(Demo, Panel("R001", "CT001", None, ""), "R101") == Some(Panel("R101", "", None, ""))
    ensures Capturar(Demo, Panel("R101", "", Some(20), ""), "2025-03-01T10:00:00.000Z", "2025-03-01T10:00:00.000Z").None?
  {
    assert Demo.rutas[1].id == "R101";
  }
}
