/** The pre-billing page (src/pages/PreFacturacion.tsx): turning confirmed
    consumptions into pre-invoices priced by the tariff engine, and moving
    pre-invoices through validation and acceptance. */
module PreFacturacion {
  import opened Wrappers
  import opened Entities
  import opened Records
  import opened Data
  import Tariff

  /** Some pre-invoice already covers contract `cid` for period `periodo`. */
  predicate Facturado(s: Store, cid: string, periodo: string) {
    Any(s.preFacturas, (pf: PreFactura) => pf.contratoId == cid && pf.periodo == periodo)
  }

  /** A consumption is ready to bill once confirmed, while its contract has no
      pre-invoice for its period. */
  predicate Listo(s: Store, c: Consumo) {
    c.confirmado && !Facturado(s, c.contratoId, c.periodo)
  }

  /** The consumptions offered as "Generar" buttons. */
  function Listos(s: Store): (r: seq<Consumo>)
    ensures forall c :: c in r <==> c in s.consumos && c.confirmado && !Facturado(s, c.contratoId, c.periodo)
  {
    Filter(s.consumos, (c: Consumo) => Listo(s, c))
  }

  predicate ContratoIs(id: string, k: Contrato) {
    k.id == id
  }

  /** The first contract with identifier `id` is the one at index `j`. */
  predicate FirstWithId(cs: seq<Contrato>, id: string, j: nat) {
    j < |cs| && cs[j].id == id && forall j' :: 0 <= j' < j ==> cs[j'].id != id
  }

  /** Subtotal and total as tariff table `table` prices volume `m3` of class
      `k`: the volume times the chosen row's unit price, plus its fixed charge. */
  ghost predicate Priced(table: seq<Tarifa>, subtotal: real, total: real, k: ServiceClass, m3: real) {
    exists i: nat :: Tariff.IsChosen(table, k, m3, i)
                  && subtotal == m3 * table[i].precioPorM3
                  && total == subtotal + table[i].cargoFijo
  }

  lemma CalcularPriced(table: seq<Tarifa>, k: ServiceClass, m3: real)
    requires |table| > 0
    ensures var g := Tariff.CalcularTarifa(table, Tariff.ClassName(k), m3); Priced(table, g.subtotal, g.total, k, m3)
  {
    Tariff.ClassNameRoundTrip(k);
  }

  /** `generarPreFactura` on an offered consumption. With no contract of the
      consumption's identifier nothing happens. Otherwise a 'Pendiente'
      pre-invoice for the contract and period is appended, with the
      consumption's volume and no discount, and the consumption is then no
      longer offered. The amounts are the subject of `GenerarPrices`. */
  function Generar(s: Store, c: Consumo): (r: Store)
    requires c in Listos(s)
    ensures !Any(s.contratos, (k: Contrato) => ContratoIs(c.contratoId, k)) ==> r == s
    ensures Any(s.contratos, (k: Contrato) => ContratoIs(c.contratoId, k)) ==>
              var n := |s.preFacturas|;
              && r == s.(preFacturas := r.preFacturas, counter := s.counter + 1)
              && |r.preFacturas| == n + 1
              && r.preFacturas == s.preFacturas + [r.preFacturas[n]]
              && var pf := r.preFacturas[n];
              && pf.id == NextId(s, "PF")
              && pf.contratoId == c.contratoId && pf.periodo == c.periodo && pf.consumoM3 == c.m3
              && pf.descuento == 0.0 && pf.estado == Pendiente
              && !Listo(r, c)
    ensures WellFormed(s) ==> WellFormed(r)
  {
    match FirstIndex(s.contratos, (k: Contrato) => ContratoIs(c.contratoId, k))
    case None => s
    case Some(j) =>
      var pf := Pricing(s, c, j);
      AddPreFactura(s, pf)
  }

  /** The pre-invoice, before it gets its identifier, for the consumption `c`
      of contract `s.contratos[j]`. */
  function Pricing(s: Store, c: Consumo, j: nat): (r: PreFactura)
    requires j < |s.contratos|
    ensures r.contratoId == c.contratoId && r.periodo == c.periodo && r.consumoM3 == c.m3
    ensures r.descuento == 0.0 && r.estado == Pendiente
    ensures Priced(Tariff.SeedTarifas, r.subtotal, r.total, s.contratos[j].tipoServicio, c.m3)
  {
    Tariff.ClassNameRoundTrip(s.contratos[j].tipoServicio);
    var cargo := Tariff.Calcular(Tariff.ClassName(s.contratos[j].tipoServicio), c.m3);
    PreFactura("", c.contratoId, c.periodo, c.m3, cargo.subtotal, 0.0, cargo.total, Pendiente)
  }

  /** The amounts of a generated pre-invoice: the first contract with the
      consumption's identifier is priced by its service class in the tariff
      table, the subtotal being the volume times the chosen row's unit price and
      the total adding its fixed charge. */
  lemma GenerarPrices(s: Store, c: Consumo)
    requires c in Listos(s)
    ensures var r := Generar(s, c);
            |r.preFacturas| > |s.preFacturas| ==>
              var pf := r.preFacturas[|s.preFacturas|];
              exists j: nat :: FirstWithId(s.contratos, c.contratoId, j)
                            && Priced(Tariff.SeedTarifas, pf.subtotal, pf.total, s.contratos[j].tipoServicio, c.m3)
  {
    match FirstIndex(s.contratos, (k: Contrato) => ContratoIs(c.contratoId, k))
    case None =>
    case Some(j) =>
      var k := s.contratos[j].tipoServicio;
      var pf := Pricing(s, c, j);
      CalcularPriced(Tariff.SeedTarifas, k, c.m3);
      assert Priced(Tariff.SeedTarifas, pf.subtotal, pf.total, k, c.m3);
      assert FirstWithId(s.contratos, c.contratoId, j);
      var r := Generar(s, c);
      var x := r.preFacturas[|s.preFacturas|];
      assert x == pf.(id := x.id);
  }

  /** No two pre-invoices cover the same contract and period. */
  predicate PeriodosUnicos(s: Store) {
    Unicos(s.preFacturas)
  }

  predicate Unicos(xs: seq<PreFactura>) {
    forall i, j :: 0 <= i < j < |xs| ==>
      !(xs[i].contratoId == xs[j].contratoId && xs[i].periodo == xs[j].periodo)
  }

  lemma SeedPeriodosUnicos()
    ensures PeriodosUnicos(Seed)
  {
  }

  /** Appending a pre-invoice for a contract and period none covers keeps them unique. */
  lemma AppendKeepsUnicos(xs: seq<PreFactura>, pf: PreFactura)
    requires Unicos(xs)
    requires forall i :: 0 <= i < |xs| ==> !(xs[i].contratoId == pf.contratoId && xs[i].periodo == pf.periodo)
    ensures Unicos(xs + [pf])
  {
    var ys := xs + [pf];
    forall i, j | 0 <= i < j < |ys|
      ensures !(ys[i].contratoId == ys[j].contratoId && ys[i].periodo == ys[j].periodo)
    {
      assert ys[i] == xs[i];
      if j < |xs| {
        assert ys[j] == xs[j];
      }
    }
  }

  /** Because only unbilled consumptions are offered, generating never bills a
      contract twice for one period. */
  lemma GenerarKeepsPeriodosUnicos(s: Store, c: Consumo)
    requires c in Listos(s) && PeriodosUnicos(s)
    ensures PeriodosUnicos(Generar(s, c))
  {
    var r := Generar(s, c);
    var n := |s.preFacturas|;
    if |r.preFacturas| != n {
      var pf := r.preFacturas[n];
      assert pf.contratoId == c.contratoId && pf.periodo == c.periodo;
      assert !Facturado(s, c.contratoId, c.periodo);
      AppendKeepsUnicos(s.preFacturas, pf);
    }
  }

  // ---------------------------------------------------------------------------
  // Validation: "Validar" on a 'Pendiente' row, "Aceptar" on a 'Validada' one.

  function Rank(e: PreFacturaEstado): nat {
    match e
    case Pendiente => 0
    case Validada => 1
    case Aceptada => 2
  }

  /** The state the row's button leads to; an accepted pre-invoice shows none. */
  function Siguiente(e: PreFacturaEstado): (r: Option<PreFacturaEstado>)
    ensures r.None? <==> e == Aceptada
    ensures r.Some? ==> Rank(r.value) == Rank(e) + 1
    ensures e == Validada ==> r == Some(Aceptada)
  {
    match e
    case Pendiente => Some(Validada)
    case Validada => Some(Aceptada)
    case Aceptada => None
  }

  /** Pressing the button of row `i`: `updatePreFactura` patches the state of
      every pre-invoice with that identifier; the amounts never change. */
  function Transicionar(s: Store, i: nat): (r: Option<Store>)
    requires i < |s.preFacturas|
    ensures r.Some? <==> s.preFacturas[i].estado != Aceptada
    ensures r.Some? ==>
              && r.value == s.(preFacturas := r.value.preFacturas)
              && |r.value.preFacturas| == |s.preFacturas|
              && (forall j :: 0 <= j < |s.preFacturas| && s.preFacturas[j].id != s.preFacturas[i].id ==>
                    r.value.preFacturas[j] == s.preFacturas[j])
              && (forall j :: 0 <= j < |s.preFacturas| ==>
                    r.value.preFacturas[j] == s.preFacturas[j].(estado := r.value.preFacturas[j].estado))
              && Rank(r.value.preFacturas[i].estado) == Rank(s.preFacturas[i].estado) + 1
    ensures r.Some? && WellFormed(s) ==> WellFormed(r.value)
  {
    match Siguiente(s.preFacturas[i].estado)
    case None => None
    case Some(e) =>
      Some(UpdatePreFactura(s, s.preFacturas[i].id, (pf: PreFactura) => pf.(estado := e)))
  }

  /** With distinct identifiers a press moves exactly its own row one step and
      leaves every other row as it was; no row ever moves back. */
  lemma TransicionarOneRow(s: Store, i: nat)
    requires WellFormed(s) && i < |s.preFacturas|
    ensures Transicionar(s, i).Some? ==>
              var e := Siguiente(s.preFacturas[i].estado).value;
              && Transicionar(s, i).value.preFacturas == s.preFacturas[i := s.preFacturas[i].(estado := e)]
              && forall j :: 0 <= j < |s.preFacturas| ==>
                   Rank(Transicionar(s, i).value.preFacturas[j].estado) >= Rank(s.preFacturas[j].estado)
  {
    if Transicionar(s, i).Some? {
      var e := Siguiente(s.preFacturas[i].estado).value;
      PatchUnique(s.preFacturas, PreFacturaKey, s.preFacturas[i].id, (pf: PreFactura) => pf.(estado := e), i);
    }
  }
}
