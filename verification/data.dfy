/** The entity store of src/context/DataContext.tsx: one collection per entity
    kind plus the shared identifier counter, with the `add*` and `update*`
    operations and the three cascades (contract → service point, meter →
    contract, route → contracts). Every operation is a pure function from the
    store before to the store after. */
module Data {
  import opened Wrappers
  import opened Entities
  import opened Records
  import Ids

  datatype Store = Store(
    factibilidades: seq<Factibilidad>,
    construcciones: seq<Construccion>,
    tomas: seq<Toma>,
    contratos: seq<Contrato>,
    medidores: seq<Medidor>,
    rutas: seq<Ruta>,
    lecturas: seq<Lectura>,
    consumos: seq<Consumo>,
    preFacturas: seq<PreFactura>,
    timbrados: seq<Timbrado>,
    recibos: seq<Recibo>,
    pagos: seq<Pago>,
    counter: nat)

  /** The initial data (src/context/DataContext.tsx:155-214), one constant per collection. */
  const SeedFactibilidades: seq<Factibilidad> :=
    [ Factibilidad("F001", "Lote 23-A Juriquilla", "Carlos Mendoza", "Av. Juriquilla 450", Aprobada, "2025-01-15", "Zona con infraestructura disponible"),
      Factibilidad("F002", "Manzana 5 El Marqués", "María López", "Calle Norte 120", EnComite, "2025-02-01", "Pendiente dictamen técnico"),
      Factibilidad("F003", "Parcela 8 Corregidora", "Roberto Sánchez", "Blvd. Corregidora 890", PreFactibilidad, "2025-02-10", ""),
      Factibilidad("F004", "Condominio Zibatá", "Inmobiliaria Norte SA", "Circuito Zibatá 200", Rechazada, "2024-12-05", "Sin capacidad en red") ]

  const SeedConstrucciones: seq<Construccion> :=
    [ Construccion("C001", "F001", "Red hidráulica Juriquilla Ph2", "Juriquilla", Finalizada, "2025-01-20"),
      Construccion("C002", "F001", "Alcantarillado Juriquilla Ph2", "Juriquilla", EnProceso, "2025-02-01") ]

  const SeedTomas: seq<Toma> :=
    [ Toma("T001", "C001", "Juriquilla Lote 23-A #1", Agua, Asignada),
      Toma("T002", "C001", "Juriquilla Lote 23-A #2", Agua, Disponible),
      Toma("T003", "C001", "Juriquilla Lote 23-A #3", Saneamiento, Disponible),
      Toma("T004", "C001", "Juriquilla Lote 23-A #4", Alcantarillado, Disponible) ]

  const SeedContratos: seq<Contrato> :=
    [ Contrato("CT001", "T001", Agua, Domestico, "Juan Pérez García", "PEGJ800101XXX", "Juriquilla Lote 23-A #1", "442-111-2233", Activo, "2025-01-25", Some("M001"), Some("R001")) ]

  const SeedMedidores: seq<Medidor> := [ Medidor("M001", "CT001", "MED-2025-00001", MedidorActivo, false, 0) ]

  const SeedRutas: seq<Ruta> := [ Ruta("R001", "Norte", "Juriquilla", "LIB-001", "Pedro Ramírez", ["CT001"]) ]

  const SeedLecturas: seq<Lectura> := [ Lectura("L001", "CT001", "R001", 0, 15, 15, Valida, "", "2025-02-15", "2025-02") ]

  const SeedConsumos: seq<Consumo> := [ Consumo("CO001", "CT001", "L001", ConsumoReal, 15.0, "2025-02", true) ]

  const SeedPagos: seq<Pago> := [ Pago("P001", "CT001", 172.0, "2025-01-30", Efectivo, "Pago servicio enero 2025") ]

  const Seed: Store := Store(
    SeedFactibilidades, SeedConstrucciones, SeedTomas, SeedContratos, SeedMedidores, SeedRutas,
    SeedLecturas, SeedConsumos, [], [], [], SeedPagos, Ids.InitialCounter)

  // ---------------------------------------------------------------------------
  // Well-formedness: every collection has distinct keys, all issued by the counter.

  predicate WellFormed(s: Store) {
    && KeysOk(s.factibilidades, FactibilidadKey, s.counter)
    && KeysOk(s.construcciones, ConstruccionKey, s.counter)
    && KeysOk(s.tomas, TomaKey, s.counter)
    && KeysOk(s.contratos, ContratoKey, s.counter)
    && KeysOk(s.medidores, MedidorKey, s.counter)
    && KeysOk(s.rutas, RutaKey, s.counter)
    && KeysOk(s.lecturas, LecturaKey, s.counter)
    && KeysOk(s.consumos, ConsumoKey, s.counter)
    && KeysOk(s.preFacturas, PreFacturaKey, s.counter)
    && KeysOk(s.timbrados, TimbradoKey, s.counter)
    && KeysOk(s.recibos, ReciboKey, s.counter)
    && KeysOk(s.pagos, PagoKey, s.counter)
  }

  predicate IsActivo(c: Contrato) {
    c.estado == Activo
  }

  /** The active contracts, in store order: what the consumption and payment
      selects offer. */
  function Activos(s: Store): (r: seq<Contrato>)
    ensures forall c :: c in r <==> c in s.contratos && c.estado == Activo
  {
    Filter(s.contratos, IsActivo)
  }

  predicate NotKeyOf<T>(xs: seq<T>, key: T -> string, id: string) {
    forall i :: 0 <= i < |xs| ==> key(xs[i]) != id
  }

  /** No record of any kind carries `id`. */
  predicate Fresh(s: Store, id: string) {
    && NotKeyOf(s.factibilidades, FactibilidadKey, id)
    && NotKeyOf(s.construcciones, ConstruccionKey, id)
    && NotKeyOf(s.tomas, TomaKey, id)
    && NotKeyOf(s.contratos, ContratoKey, id)
    && NotKeyOf(s.medidores, MedidorKey, id)
    && NotKeyOf(s.rutas, RutaKey, id)
    && NotKeyOf(s.lecturas, LecturaKey, id)
    && NotKeyOf(s.consumos, ConsumoKey, id)
    && NotKeyOf(s.preFacturas, PreFacturaKey, id)
    && NotKeyOf(s.timbrados, TimbradoKey, id)
    && NotKeyOf(s.recibos, ReciboKey, id)
    && NotKeyOf(s.pagos, PagoKey, id)
  }

  /** The identifier the next `genId(prefix)` returns. */
  function NextId(s: Store, prefix: string): string
    requires Ids.IsPrefix(prefix)
  {
    Ids.Issue(s.counter, prefix).0
  }

  /** The next identifier, whatever its prefix, is carried by no record of any kind:
      the counter is shared, so identifiers are unique across kinds. */
  lemma NextIdFresh(s: Store, prefix: string)
    requires WellFormed(s) && Ids.IsPrefix(prefix)
    ensures Fresh(s, NextId(s, prefix))
    ensures Ids.NumOf(NextId(s, prefix)) == s.counter + 1
  {
  }

  /** Raising the counter keeps every collection's keys issued. */
  lemma Bump(s: Store)
    requires WellFormed(s)
    ensures WellFormed(s.(counter := s.counter + 1))
  {
  }

  // ---------------------------------------------------------------------------
  // add* (src/context/DataContext.tsx:279-324): append one record under a fresh
  // identifier, leaving every existing record as it was.

  function AddFactibilidad(s: Store, f: Factibilidad): (r: Store)
    ensures r == s.(factibilidades := r.factibilidades, counter := s.counter + 1)
    ensures r.factibilidades == s.factibilidades + [f.(id := NextId(s, "F"))]
    ensures WellFormed(s) ==> WellFormed(r) && Fresh(s, NextId(s, "F"))
  {
    var x := f.(id := NextId(s, "F"));
    AddedKeysOk(s, FactibilidadKey, s.factibilidades, x, "F");
    s.(factibilidades := s.factibilidades + [x], counter := s.counter + 1)
  }

  /** The shared step of every add: the appended key is new and the keys stay issued. */
  lemma AddedKeysOk<T>(s: Store, key: T -> string, xs: seq<T>, x: T, prefix: string)
    requires Ids.IsPrefix(prefix) && key(x) == NextId(s, prefix)
    ensures KeysOk(xs, key, s.counter) ==> KeysOk(xs + [x], key, s.counter + 1)
    ensures WellFormed(s) ==> Fresh(s, key(x)) && WellFormed(s.(counter := s.counter + 1))
  {
    if KeysOk(xs, key, s.counter) {
      AppendFresh(xs, key, s.counter, x);
    }
    if WellFormed(s) {
      NextIdFresh(s, prefix);
      Bump(s);
    }
  }

  function AddConstruccion(s: Store, c: Construccion): (r: Store)
    ensures r == s.(construcciones := r.construcciones, counter := s.counter + 1)
    ensures r.construcciones == s.construcciones + [c.(id := NextId(s, "C"))]
    ensures WellFormed(s) ==> WellFormed(r) && Fresh(s, NextId(s, "C"))
  {
    var x := c.(id := NextId(s, "C"));
    AddedKeysOk(s, ConstruccionKey, s.construcciones, x, "C");
    s.(construcciones := s.construcciones + [x], counter := s.counter + 1)
  }

  function AddToma(s: Store, t: Toma): (r: Store)
    ensures r == s.(tomas := r.tomas, counter := s.counter + 1)
    ensures r.tomas == s.tomas + [t.(id := NextId(s, "T"))]
    ensures WellFormed(s) ==> WellFormed(r) && Fresh(s, NextId(s, "T"))
  {
    var x := t.(id := NextId(s, "T"));
    AddedKeysOk(s, TomaKey, s.tomas, x, "T");
    s.(tomas := s.tomas + [x], counter := s.counter + 1)
  }

  function AddLectura(s: Store, l: Lectura): (r: Store)
    ensures r == s.(lecturas := r.lecturas, counter := s.counter + 1)
    ensures r.lecturas == s.lecturas + [l.(id := NextId(s, "L"))]
    ensures WellFormed(s) ==> WellFormed(r) && Fresh(s, NextId(s, "L"))
  {
    var x := l.(id := NextId(s, "L"));
    AddedKeysOk(s, LecturaKey, s.lecturas, x, "L");
    s.(lecturas := s.lecturas + [x], counter := s.counter + 1)
  }

  function AddConsumo(s: Store, c: Consumo): (r: Store)
    ensures r == s.(consumos := r.consumos, counter := s.counter + 1)
    ensures r.consumos == s.consumos + [c.(id := NextId(s, "CO"))]
    ensures WellFormed(s) ==> WellFormed(r) && Fresh(s, NextId(s, "CO"))
  {
    var x := c.(id := NextId(s, "CO"));
    AddedKeysOk(s, ConsumoKey, s.consumos, x, "CO");
    s.(consumos := s.consumos + [x], counter := s.counter + 1)
  }

  function AddPreFactura(s: Store, p: PreFactura): (r: Store)
    ensures r == s.(preFacturas := r.preFacturas, counter := s.counter + 1)
    ensures r.preFacturas == s.preFacturas + [p.(id := NextId(s, "PF"))]
    ensures WellFormed(s) ==> WellFormed(r) && Fresh(s, NextId(s, "PF"))
  {
    var x := p.(id := NextId(s, "PF"));
    AddedKeysOk(s, PreFacturaKey, s.preFacturas, x, "PF");
    s.(preFacturas := s.preFacturas + [x], counter := s.counter + 1)
  }

  function AddTimbrado(s: Store, t: Timbrado): (r: Store)
    ensures r == s.(timbrados := r.timbrados, counter := s.counter + 1)
    ensures r.timbrados == s.timbrados + [t.(id := NextId(s, "TM"))]
    ensures WellFormed(s) ==> WellFormed(r) && Fresh(s, NextId(s, "TM"))
  {
    var x := t.(id := NextId(s, "TM"));
    AddedKeysOk(s, TimbradoKey, s.timbrados, x, "TM");
    s.(timbrados := s.timbrados + [x], counter := s.counter + 1)
  }

  function AddRecibo(s: Store, b: Recibo): (r: Store)
    ensures r == s.(recibos := r.recibos, counter := s.counter + 1)
    ensures r.recibos == s.recibos + [b.(id := NextId(s, "RB"))]
    ensures WellFormed(s) ==> WellFormed(r) && Fresh(s, NextId(s, "RB"))
  {
    var x := b.(id := NextId(s, "RB"));
    AddedKeysOk(s, ReciboKey, s.recibos, x, "RB");
    s.(recibos := s.recibos + [x], counter := s.counter + 1)
  }

  function AddPago(s: Store, p: Pago): (r: Store)
    ensures r == s.(pagos := r.pagos, counter := s.counter + 1)
    ensures r.pagos == s.pagos + [p.(id := NextId(s, "P"))]
    ensures WellFormed(s) ==> WellFormed(r) && Fresh(s, NextId(s, "P"))
  {
    var x := p.(id := NextId(s, "P"));
    AddedKeysOk(s, PagoKey, s.pagos, x, "P");
    s.(pagos := s.pagos + [x], counter := s.counter + 1)
  }

  // ---------------------------------------------------------------------------
  // update* (src/context/DataContext.tsx:280-322): patch every record carrying
  // the identifier and nothing else; an absent identifier changes nothing.

  function UpdateFactibilidad(s: Store, id: string, patch: Factibilidad -> Factibilidad): (r: Store)
    ensures r == s.(factibilidades := r.factibilidades)
    ensures |r.factibilidades| == |s.factibilidades|
    ensures forall i :: 0 <= i < |s.factibilidades| && s.factibilidades[i].id == id ==> r.factibilidades[i] == patch(s.factibilidades[i])
    ensures forall i :: 0 <= i < |s.factibilidades| && s.factibilidades[i].id != id ==> r.factibilidades[i] == s.factibilidades[i]
    ensures NotKeyOf(s.factibilidades, FactibilidadKey, id) ==> r == s
    ensures WellFormed(s) && KeepsKey(FactibilidadKey, patch) ==> WellFormed(r)
  {
    PatchKeepsKeys(s.factibilidades, FactibilidadKey, s.counter, id, patch);
    s.(factibilidades := PatchById(s.factibilidades, FactibilidadKey, id, patch))
  }

  function UpdateConstruccion(s: Store, id: string, patch: Construccion -> Construccion): (r: Store)
    ensures r == s.(construcciones := r.construcciones)
    ensures |r.construcciones| == |s.construcciones|
    ensures forall i :: 0 <= i < |s.construcciones| && s.construcciones[i].id == id ==> r.construcciones[i] == patch(s.construcciones[i])
    ensures forall i :: 0 <= i < |s.construcciones| && s.construcciones[i].id != id ==> r.construcciones[i] == s.construcciones[i]
    ensures NotKeyOf(s.construcciones, ConstruccionKey, id) ==> r == s
    ensures WellFormed(s) && KeepsKey(ConstruccionKey, patch) ==> WellFormed(r)
  {
    PatchKeepsKeys(s.construcciones, ConstruccionKey, s.counter, id, patch);
    s.(construcciones := PatchById(s.construcciones, ConstruccionKey, id, patch))
  }

  function UpdateToma(s: Store, id: string, patch: Toma -> Toma): (r: Store)
    ensures r == s.(tomas := r.tomas)
    ensures |r.tomas| == |s.tomas|
    ensures forall i :: 0 <= i < |s.tomas| && s.tomas[i].id == id ==> r.tomas[i] == patch(s.tomas[i])
    ensures forall i :: 0 <= i < |s.tomas| && s.tomas[i].id != id ==> r.tomas[i] == s.tomas[i]
    ensures NotKeyOf(s.tomas, TomaKey, id) ==> r == s
    ensures WellFormed(s) && KeepsKey(TomaKey, patch) ==> WellFormed(r)
  {
    PatchKeepsKeys(s.tomas, TomaKey, s.counter, id, patch);
    s.(tomas := PatchById(s.tomas, TomaKey, id, patch))
  }

  function UpdateContrato(s: Store, id: string, patch: Contrato -> Contrato): (r: Store)
    ensures r == s.(contratos := r.contratos)
    ensures |r.contratos| == |s.contratos|
    ensures forall i :: 0 <= i < |s.contratos| && s.contratos[i].id == id ==> r.contratos[i] == patch(s.contratos[i])
    ensures forall i :: 0 <= i < |s.contratos| && s.contratos[i].id != id ==> r.contratos[i] == s.contratos[i]
    ensures NotKeyOf(s.contratos, ContratoKey, id) ==> r == s
    ensures WellFormed(s) && KeepsKey(ContratoKey, patch) ==> WellFormed(r)
  {
    PatchKeepsKeys(s.contratos, ContratoKey, s.counter, id, patch);
    s.(contratos := PatchById(s.contratos, ContratoKey, id, patch))
  }

  function UpdateMedidor(s: Store, id: string, patch: Medidor -> Medidor): (r: Store)
    ensures r == s.(medidores := r.medidores)
    ensures |r.medidores| == |s.medidores|
    ensures forall i :: 0 <= i < |s.medidores| && s.medidores[i].id == id ==> r.medidores[i] == patch(s.medidores[i])
    ensures forall i :: 0 <= i < |s.medidores| && s.medidores[i].id != id ==> r.medidores[i] == s.medidores[i]
    ensures NotKeyOf(s.medidores, MedidorKey, id) ==> r == s
    ensures WellFormed(s) && KeepsKey(MedidorKey, patch) ==> WellFormed(r)
  {
    PatchKeepsKeys(s.medidores, MedidorKey, s.counter, id, patch);
    s.(medidores := PatchById(s.medidores, MedidorKey, id, patch))
  }

  function UpdateRuta(s: Store, id: string, patch: Ruta -> Ruta): (r: Store)
    ensures r == s.(rutas := r.rutas)
    ensures |r.rutas| == |s.rutas|
    ensures forall i :: 0 <= i < |s.rutas| && s.rutas[i].id == id ==> r.rutas[i] == patch(s.rutas[i])
    ensures forall i :: 0 <= i < |s.rutas| && s.rutas[i].id != id ==> r.rutas[i] == s.rutas[i]
    ensures NotKeyOf(s.rutas, RutaKey, id) ==> r == s
    ensures WellFormed(s) && KeepsKey(RutaKey, patch) ==> WellFormed(r)
  {
    PatchKeepsKeys(s.rutas, RutaKey, s.counter, id, patch);
    s.(rutas := PatchById(s.rutas, RutaKey, id, patch))
  }

  function UpdateLectura(s: Store, id: string, patch: Lectura -> Lectura): (r: Store)
    ensures r == s.(lecturas := r.lecturas)
    ensures |r.lecturas| == |s.lecturas|
    ensures forall i :: 0 <= i < |s.lecturas| && s.lecturas[i].id == id ==> r.lecturas[i] == patch(s.lecturas[i])
    ensures forall i :: 0 <= i < |s.lecturas| && s.lecturas[i].id != id ==> r.lecturas[i] == s.lecturas[i]
    ensures NotKeyOf(s.lecturas, LecturaKey, id) ==> r == s
    ensures WellFormed(s) && KeepsKey(LecturaKey, patch) ==> WellFormed(r)
  {
    PatchKeepsKeys(s.lecturas, LecturaKey, s.counter, id, patch);
    s.(lecturas := PatchById(s.lecturas, LecturaKey, id, patch))
  }

  function UpdateConsumo(s: Store, id: string, patch: Consumo -> Consumo): (r: Store)
    ensures r == s.(consumos := r.consumos)
    ensures |r.consumos| == |s.consumos|
    ensures forall i :: 0 <= i < |s.consumos| && s.consumos[i].id == id ==> r.consumos[i] == patch(s.consumos[i])
    ensures forall i :: 0 <= i < |s.consumos| && s.consumos[i].id != id ==> r.consumos[i] == s.consumos[i]
    ensures NotKeyOf(s.consumos, ConsumoKey, id) ==> r == s
    ensures WellFormed(s) && KeepsKey(ConsumoKey, patch) ==> WellFormed(r)
  {
    PatchKeepsKeys(s.consumos, ConsumoKey, s.counter, id, patch);
    s.(consumos := PatchById(s.consumos, ConsumoKey, id, patch))
  }

  function UpdatePreFactura(s: Store, id: string, patch: PreFactura -> PreFactura): (r: Store)
    ensures r == s.(preFacturas := r.preFacturas)
    ensures |r.preFacturas| == |s.preFacturas|
    ensures forall i :: 0 <= i < |s.preFacturas| && s.preFacturas[i].id == id ==> r.preFacturas[i] == patch(s.preFacturas[i])
    ensures forall i :: 0 <= i < |s.preFacturas| && s.preFacturas[i].id != id ==> r.preFacturas[i] == s.preFacturas[i]
    ensures NotKeyOf(s.preFacturas, PreFacturaKey, id) ==> r == s
    ensures WellFormed(s) && KeepsKey(PreFacturaKey, patch) ==> WellFormed(r)
  {
    PatchKeepsKeys(s.preFacturas, PreFacturaKey, s.counter, id, patch);
    s.(preFacturas := PatchById(s.preFacturas, PreFacturaKey, id, patch))
  }

  function UpdateTimbrado(s: Store, id: string, patch: Timbrado -> Timbrado): (r: Store)
    ensures r == s.(timbrados := r.timbrados)
    ensures |r.timbrados| == |s.timbrados|
    ensures forall i :: 0 <= i < |s.timbrados| && s.timbrados[i].id == id ==> r.timbrados[i] == patch(s.timbrados[i])
    ensures forall i :: 0 <= i < |s.timbrados| && s.timbrados[i].id != id ==> r.timbrados[i] == s.timbrados[i]
    ensures NotKeyOf(s.timbrados, TimbradoKey, id) ==> r == s
    ensures WellFormed(s) && KeepsKey(TimbradoKey, patch) ==> WellFormed(r)
  {
    PatchKeepsKeys(s.timbrados, TimbradoKey, s.counter, id, patch);
    s.(timbrados := PatchById(s.timbrados, TimbradoKey, id, patch))
  }

  function UpdateRecibo(s: Store, id: string, patch: Recibo -> Recibo): (r: Store)
    ensures r == s.(recibos := r.recibos)
    ensures |r.recibos| == |s.recibos|
    ensures forall i :: 0 <= i < |s.recibos| && s.recibos[i].id == id ==> r.recibos[i] == patch(s.recibos[i])
    ensures forall i :: 0 <= i < |s.recibos| && s.recibos[i].id != id ==> r.recibos[i] == s.recibos[i]
    ensures NotKeyOf(s.recibos, ReciboKey, id) ==> r == s
    ensures WellFormed(s) && KeepsKey(ReciboKey, patch) ==> WellFormed(r)
  {
    PatchKeepsKeys(s.recibos, ReciboKey, s.counter, id, patch);
    s.(recibos := PatchById(s.recibos, ReciboKey, id, patch))
  }

  // ---------------------------------------------------------------------------
  // The cascades (src/context/DataContext.tsx:288-306).

  /** `addContrato`: appends the contract and, when its `tomaId` is non-empty,
      marks that service point 'Asignada'. No other service point changes. */
  function AddContrato(s: Store, c: Contrato): (r: Store)
    ensures r == s.(contratos := r.contratos, tomas := r.tomas, counter := s.counter + 1)
    ensures r.contratos == s.contratos + [c.(id := NextId(s, "CT"))]
    ensures |r.tomas| == |s.tomas|
    ensures forall i :: 0 <= i < |s.tomas| ==>
              r.tomas[i] == if c.tomaId != "" && s.tomas[i].id == c.tomaId
                            then s.tomas[i].(estado := Asignada) else s.tomas[i]
    ensures WellFormed(s) ==> WellFormed(r) && Fresh(s, NextId(s, "CT"))
  {
    var x := c.(id := NextId(s, "CT"));
    AddedKeysOk(s, ContratoKey, s.contratos, x, "CT");
    var s1 := s.(contratos := s.contratos + [x], counter := s.counter + 1);
    if c.tomaId != "" then UpdateToma(s1, c.tomaId, (t: Toma) => t.(estado := Asignada)) else s1
  }

  /** `addMedidor`: appends the meter and makes its contract 'Activo' with the
      new meter's identifier. No other contract changes. */
  function AddMedidor(s: Store, m: Medidor): (r: Store)
    ensures r == s.(medidores := r.medidores, contratos := r.contratos, counter := s.counter + 1)
    ensures r.medidores == s.medidores + [m.(id := NextId(s, "M"))]
    ensures |r.contratos| == |s.contratos|
    ensures forall i :: 0 <= i < |s.contratos| ==>
              r.contratos[i] == if s.contratos[i].id == m.contratoId
                                then s.contratos[i].(estado := Activo, medidorId := Some(NextId(s, "M")))
                                else s.contratos[i]
    ensures WellFormed(s) ==> WellFormed(r) && Fresh(s, NextId(s, "M"))
  {
    var id := NextId(s, "M");
    var x := m.(id := id);
    AddedKeysOk(s, MedidorKey, s.medidores, x, "M");
    var s1 := s.(medidores := s.medidores + [x], counter := s.counter + 1);
    UpdateContrato(s1, m.contratoId, (c: Contrato) => c.(estado := Activo, medidorId := Some(id)))
  }

  /** The route's contracts are patched one by one with the new route
      identifier, in list order. Every listed contract ends up with
      the route, every other contract is untouched. */
  function AssignRuta(cs: seq<Contrato>, cids: seq<string>, rutaId: string): (r: seq<Contrato>)
    ensures |r| == |cs|
    ensures forall i :: 0 <= i < |cs| ==>
              r[i] == if cs[i].id in cids then cs[i].(rutaId := Some(rutaId)) else cs[i]
    decreases |cids|
  {
    if |cids| == 0 then cs
    else
      var cs' := PatchById(cs, ContratoKey, cids[0], (c: Contrato) => c.(rutaId := Some(rutaId)));
      assert forall i :: 0 <= i < |cs| ==> (cs[i].id in cids <==> cs[i].id == cids[0] || cs[i].id in cids[1..]);
      AssignRuta(cs', cids[1..], rutaId)
  }

  /** `addRuta`: appends the route and stamps its identifier on exactly the listed
      contracts. */
  function AddRuta(s: Store, ruta: Ruta): (r: Store)
    ensures r == s.(rutas := r.rutas, contratos := r.contratos, counter := s.counter + 1)
    ensures r.rutas == s.rutas + [ruta.(id := NextId(s, "R"))]
    ensures |r.contratos| == |s.contratos|
    ensures forall i :: 0 <= i < |s.contratos| ==>
              r.contratos[i] == if s.contratos[i].id in ruta.contratoIds
                                then s.contratos[i].(rutaId := Some(NextId(s, "R")))
                                else s.contratos[i]
    ensures WellFormed(s) ==> WellFormed(r) && Fresh(s, NextId(s, "R"))
  {
    var id := NextId(s, "R");
    AddRutaKeys(s, ruta);
    s.(rutas := s.rutas + [ruta.(id := id)],
       contratos := AssignRuta(s.contratos, ruta.contratoIds, id),
       counter := s.counter + 1)
  }

  lemma AddRutaKeys(s: Store, ruta: Ruta)
    ensures var id := NextId(s, "R");
            WellFormed(s) ==>
              Fresh(s, id) &&
              WellFormed(s.(rutas := s.rutas + [ruta.(id := id)],
                            contratos := AssignRuta(s.contratos, ruta.contratoIds, id),
                            counter := s.counter + 1))
  {
    var id := NextId(s, "R");
    AddedKeysOk(s, RutaKey, s.rutas, ruta.(id := id), "R");
    var cs := AssignRuta(s.contratos, ruta.contratoIds, id);
    SameKeys(s.contratos, cs, ContratoKey, s.counter + 1);
    if WellFormed(s) {
      KeysOkMono(s.contratos, ContratoKey, s.counter, s.counter + 1);
    }
  }

  // ---------------------------------------------------------------------------
  // Route membership symmetry: a contract names a route exactly when that route
  // lists the contract.

  predicate RouteSymmetric(s: Store) {
    forall i, j :: 0 <= i < |s.contratos| && 0 <= j < |s.rutas| ==>
      (s.contratos[i].rutaId == Some(s.rutas[j].id) <==> s.contratos[i].id in s.rutas[j].contratoIds)
  }

  /** Route references in the store were issued by the counter, and no route has
      the empty identifier. */
  predicate RouteRefsIssued(s: Store) {
    && (forall i :: 0 <= i < |s.contratos| && s.contratos[i].rutaId.Some? ==>
          Ids.NumOf(s.contratos[i].rutaId.value) <= s.counter)
    && (forall j, k :: 0 <= j < |s.rutas| && 0 <= k < |s.rutas[j].contratoIds| ==>
          Ids.NumOf(s.rutas[j].contratoIds[k]) <= s.counter)
    && (forall j :: 0 <= j < |s.rutas| ==> s.rutas[j].id != "")
  }

  /** Some contract carries identifier `id`. */
  predicate IsContratoId(cs: seq<Contrato>, id: string) {
    exists i :: 0 <= i < |cs| && cs[i].id == id
  }

  /** Creating a route over contracts that belong to no route keeps the symmetry. */
  lemma AddRutaKeepsSymmetry(s: Store, ruta: Ruta)
    requires WellFormed(s) && RouteSymmetric(s) && RouteRefsIssued(s)
    requires forall k :: 0 <= k < |ruta.contratoIds| ==> IsContratoId(s.contratos, ruta.contratoIds[k])
    requires forall i :: 0 <= i < |s.contratos| && s.contratos[i].id in ruta.contratoIds ==>
               !HasRuta(s.contratos[i])
    ensures RouteSymmetric(AddRuta(s, ruta)) && RouteRefsIssued(AddRuta(s, ruta))
  {
    AddRutaSymmetric(s, ruta);
    AddRutaRefs(s, ruta);
  }

  /** The symmetry half: the new route lists exactly the contracts that now
      name it, and no listed contract was on an older route. */
  lemma AddRutaSymmetric(s: Store, ruta: Ruta)
    requires KeysIssued(s.rutas, RutaKey, s.counter) && RouteSymmetric(s) && RouteRefsIssued(s)
    requires forall i :: 0 <= i < |s.contratos| && s.contratos[i].id in ruta.contratoIds ==>
               !HasRuta(s.contratos[i])
    ensures RouteSymmetric(AddRuta(s, ruta))
  {
    var r := AddRuta(s, ruta);
    var id := NextId(s, "R");
    assert Ids.NumOf(id) == s.counter + 1;
    forall i, j | 0 <= i < |r.contratos| && 0 <= j < |r.rutas|
      ensures r.contratos[i].rutaId == Some(r.rutas[j].id) <==> r.contratos[i].id in r.rutas[j].contratoIds
    {
      var c := s.contratos[i];
      assert c.rutaId.Some? ==> Ids.NumOf(c.rutaId.value) <= s.counter;
      if j == |s.rutas| {
        assert r.rutas[j] == ruta.(id := id);
        assert c.rutaId != Some(id);
      } else {
        var rt := s.rutas[j];
        assert r.rutas[j] == rt;
        assert Ids.NumOf(RutaKey(rt)) <= s.counter && rt.id != "";
        OlderRouteUnchanged(c, r.contratos[i], id, ruta.contratoIds, rt);
      }
    }
  }

  /** Stamping route `id` on the contracts in `cids` keeps a contract's standing
      with an older route `rt`, when the stamped contracts had no route. */
  lemma OlderRouteUnchanged(c: Contrato, c': Contrato, id: string, cids: seq<string>, rt: Ruta)
    requires c' == if c.id in cids then c.(rutaId := Some(id)) else c
    requires rt.id != id && rt.id != "" && (c.id in cids ==> !HasRuta(c))
    requires c.rutaId == Some(rt.id) <==> c.id in rt.contratoIds
    ensures c'.rutaId == Some(rt.id) <==> c'.id in rt.contratoIds
  {
  }

  /** The reference half: the new route's members and identifier were issued. */
  lemma AddRutaRefs(s: Store, ruta: Ruta)
    requires KeysIssued(s.contratos, ContratoKey, s.counter) && RouteRefsIssued(s)
    requires forall k :: 0 <= k < |ruta.contratoIds| ==> IsContratoId(s.contratos, ruta.contratoIds[k])
    ensures RouteRefsIssued(AddRuta(s, ruta))
  {
    var r := AddRuta(s, ruta);
    var id := NextId(s, "R");
    assert Ids.NumOf(id) == s.counter + 1;
    assert Ids.NumOf("") == 0;
    forall i | 0 <= i < |r.contratos| && r.contratos[i].rutaId.Some?
      ensures Ids.NumOf(r.contratos[i].rutaId.value) <= r.counter
    {
    }
    forall j, k | 0 <= j < |r.rutas| && 0 <= k < |r.rutas[j].contratoIds|
      ensures Ids.NumOf(r.rutas[j].contratoIds[k]) <= r.counter
    {
      if j == |s.rutas| {
        assert IsContratoId(s.contratos, ruta.contratoIds[k]);
        var i :| 0 <= i < |s.contratos| && s.contratos[i].id == ruta.contratoIds[k];
        assert Ids.NumOf(ContratoKey(s.contratos[i])) <= s.counter;
      } else {
        assert r.rutas[j] == s.rutas[j];
      }
    }
    forall j | 0 <= j < |r.rutas|
      ensures r.rutas[j].id != ""
    {
      if j < |s.rutas| {
        assert r.rutas[j] == s.rutas[j];
      }
    }
  }

  /** Creating a contract that names no route keeps the symmetry. */
  lemma AddContratoKeepsSymmetry(s: Store, c: Contrato)
    requires WellFormed(s) && RouteSymmetric(s) && RouteRefsIssued(s)
    requires c.rutaId.None?
    ensures RouteSymmetric(AddContrato(s, c)) && RouteRefsIssued(AddContrato(s, c))
  {
    var r := AddContrato(s, c);
    var id := NextId(s, "CT");
    assert Ids.NumOf(id) == s.counter + 1;
    assert r.rutas == s.rutas;
    forall i, j | 0 <= i < |r.contratos| && 0 <= j < |r.rutas|
      ensures r.contratos[i].rutaId == Some(r.rutas[j].id) <==> r.contratos[i].id in r.rutas[j].contratoIds
    {
      if i == |s.contratos| {
        assert r.contratos[i] == c.(id := id);
        assert forall k :: 0 <= k < |s.rutas[j].contratoIds| ==> s.rutas[j].contratoIds[k] != id;
      } else {
        assert r.contratos[i] == s.contratos[i];
      }
    }
    forall i | 0 <= i < |r.contratos| && r.contratos[i].rutaId.Some?
      ensures Ids.NumOf(r.contratos[i].rutaId.value) <= r.counter
    {
      assert r.contratos[i] == s.contratos[i];
    }
  }

  /** Assigning a meter does not touch route membership. */
  lemma AddMedidorKeepsSymmetry(s: Store, m: Medidor)
    requires RouteSymmetric(s) && RouteRefsIssued(s)
    ensures RouteSymmetric(AddMedidor(s, m)) && RouteRefsIssued(AddMedidor(s, m))
  {
  }

  /** A seed identifier: a prefix, two zeros and one digit, is `genId`'s output. */
  lemma SeedId(p: string, k: nat)
    requires Ids.IsPrefix(p) && 1 <= k <= 9
    ensures Ids.GenId(p, k) == p + "00" + [Ids.DigitChar(k)]
  {
    assert Ids.Decimal(k) == [Ids.DigitChar(k)];
  }

  /** A collection whose i-th key is the i-th identifier of one prefix has
      distinct keys, all issued below the initial counter. */
  lemma NumberedKeysOk<T>(xs: seq<T>, key: T -> string, p: string)
    requires Ids.IsPrefix(p) && |xs| <= Ids.InitialCounter
    requires forall i :: 0 <= i < |xs| ==> key(xs[i]) == Ids.GenId(p, i + 1)
    ensures KeysOk(xs, key, Ids.InitialCounter)
  {
    forall i | 0 <= i < |xs|
      ensures Ids.NumOf(key(xs[i])) <= Ids.InitialCounter
    {
      Ids.NumOfGenId(p, i + 1);
    }
    forall i, j | 0 <= i < j < |xs|
      ensures key(xs[i]) != key(xs[j])
    {
      Ids.GenIdInjective(p, i + 1, p, j + 1);
    }
  }

  lemma SeedFactibilidadKeys()
    ensures KeysOk(SeedFactibilidades, FactibilidadKey, Ids.InitialCounter)
  {
    SeedId("F", 1); SeedId("F", 2); SeedId("F", 3); SeedId("F", 4);
    NumberedKeysOk(SeedFactibilidades, FactibilidadKey, "F");
  }

  lemma SeedConstruccionKeys()
    ensures KeysOk(SeedConstrucciones, ConstruccionKey, Ids.InitialCounter)
  {
    SeedId("C", 1); SeedId("C", 2);
    NumberedKeysOk(SeedConstrucciones, ConstruccionKey, "C");
  }

  lemma SeedTomaKeys()
    ensures KeysOk(SeedTomas, TomaKey, Ids.InitialCounter)
  {
    SeedId("T", 1); SeedId("T", 2); SeedId("T", 3); SeedId("T", 4);
    NumberedKeysOk(SeedTomas, TomaKey, "T");
  }

  lemma SeedServiceKeys()
    ensures KeysOk(SeedContratos, ContratoKey, Ids.InitialCounter)
    ensures KeysOk(SeedMedidores, MedidorKey, Ids.InitialCounter)
    ensures KeysOk(SeedRutas, RutaKey, Ids.InitialCounter)
  {
    SeedId("CT", 1); NumberedKeysOk(SeedContratos, ContratoKey, "CT");
    SeedId("M", 1); NumberedKeysOk(SeedMedidores, MedidorKey, "M");
    SeedId("R", 1); NumberedKeysOk(SeedRutas, RutaKey, "R");
  }

  lemma SeedBillingKeys()
    ensures KeysOk(SeedLecturas, LecturaKey, Ids.InitialCounter)
    ensures KeysOk(SeedConsumos, ConsumoKey, Ids.InitialCounter)
    ensures KeysOk(SeedPagos, PagoKey, Ids.InitialCounter)
  {
    SeedId("L", 1); NumberedKeysOk(SeedLecturas, LecturaKey, "L");
    SeedId("CO", 1); NumberedKeysOk(SeedConsumos, ConsumoKey, "CO");
    SeedId("P", 1); NumberedKeysOk(SeedPagos, PagoKey, "P");
  }

  lemma SeedWellFormed()
    ensures WellFormed(Seed)
  {
    SeedFactibilidadKeys(); SeedConstruccionKeys(); SeedTomaKeys(); SeedServiceKeys(); SeedBillingKeys();
  }

  /** The seed's one contract and one route name each other. */
  lemma SeedRouteSymmetric()
    ensures RouteSymmetric(Seed)
  {
    assert Seed.contratos == SeedContratos && Seed.rutas == SeedRutas;
    assert SeedRutas[0].contratoIds == [SeedContratos[0].id];
  }

  /** The seed's route and contract identifiers carry the number 1. */
  lemma SeedRefNumbers()
    ensures Ids.NumOf("CT001") == 1 && Ids.NumOf("R001") == 1
  {
    assert Ids.DigitChar(1) == '1';
    SeedId("CT", 1);
    SeedId("R", 1);
    assert Ids.GenId("CT", 1) == "CT001";
    assert Ids.GenId("R", 1) == "R001";
    Ids.NumOfGenId("CT", 1);
    Ids.NumOfGenId("R", 1);
  }

  /** The seed's route references carry numbers below the initial counter. */
  lemma SeedRouteRefs()
    ensures RouteRefsIssued(Seed)
  {
    SeedRefNumbers();
    assert Seed.contratos == SeedContratos && Seed.rutas == SeedRutas;
    assert SeedContratos[0].rutaId == Some("R001");
    assert SeedRutas[0].contratoIds == ["CT001"];
  }

  /** The seed data is well formed and route-symmetric. */
  lemma SeedInvariants()
    ensures WellFormed(Seed) && RouteSymmetric(Seed) && RouteRefsIssued(Seed)
  {
    SeedWellFormed();
    SeedRouteSymmetric();
    SeedRouteRefs();
  }
}
