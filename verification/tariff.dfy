/** The tariff engine `calcularTarifa` and the seed tariff table
    (src/context/DataContext.tsx:194-201, 326-332). */
module Tariff {
  import opened Wrappers
  import opened Entities
  import Records

  /** The tariff table. The source holds it in state without a setter, so it
      never changes. */
  const SeedTarifas: seq<Tarifa> := [
    Tarifa("TAR001", Domestico, 0.0, 10.0, 8.50, 45.0),
    Tarifa("TAR002", Domestico, 11.0, 30.0, 14.20, 45.0),
    Tarifa("TAR003", Domestico, 31.0, 999.0, 22.00, 45.0),
    Tarifa("TAR004", Comercial, 0.0, 20.0, 18.50, 120.0),
    Tarifa("TAR005", Comercial, 21.0, 999.0, 28.00, 120.0),
    Tarifa("TAR006", Industrial, 0.0, 999.0, 35.00, 250.0)
  ]

  /** The name the user interface and the contract records use for a class. */
  function ClassName(k: ServiceClass): string {
    match k
    case Domestico => "Doméstico"
    case Comercial => "Comercial"
    case Industrial => "Industrial"
  }

  /** The class a service name is priced as: any name other than 'Doméstico'
      and 'Comercial' is priced as Industrial. */
  function ClassOf(name: string): (k: ServiceClass)
    ensures k == Domestico <==> name == "Doméstico"
    ensures k == Comercial <==> name == "Comercial"
    ensures k == Industrial <==> name != "Doméstico" && name != "Comercial"
  {
    if name == "Doméstico" then Domestico
    else if name == "Comercial" then Comercial
    else Industrial
  }

  /** Naming a class and reading the name back gives the class. */
  lemma ClassNameRoundTrip(k: ServiceClass)
    ensures ClassOf(ClassName(k)) == k
  {
  }

  /** A row prices volume `m3` of class `k`: same class, both bracket ends inclusive. */
  predicate Applies(t: Tarifa, k: ServiceClass, m3: real) {
    t.tipo == k && t.rangoMin <= m3 <= t.rangoMax
  }

  /** Row `i` is the one used: the first applicable row in table order, or row 0
      when no row applies. */
  predicate IsChosen(table: seq<Tarifa>, k: ServiceClass, m3: real, i: nat) {
    i < |table| &&
    ((Applies(table[i], k, m3) && forall j :: 0 <= j < i ==> !Applies(table[j], k, m3))
     || (i == 0 && forall j :: 0 <= j < |table| ==> !Applies(table[j], k, m3)))
  }

  /** The chosen row is determined by the table, the class and the volume. */
  lemma ChosenUnique(table: seq<Tarifa>, k: ServiceClass, m3: real, i: nat, i': nat)
    requires IsChosen(table, k, m3, i) && IsChosen(table, k, m3, i')
    ensures i == i'
  {
  }

  /** The amounts `calcularTarifa` returns. */
  datatype Cargo = Cargo(subtotal: real, cargoFijo: real, total: real)

  /** The position of the row used to price `m3` of class `k`. */
  function ChosenIndex(table: seq<Tarifa>, k: ServiceClass, m3: real): (i: nat)
    requires |table| > 0
    ensures IsChosen(table, k, m3, i)
  {
    match Records.FirstIndex(table, (t: Tarifa) => Applies(t, k, m3))
    case Some(j) => j
    case None => 0
  }

  /** `calcularTarifa(tipoServicio, m3)` over `table`. The source's table is never
      empty; on an empty table `tarifas[0]` would be undefined. */
  function CalcularTarifa(table: seq<Tarifa>, tipoServicio: string, m3: real): (r: Cargo)
    requires |table| > 0
    ensures r.total == r.subtotal + r.cargoFijo
    ensures exists i: nat :: IsChosen(table, ClassOf(tipoServicio), m3, i)
                        && r.subtotal == m3 * table[i].precioPorM3
                        && r.cargoFijo == table[i].cargoFijo
  {
    var t := table[ChosenIndex(table, ClassOf(tipoServicio), m3)];
    var subtotal := m3 * t.precioPorM3;
    Cargo(subtotal, t.cargoFijo, subtotal + t.cargoFijo)
  }

  /** The engine over the fixed seed table. */
  function Calcular(tipoServicio: string, m3: real): Cargo {
    CalcularTarifa(SeedTarifas, tipoServicio, m3)
  }

  /** The engine prices by the seed table: the total is the subtotal plus the
      fixed charge of the chosen row, the subtotal the volume times its unit
      price. */
  lemma CalcularSeed(tipoServicio: string, m3: real)
    ensures Charges(SeedTarifas, ClassOf(tipoServicio), m3, Calcular(tipoServicio, m3))
  {
    ChargesOf(SeedTarifas, tipoServicio, m3);
  }

  /** `c` is what table `table` charges for volume `m3` of class `k`: the
      chosen row's unit price times the volume plus its fixed charge. */
  ghost predicate Charges(table: seq<Tarifa>, k: ServiceClass, m3: real, c: Cargo) {
    && c.total == c.subtotal + c.cargoFijo
    && exists i: nat :: IsChosen(table, k, m3, i)
                     && c.subtotal == m3 * table[i].precioPorM3
                     && c.cargoFijo == table[i].cargoFijo
  }

  lemma ChargesOf(table: seq<Tarifa>, tipoServicio: string, m3: real)
    requires |table| > 0
    ensures Charges(table, ClassOf(tipoServicio), m3, CalcularTarifa(table, tipoServicio, m3))
  {
  }

  /** In the seed table every whole volume from 0 to 999 falls in exactly one
      row of each class. */
  lemma SeedCoversWholeVolumes(k: ServiceClass, m: int)
    requires 0 <= m <= 999
    ensures exists i :: 0 <= i < |SeedTarifas| && Applies(SeedTarifas[i], k, m as real)
    ensures forall i, j :: 0 <= i < j < |SeedTarifas| ==>
              !(Applies(SeedTarifas[i], k, m as real) && Applies(SeedTarifas[j], k, m as real))
  {
    var x := m as real;
    match k
    case Domestico =>
      if m <= 10 { assert Applies(SeedTarifas[0], k, x); }
      else if m <= 30 { assert Applies(SeedTarifas[1], k, x); }
      else { assert Applies(SeedTarifas[2], k, x); }
    case Comercial =>
      if m <= 20 { assert Applies(SeedTarifas[3], k, x); }
      else { assert Applies(SeedTarifas[4], k, x); }
    case Industrial =>
      assert Applies(SeedTarifas[5], k, x);
  }

  /** Hence for whole volumes in range the fallback never fires: the row used is
      of the contract's own class and its bracket holds the volume. */
  lemma SeedNoFallback(name: string, m: int)
    requires 0 <= m <= 999
    ensures Applies(SeedTarifas[ChosenIndex(SeedTarifas, ClassOf(name), m as real)], ClassOf(name), m as real)
  {
    SeedCoversWholeVolumes(ClassOf(name), m);
  }

  /** 15 m³ Doméstico is priced by the 11-30 bracket: 15 × 14.20 = 213, plus 45. */
  lemma SeedDomestic15()
    ensures Calcular("Doméstico", 15.0) == Cargo(213.0, 45.0, 258.0)
  {
    var i := ChosenIndex(SeedTarifas, Domestico, 15.0);
    assert Applies(SeedTarifas[1], Domestico, 15.0);
    assert !Applies(SeedTarifas[0], Domestico, 15.0);
    assert i == 1;
  }

  /** 10.5 m³ falls between the 0-10 and 11-30 brackets, so no row applies and
      the first row of the table prices it. */
  lemma SeedGapFallsBack()
    ensures forall i :: 0 <= i < |SeedTarifas| ==> !Applies(SeedTarifas[i], Domestico, 10.5)
    ensures Calcular("Doméstico", 10.5) == Cargo(89.25, 45.0, 134.25)
  {
    assert ChosenIndex(SeedTarifas, Domestico, 10.5) == 0;
  }

  /** Past the last bracket the fallback row is the first row of the table, a
      Doméstico row, whatever the class asked for. */
  lemma SeedOverflowUsesFirstRow()
    ensures Calcular("Industrial", 1000.0) == Cargo(8500.0, 45.0, 8545.0)
  {
    assert ChosenIndex(SeedTarifas, Industrial, 1000.0) == 0;
  }
}
