/** The accounting page (src/pages/Contabilidad.tsx): the invoiced, collected
    and stamped totals, and how the operations of the other pages move them. */
module Contabilidad {
  import opened Wrappers
  import opened Entities
  import opened Records
  import opened Data
  import PreFacturacion
  import Stamping = Timbrado
  import Pagos

  predicate IsAceptada(pf: PreFactura) {
    pf.estado == Aceptada
  }

  function Total(pf: PreFactura): real {
    pf.total
  }

  predicate IsTimbrada(t: Timbrado) {
    t.estado == TimbradaOK
  }

  /** `totalFacturado`: the totals of the accepted pre-invoices; pending and
      validated ones count as zero. */
  function TotalFacturado(s: Store): (r: real)
    ensures r == Sum(s.preFacturas, Masked(IsAceptada, Total))
  {
    SumFilter(s.preFacturas, IsAceptada, Total);
    Sum(Filter(s.preFacturas, IsAceptada), Total)
  }

  /** `totalCobrado`: every payment's amount, whatever its contract. */
  function TotalCobrado(s: Store): (r: real)
    ensures (forall i :: 0 <= i < |s.pagos| ==> s.pagos[i].monto >= 0.0) ==> r >= 0.0
  {
    SumNonNegative(s.pagos, Pagos.Monto);
    Sum(s.pagos, Pagos.Monto)
  }

  /** `totalTimbrado`: the number of successful stampings. */
  function TotalTimbrado(s: Store): (r: nat)
    ensures r <= |s.timbrados|
  {
    Count(s.timbrados, IsTimbrada)
  }

  /** Recording a payment raises the collected total by its amount and leaves
      the other two totals alone. */
  lemma RegistrarRaisesCobrado(s: Store, f: Pagos.Form, now: string)
    requires Pagos.Selectable(s, f)
    ensures Pagos.Registrar(s, f, now).Some? ==>
              var t := Pagos.Registrar(s, f, now).value.0;
              && TotalCobrado(t) == TotalCobrado(s) + f.monto.value
              && TotalFacturado(t) == TotalFacturado(s)
              && TotalTimbrado(t) == TotalTimbrado(s)
  {
    if Pagos.Registrar(s, f, now).Some? {
      var t := Pagos.Registrar(s, f, now).value.0;
      var p := t.pagos[|s.pagos|];
      assert t.pagos == s.pagos + [p];
      SumAppend(s.pagos, p, Pagos.Monto);
    }
  }

  /** A retry of a failed stamping changes only the stamped count: by one when
      the provider now succeeds, not at all when it fails again. */
  lemma ReintentarTotals(s: Store, i: nat, out: Stamping.Pac)
    requires WellFormed(s) && i < |s.timbrados|
    ensures Stamping.Reintentar(s, i, out).Some? ==>
              var t := Stamping.Reintentar(s, i, out).value;
              && TotalTimbrado(t) == TotalTimbrado(s) + (if out.Exito? then 1 else 0)
              && TotalFacturado(t) == TotalFacturado(s)
              && TotalCobrado(t) == TotalCobrado(s)
  {
    if Stamping.Reintentar(s, i, out).Some? {
      var t := Stamping.Reintentar(s, i, out).value;
      forall j | 0 <= j < |s.timbrados| && j != i
        ensures t.timbrados[j] == s.timbrados[j]
      {
        assert TimbradoKey(s.timbrados[j]) != TimbradoKey(s.timbrados[i]);
      }
      assert t.timbrados == s.timbrados[i := t.timbrados[i]];
      CountUpdate(s.timbrados, i, t.timbrados[i], IsTimbrada);
    }
  }

  /** Accepting a validated pre-invoice adds its total to the invoiced total;
      validating a pending one adds nothing. */
  lemma TransicionarFacturado(s: Store, i: nat)
    requires WellFormed(s) && i < |s.preFacturas|
    ensures PreFacturacion.Transicionar(s, i).Some? ==>
              var t := PreFacturacion.Transicionar(s, i).value;
              && TotalFacturado(t) == TotalFacturado(s)
                   + (if s.preFacturas[i].estado == Validada then s.preFacturas[i].total else 0.0)
              && TotalCobrado(t) == TotalCobrado(s)
              && TotalTimbrado(t) == TotalTimbrado(s)
  {
    if PreFacturacion.Transicionar(s, i).Some? {
      var t := PreFacturacion.Transicionar(s, i).value;
      PreFacturacion.TransicionarOneRow(s, i);
      SumUpdate(s.preFacturas, i, t.preFacturas[i], Masked(IsAceptada, Total));
    }
  }

  /** A freshly generated pre-invoice is pending, so generating leaves the
      invoiced total as it was. */
  lemma GenerarKeepsFacturado(s: Store, c: Consumo)
    requires c in PreFacturacion.Listos(s)
    ensures TotalFacturado(PreFacturacion.Generar(s, c)) == TotalFacturado(s)
  {
    var t := PreFacturacion.Generar(s, c);
    if |t.preFacturas| != |s.preFacturas| {
      var pf := t.preFacturas[|s.preFacturas|];
      assert t.preFacturas == s.preFacturas + [pf];
      SumAppend(s.preFacturas, pf, Masked(IsAceptada, Total));
    }
  }
}
