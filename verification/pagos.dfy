/** The payment page (src/pages/Pagos.tsx): recording payments against active
    contracts, each contract's outstanding balance, and the arrears list. */
module Pagos {
  import opened Wrappers
  import opened Entities
  import opened Records
  import opened Data
  import Clock

  /** The payment form: the contract select, the amount box (None while empty;
      parsing the typed text is outside the model), the kind select (None
      while unchosen) and the free-text concept. */
  datatype Form = Form(contratoId: string, monto: Option<real>, tipo: Option<PagoTipo>, concepto: string)

  const FormInicial := Form("", None, None, "")

  /** The select holds nothing yet, or an active contract's identifier. */
  predicate Selectable(s: Store, f: Form) {
    f.contratoId == "" || exists c :: c in Activos(s) && c.id == f.contratoId
  }

  /** `handlePago`, enabled once contract, amount and kind are given: the
      payment is appended, dated today, and the form is cleared. */
  function Registrar(s: Store, f: Form, now: string): (r: Option<(Store, Form)>)
    requires Selectable(s, f)
    ensures r.Some? <==> f.contratoId != "" && f.monto.Some? && f.tipo.Some?
    ensures r.Some? ==>
              var t := r.value.0;
              var n := |s.pagos|;
              && t == s.(pagos := t.pagos, counter := s.counter + 1)
              && |t.pagos| == n + 1 && t.pagos[..n] == s.pagos
              && t.pagos[n] == Pago(NextId(s, "P"), f.contratoId, f.monto.value, Clock.DatePart(now),
                                    f.tipo.value, f.concepto)
              && r.value.1 == FormInicial
              && exists c :: c in s.contratos && c.estado == Activo && c.id == f.contratoId
    ensures r.Some? && WellFormed(s) ==> WellFormed(r.value.0)
  {
    if f.contratoId != "" && f.monto.Some? && f.tipo.Some? then
      var t := AddPago(s, Pago("", f.contratoId, f.monto.value, Clock.DatePart(now), f.tipo.value, f.concepto));
      assert t.pagos[..|s.pagos|] == s.pagos;
      Some((t, FormInicial))
    else None
  }

  // ---------------------------------------------------------------------------
  // Balances.

  function RecibosDe(cid: string): Recibo -> bool {
    (b: Recibo) => b.contratoId == cid
  }

  function PagosDe(cid: string): Pago -> bool {
    (p: Pago) => p.contratoId == cid
  }

  /** What a receipt charges: its current plus its overdue balance. */
  function Importe(b: Recibo): real {
    (b.saldoVigente + b.saldoVencido) as real
  }

  function Monto(p: Pago): real {
    p.monto
  }

  /** A contract's balance: what its receipts charge less what it has paid. */
  function Saldo(s: Store, cid: string): (r: real)
    ensures ((forall i :: 0 <= i < |s.recibos| ==> s.recibos[i].contratoId != cid)
             && (forall i :: 0 <= i < |s.pagos| ==> s.pagos[i].contratoId != cid)) ==> r == 0.0
  {
    CountNone(s.recibos, RecibosDe(cid));
    CountNone(s.pagos, PagosDe(cid));
    Sum(Filter(s.recibos, RecibosDe(cid)), Importe) - Sum(Filter(s.pagos, PagosDe(cid)), Monto)
  }

  /** Recording a payment lowers its contract's balance by the amount and
      leaves every other contract's balance as it was. */
  lemma RegistrarSaldo(s: Store, f: Form, now: string, cid: string)
    requires Selectable(s, f)
    ensures Registrar(s, f, now).Some? ==>
              Saldo(Registrar(s, f, now).value.0, cid)
                == Saldo(s, cid) - (if cid == f.contratoId then f.monto.value else 0.0)
  {
    if Registrar(s, f, now).Some? {
      var t := Registrar(s, f, now).value.0;
      var p := t.pagos[|s.pagos|];
      assert t.pagos == s.pagos + [p];
      FilterAppend(s.pagos, p, PagosDe(cid));
      if cid == f.contratoId {
        SumAppend(Filter(s.pagos, PagosDe(cid)), p, Monto);
      } else {
        assert Filter(s.pagos, PagosDe(cid)) + [] == Filter(s.pagos, PagosDe(cid));
      }
    }
  }

  // ---------------------------------------------------------------------------
  // Arrears.

  datatype Adeudo = Adeudo(contrato: Contrato, saldo: real)

  function Entrada(s: Store): Contrato -> Adeudo {
    (c: Contrato) => Adeudo(c, Saldo(s, c.id))
  }

  predicate Debe(a: Adeudo) {
    a.saldo > 0.0
  }

  /** `adeudos`: every active contract paired with its balance, keeping those
      that owe something. A contract that is not active is never listed,
      whatever it owes. */
  function Adeudos(s: Store): (r: seq<Adeudo>)
    ensures forall a :: a in r <==>
              && a.contrato in s.contratos && a.contrato.estado == Activo
              && a.saldo == Saldo(s, a.contrato.id) && a.saldo > 0.0
  {
    var xs := Map(Activos(s), Entrada(s));
    assert forall a :: a in xs <==> a.contrato in Activos(s) && a.saldo == Saldo(s, a.contrato.id) by {
      forall a: Adeudo | a.contrato in Activos(s) && a.saldo == Saldo(s, a.contrato.id)
        ensures a in xs
      {
        var i :| 0 <= i < |Activos(s)| && Activos(s)[i] == a.contrato;
        assert xs[i] == a;
      }
    }
    Filter(xs, Debe)
  }

  /** The same list built contract by contract in store order. */
  function AdeudosDe(s: Store, cs: seq<Contrato>): seq<Adeudo>
    decreases |cs|
  {
    if |cs| == 0 then []
    else
      var c := cs[|cs| - 1];
      AdeudosDe(s, cs[..|cs| - 1])
        + (if c.estado == Activo && Saldo(s, c.id) > 0.0 then [Adeudo(c, Saldo(s, c.id))] else [])
  }

  /** The arrears list is in store order: it is exactly the contract-by-contract
      list. */
  lemma AdeudosInStoreOrder(s: Store)
    ensures Adeudos(s) == AdeudosDe(s, s.contratos)
  {
    ActivosThenDebe(s, s.contratos);
  }

  lemma {:induction false} ActivosThenDebe(s: Store, cs: seq<Contrato>)
    ensures Filter(Map(Filter(cs, IsActivo), Entrada(s)), Debe) == AdeudosDe(s, cs)
    decreases |cs|
  {
    if |cs| > 0 {
      var ys := cs[..|cs| - 1];
      var c := cs[|cs| - 1];
      assert cs == ys + [c];
      ActivosThenDebe(s, ys);
      FilterAppend(ys, c, IsActivo);
      if IsActivo(c) {
        ActivoStep(s, ys, c);
      } else {
        assert Filter(cs, IsActivo) == Filter(ys, IsActivo);
      }
    }
  }

  /** One active contract more adds its entry when it owes something. */
  lemma ActivoStep(s: Store, ys: seq<Contrato>, c: Contrato)
    requires IsActivo(c)
    ensures Filter(Map(Filter(ys, IsActivo) + [c], Entrada(s)), Debe)
              == Filter(Map(Filter(ys, IsActivo), Entrada(s)), Debe)
                 + (if Saldo(s, c.id) > 0.0 then [Adeudo(c, Saldo(s, c.id))] else [])
  {
    var zs := Filter(ys, IsActivo);
    var a := Entrada(s)(c);
    assert a == Adeudo(c, Saldo(s, c.id));
    MapAppend(zs, c, Entrada(s));
    FilterAppend(Map(zs, Entrada(s)), a, Debe);
  }
}
