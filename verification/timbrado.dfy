/** The stamping monitor (src/pages/TimbradoPage.tsx): accepted pre-invoices
    are sent to the PAC (the external certification provider), one at a time
    or all at once; a failed stamping can be retried in place. The provider's
    answer, random in the source, is a parameter. */
module Timbrado {
  import opened Wrappers
  import opened Entities
  import opened Records
  import opened Data
  import Clock

  /** What the provider answered: success with the stamp text the source builds
      from the clock, or a failure. */
  datatype Pac = Exito(stamp: string) | Falla

  const ErrorTimeout := "Error de conexión con PAC: timeout"
  const ErrorReintento := "Reintento fallido"

  /** Some stamping was already made for pre-invoice `id`. */
  predicate ReferencedIn(ts: seq<Timbrado>, id: string) {
    exists i :: 0 <= i < |ts| && ts[i].preFacturaId == id
  }

  predicate Referenced(s: Store, id: string) {
    ReferencedIn(s.timbrados, id)
  }

  predicate Stampable(s: Store, pf: PreFactura) {
    pf.estado == Aceptada && !Referenced(s, pf.id)
  }

  /** The pre-invoices offered as "Timbrar" buttons. */
  function Aceptadas(s: Store): (r: seq<PreFactura>)
    ensures forall pf :: pf in r <==> pf in s.preFacturas && pf.estado == Aceptada && !Referenced(s, pf.id)
    ensures WellFormed(s) ==> KeysDistinct(r, PreFacturaKey)
  {
    FilterKeysDistinct(s.preFacturas, PreFacturaKey, (pf: PreFactura) => Stampable(s, pf));
    Filter(s.preFacturas, (pf: PreFactura) => Stampable(s, pf))
  }

  /** The uuid, state and error a provider answer gives. */
  function Uuid(out: Pac): (u: string)
    ensures u == "" <==> out.Falla?
    ensures out.Exito? ==> |u| == 5 + |out.stamp| && u[..5] == "UUID-" && u[5..] == out.stamp
  {
    match out
    case Exito(stamp) => "UUID-" + stamp
    case Falla => ""
  }

  function Estado(out: Pac): (e: TimbradoEstado)
    ensures e == TimbradaOK <==> out.Exito?
    ensures e == ErrorPAC <==> out.Falla?
  {
    if out.Exito? then TimbradaOK else ErrorPAC
  }

  /** A stamping whose uuid, state and error agree: a uuid exactly when stamped,
      an error message exactly on a provider error, and never pending. */
  predicate Coupled(t: Timbrado) {
    && (t.uuid == "" <==> t.estado == ErrorPAC)
    && (t.error.Some? <==> t.estado == ErrorPAC)
    && t.estado != TimbradoPendiente
  }

  predicate AllCoupledIn(ts: seq<Timbrado>) {
    forall i :: 0 <= i < |ts| ==> Coupled(ts[i])
  }

  predicate AllCoupled(s: Store) {
    AllCoupledIn(s.timbrados)
  }

  /** No two stampings reference the same pre-invoice. */
  predicate OneEach(ts: seq<Timbrado>) {
    forall i, j :: 0 <= i < j < |ts| ==> ts[i].preFacturaId != ts[j].preFacturaId
  }

  /** At most one stamping per pre-invoice. */
  predicate OnePerPreFactura(s: Store) {
    OneEach(s.timbrados)
  }

  /** `timbrar(pf)`: appends the provider's answer for the pre-invoice, dated
      today. The pre-invoice itself, like everything else, is left alone; the
      pre-invoice is referenced afterwards, so it is no longer offered. */
  function Timbrar(s: Store, pf: PreFactura, out: Pac, now: string): (r: Store)
    ensures r == s.(timbrados := r.timbrados, counter := s.counter + 1)
    ensures |r.timbrados| == |s.timbrados| + 1 && r.timbrados[..|s.timbrados|] == s.timbrados
    ensures var t := r.timbrados[|s.timbrados|];
            && t.id == NextId(s, "TM")
            && t.preFacturaId == pf.id && t.contratoId == pf.contratoId
            && t.fecha == Clock.DatePart(now)
            && (t.estado == TimbradaOK <==> out.Exito?)
            && (out.Exito? ==> t.uuid == "UUID-" + out.stamp && t.error == None)
            && (out.Falla? ==> t.uuid == "" && t.error == Some(ErrorTimeout))
            && Coupled(t)
    ensures Referenced(r, pf.id) && !Stampable(r, pf)
    ensures WellFormed(s) ==> WellFormed(r)
  {
    var error := if out.Exito? then None else Some(ErrorTimeout);
    var r := AddTimbrado(s, Timbrado("", pf.id, pf.contratoId, Uuid(out), Estado(out), error, Clock.DatePart(now)));
    assert r.timbrados[..|s.timbrados|] == s.timbrados;
    assert r.timbrados[|s.timbrados|].preFacturaId == pf.id;
    r
  }

  lemma TimbrarKeepsInvariants(s: Store, pf: PreFactura, out: Pac, now: string)
    requires AllCoupled(s) && OnePerPreFactura(s) && !Referenced(s, pf.id)
    ensures AllCoupled(Timbrar(s, pf, out, now)) && OnePerPreFactura(Timbrar(s, pf, out, now))
  {
    var r := Timbrar(s, pf, out, now);
    var n := |s.timbrados|;
    forall i | 0 <= i < n + 1
      ensures Coupled(r.timbrados[i])
    {
      if i < n {
        assert r.timbrados[i] == s.timbrados[i];
      }
    }
    forall i, j | 0 <= i < j < n + 1
      ensures r.timbrados[i].preFacturaId != r.timbrados[j].preFacturaId
    {
      assert r.timbrados[i] == s.timbrados[i];
      if j < n {
        assert r.timbrados[j] == s.timbrados[j];
      }
    }
  }

  /** Stamping `t` records the answer `out` for pre-invoice `pf`, dated by
      the clock read `now`. */
  predicate Stamped(t: Timbrado, pf: PreFactura, out: Pac, now: string) {
    && t.preFacturaId == pf.id && t.contratoId == pf.contratoId && t.fecha == Clock.DatePart(now)
    && (t.estado == TimbradaOK <==> out.Exito?)
    && Coupled(t)
  }

  /** "Timbrar todas": `timbrar` called on each pre-invoice of `pfs`, the list
      as rendered, in order, with one provider answer and one clock read per
      call. */
  function TimbrarTodas(s: Store, pfs: seq<PreFactura>, outs: seq<Pac>, nows: seq<string>): (r: Store)
    requires |outs| == |pfs| && |nows| == |pfs|
    ensures r == s.(timbrados := r.timbrados, counter := s.counter + |pfs|)
    ensures |r.timbrados| == |s.timbrados| + |pfs|
    ensures WellFormed(s) ==> WellFormed(r)
    decreases |pfs|
  {
    if |pfs| == 0 then s
    else TimbrarTodas(Timbrar(s, pfs[0], outs[0], nows[0]), pfs[1..], outs[1..], nows[1..])
  }

  /** One call appends exactly one stamping, recording the answer. */
  lemma TimbrarAppendsOne(s: Store, pf: PreFactura, out: Pac, now: string)
    ensures var t := Timbrar(s, pf, out, now).timbrados;
            t == s.timbrados + [t[|s.timbrados|]] && Stamped(t[|s.timbrados|], pf, out, now)
  {
    var t := Timbrar(s, pf, out, now).timbrados;
    assert t == t[..|s.timbrados|] + [t[|s.timbrados|]];
  }

  /** From position `n` on, `ts` holds one stamping per pre-invoice of `pfs`,
      in order, recording the matching answer of `outs` and date of `nows`. */
  predicate StampedFrom(ts: seq<Timbrado>, n: nat, pfs: seq<PreFactura>, outs: seq<Pac>, nows: seq<string>)
    requires |outs| == |pfs| && |nows| == |pfs|
  {
    n + |pfs| <= |ts| && forall k :: 0 <= k < |pfs| ==> Stamped(ts[n + k], pfs[k], outs[k], nows[k])
  }

  lemma StampedFromCons(ts: seq<Timbrado>, n: nat, pfs: seq<PreFactura>, outs: seq<Pac>, nows: seq<string>)
    requires |outs| == |pfs| > 0 && |nows| == |pfs| && n < |ts|
    requires Stamped(ts[n], pfs[0], outs[0], nows[0]) && StampedFrom(ts, n + 1, pfs[1..], outs[1..], nows[1..])
    ensures StampedFrom(ts, n, pfs, outs, nows)
  {
    forall k | 1 <= k < |pfs|
      ensures Stamped(ts[n + k], pfs[k], outs[k], nows[k])
    {
      assert Stamped(ts[(n + 1) + (k - 1)], pfs[1..][k - 1], outs[1..][k - 1], nows[1..][k - 1]);
    }
  }

  /** The calls append, in list order, one stamping per pre-invoice, and keep
      the stampings already there. */
  lemma {:induction false} TimbrarTodasAppends(s: Store, pfs: seq<PreFactura>, outs: seq<Pac>, nows: seq<string>)
    requires |outs| == |pfs| && |nows| == |pfs|
    ensures var r := TimbrarTodas(s, pfs, outs, nows);
            r.timbrados[..|s.timbrados|] == s.timbrados && StampedFrom(r.timbrados, |s.timbrados|, pfs, outs, nows)
    decreases |pfs|
  {
    if |pfs| > 0 {
      var n := |s.timbrados|;
      var s1 := Timbrar(s, pfs[0], outs[0], nows[0]);
      var rt := TimbrarTodas(s1, pfs[1..], outs[1..], nows[1..]).timbrados;
      assert TimbrarTodas(s, pfs, outs, nows).timbrados == rt;
      TimbrarAppendsOne(s, pfs[0], outs[0], nows[0]);
      TimbrarTodasAppends(s1, pfs[1..], outs[1..], nows[1..]);
      assert rt[..n + 1] == s1.timbrados;
      assert rt[..n] == s.timbrados by {
        assert rt[..n] == rt[..n + 1][..n];
      }
      assert rt[n] == rt[..n + 1][n];
      StampedFromCons(rt, n, pfs, outs, nows);
    }
  }

  /** Stamping a list of distinct, unreferenced pre-invoices keeps the
      invariants, keeps every reference there was, and leaves each of them
      referenced. */
  lemma {:induction false} TimbrarTodasKeepsInvariants(s: Store, pfs: seq<PreFactura>, outs: seq<Pac>, nows: seq<string>)
    requires OnePerPreFactura(s) && AllCoupled(s) && |outs| == |pfs| && |nows| == |pfs|
    requires KeysDistinct(pfs, PreFacturaKey)
    requires forall k :: 0 <= k < |pfs| ==> !Referenced(s, pfs[k].id)
    ensures var r := TimbrarTodas(s, pfs, outs, nows);
            && OnePerPreFactura(r) && AllCoupled(r)
            && (forall id :: Referenced(s, id) ==> Referenced(r, id))
            && (forall k :: 0 <= k < |pfs| ==> Referenced(r, pfs[k].id))
    decreases |pfs|
  {
    if |pfs| > 0 {
      var s1 := Timbrar(s, pfs[0], outs[0], nows[0]);
      TimbrarKeepsInvariants(s, pfs[0], outs[0], nows[0]);
      var rest := pfs[1..];
      forall k | 0 <= k < |rest|
        ensures !Referenced(s1, rest[k].id)
      {
        assert rest[k] == pfs[k + 1];
        assert PreFacturaKey(pfs[0]) != PreFacturaKey(pfs[k + 1]);
        ReferencedAfterTimbrar(s, pfs[0], outs[0], nows[0], rest[k].id);
      }
      TimbrarTodasKeepsInvariants(s1, rest, outs[1..], nows[1..]);
      forall id | Referenced(s, id)
        ensures Referenced(s1, id)
      {
        ReferencedAfterTimbrar(s, pfs[0], outs[0], nows[0], id);
      }
      forall k | 1 <= k < |pfs|
        ensures Referenced(TimbrarTodas(s, pfs, outs, nows), pfs[k].id)
      {
        assert pfs[k] == rest[k - 1];
      }
    }
  }

  /** After stamping `pf`, exactly the identifiers referenced before and `pf`'s
      own are referenced. */
  lemma ReferencedAfterTimbrar(s: Store, pf: PreFactura, out: Pac, now: string, id: string)
    ensures Referenced(Timbrar(s, pf, out, now), id) <==> Referenced(s, id) || id == pf.id
  {
    var r := Timbrar(s, pf, out, now);
    var n := |s.timbrados|;
    if Referenced(s, id) {
      var i :| 0 <= i < n && s.timbrados[i].preFacturaId == id;
      assert r.timbrados[i] == r.timbrados[..n][i];
    }
    if Referenced(r, id) && id != pf.id {
      var i :| 0 <= i < |r.timbrados| && r.timbrados[i].preFacturaId == id;
      assert s.timbrados[i] == r.timbrados[..n][i];
    }
  }

  /** "Timbrar todas" stamps each offered pre-invoice exactly once: with
      distinct pre-invoice identifiers the invariants hold afterwards, and
      every pre-invoice offered before is referenced and no longer offered. */
  lemma TimbrarTodasOnce(s: Store, outs: seq<Pac>, nows: seq<string>)
    requires WellFormed(s) && OnePerPreFactura(s) && AllCoupled(s)
    requires |outs| == |Aceptadas(s)| && |nows| == |Aceptadas(s)|
    ensures var r := TimbrarTodas(s, Aceptadas(s), outs, nows);
            && OnePerPreFactura(r) && AllCoupled(r)
            && forall pf :: pf in Aceptadas(s) ==> !Stampable(r, pf)
  {
    var pfs := Aceptadas(s);
    assert forall k :: 0 <= k < |pfs| ==> pfs[k] in pfs;
    TimbrarTodasKeepsInvariants(s, pfs, outs, nows);
    forall pf | pf in pfs
      ensures !Stampable(TimbrarTodas(s, pfs, outs, nows), pf)
    {
      var k :| 0 <= k < |pfs| && pfs[k] == pf;
    }
  }

  /** "Reintentar" on row `i`, shown only for a provider error: the provider is
      asked again and the same record is rewritten in place with the new
      answer; identifiers and date stay. */
  function Reintentar(s: Store, i: nat, out: Pac): (r: Option<Store>)
    requires i < |s.timbrados|
    ensures r.Some? <==> s.timbrados[i].estado == ErrorPAC
    ensures r.Some? ==>
              && r.value == s.(timbrados := r.value.timbrados)
              && |r.value.timbrados| == |s.timbrados|
              && (forall j :: 0 <= j < |s.timbrados| && s.timbrados[j].id != s.timbrados[i].id ==>
                    r.value.timbrados[j] == s.timbrados[j])
              && var t := r.value.timbrados[i];
              && t.id == s.timbrados[i].id && t.preFacturaId == s.timbrados[i].preFacturaId
              && t.contratoId == s.timbrados[i].contratoId && t.fecha == s.timbrados[i].fecha
              && (t.estado == TimbradaOK <==> out.Exito?)
              && (out.Exito? ==> t.uuid == "UUID-" + out.stamp && t.error == None)
              && (out.Falla? ==> t.uuid == "" && t.error == Some(ErrorReintento))
              && Coupled(t)
    ensures r.Some? && WellFormed(s) ==> WellFormed(r.value)
  {
    if s.timbrados[i].estado != ErrorPAC then None
    else
      var error := if out.Exito? then None else Some(ErrorReintento);
      var e := Estado(out);
      var u := Uuid(out);
      Some(UpdateTimbrado(s, s.timbrados[i].id, (t: Timbrado) => t.(estado := e, uuid := u, error := error)))
  }

  /** A retry keeps the invariants: with distinct identifiers it touches only
      row `i`, whose pre-invoice does not change. */
  lemma ReintentarKeepsInvariants(s: Store, i: nat, out: Pac)
    requires WellFormed(s) && AllCoupled(s) && OnePerPreFactura(s) && i < |s.timbrados|
    ensures Reintentar(s, i, out).Some? ==>
              var r := Reintentar(s, i, out).value;
              AllCoupled(r) && OnePerPreFactura(r)
  {
    if Reintentar(s, i, out).Some? {
      var r := Reintentar(s, i, out).value;
      forall j | 0 <= j < |s.timbrados| && j != i
        ensures r.timbrados[j] == s.timbrados[j]
      {
        assert TimbradoKey(s.timbrados[j]) != TimbradoKey(s.timbrados[i]);
      }
    }
  }
}
