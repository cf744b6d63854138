/** The dashboard (src/pages/Dashboard.tsx): status counts over the store and
    the recent-contracts table. */
module Dashboard {
  import opened Wrappers
  import opened Entities
  import opened Records
  import opened Data
  import Factibilidades
  import Lecturas
  import Stamping = Timbrado
  import Contabilidad

  predicate EnCurso(f: Factibilidad) {
    f.estado == PreFactibilidad || f.estado == EnComite
  }

  predicate Decidida(f: Factibilidad) {
    Factibilidades.Terminal(f.estado)
  }

  predicate IsPendienteDeAlta(c: Contrato) {
    c.estado == PendienteDeAlta
  }

  predicate IsPendiente(l: Lectura) {
    l.estado == LecturaPendiente
  }

  predicate IsErrorPac(t: Timbrado) {
    t.estado == ErrorPAC
  }

  /** `factPendientes`: requests not yet decided. */
  function FactPendientes(s: Store): (r: nat)
    ensures r <= |s.factibilidades|
    ensures r == 0 <==> forall i :: 0 <= i < |s.factibilidades| ==> !EnCurso(s.factibilidades[i])
  {
    CountNone(s.factibilidades, EnCurso);
    Count(s.factibilidades, EnCurso)
  }

  /** `contratosPendientes`: contracts awaiting activation. */
  function ContratosPendientes(s: Store): (r: nat)
    ensures r <= |s.contratos|
    ensures r == 0 <==> forall i :: 0 <= i < |s.contratos| ==> s.contratos[i].estado != PendienteDeAlta
  {
    CountNone(s.contratos, IsPendienteDeAlta);
    Count(s.contratos, IsPendienteDeAlta)
  }

  /** `totalContratos`: the active contracts. */
  function TotalContratos(s: Store): (r: nat)
    ensures r <= |s.contratos|
    ensures r == 0 <==> forall i :: 0 <= i < |s.contratos| ==> s.contratos[i].estado != Activo
  {
    CountNone(s.contratos, IsActivo);
    Count(s.contratos, IsActivo)
  }

  /** `lecturasPendientes`: readings still pending. */
  function LecturasPendientes(s: Store): (r: nat)
    ensures r <= |s.lecturas|
    ensures r == 0 <==> forall i :: 0 <= i < |s.lecturas| ==> s.lecturas[i].estado != LecturaPendiente
  {
    CountNone(s.lecturas, IsPendiente);
    Count(s.lecturas, IsPendiente)
  }

  /** `errorTimbrado`: stampings the provider rejected. */
  function ErrorTimbrado(s: Store): (r: nat)
    ensures r <= |s.timbrados|
    ensures r == 0 <==> forall i :: 0 <= i < |s.timbrados| ==> s.timbrados[i].estado != ErrorPAC
  {
    CountNone(s.timbrados, IsErrorPac);
    Count(s.timbrados, IsErrorPac)
  }

  /** Every request is either pending on the dashboard or decided. */
  lemma FactPendientesSplit(s: Store)
    ensures FactPendientes(s) + Count(s.factibilidades, Decidida) == |s.factibilidades|
  {
    CountSplit(s.factibilidades, EnCurso, Decidida);
  }

  /** No contract is both awaiting activation and active. */
  lemma ContratosBound(s: Store)
    ensures ContratosPendientes(s) + TotalContratos(s) <= |s.contratos|
  {
    CountDisjoint(s.contratos, IsPendienteDeAlta, IsActivo);
  }

  /** Capturing a reading never adds a pending one. */
  lemma CapturarKeepsPendientes(s: Store, p: Lecturas.Panel, f: string, m: string)
    ensures Lecturas.Capturar(s, p, f, m).Some? ==>
              LecturasPendientes(Lecturas.Capturar(s, p, f, m).value.0) == LecturasPendientes(s)
  {
    if Lecturas.Capturar(s, p, f, m).Some? {
      var t := Lecturas.Capturar(s, p, f, m).value.0;
      var l := t.lecturas[|s.lecturas|];
      assert t.lecturas == s.lecturas + [l];
      CountAppend(s.lecturas, l, IsPendiente);
    }
  }

  /** With every stamping's uuid, state and error in agreement, each stamping
      is either a provider error on the dashboard or counted as stamped in
      accounting. */
  lemma StampingsSplit(s: Store)
    requires Stamping.AllCoupled(s)
    ensures ErrorTimbrado(s) + Contabilidad.TotalTimbrado(s) == |s.timbrados|
  {
    var ts := s.timbrados;
    assert forall t :: t in ts ==> Stamping.Coupled(t);
    RestrictedSplit(ts, IsErrorPac, Contabilidad.IsTimbrada, (t: Timbrado) => Stamping.Coupled(t));
  }

  /** On records satisfying `inv`, exactly one of `p` and `q` holds. */
  lemma {:induction false} RestrictedSplit<T>(xs: seq<T>, p: T -> bool, q: T -> bool, inv: T -> bool)
    requires forall x :: x in xs ==> inv(x)
    requires forall x :: inv(x) ==> p(x) != q(x)
    ensures Count(xs, p) + Count(xs, q) == |xs|
  {
    if |xs| > 0 {
      var ys := xs[..|xs| - 1];
      assert xs == ys + [xs[|xs| - 1]];
      RestrictedSplit(ys, p, q, inv);
      CountAppend(ys, xs[|xs| - 1], p);
      CountAppend(ys, xs[|xs| - 1], q);
    }
  }

  /** The recent-contracts panel: the first five contracts in store order, or all of them when fewer. */
  function Recientes(s: Store): (r: seq<Contrato>)
    ensures |r| == if |s.contratos| < 5 then |s.contratos| else 5
    ensures forall i :: 0 <= i < |r| ==> r[i] == s.contratos[i]
  {
    if |s.contratos| < 5 then s.contratos else s.contratos[..5]
  }

  /** So once there are five contracts, a new one never shows in the table. */
  lemma RecientesIgnoreNew(s: Store, c: Contrato)
    requires |s.contratos| >= 5
    ensures Recientes(AddContrato(s, c)) == Recientes(s)
  {
    var t := AddContrato(s, c);
    assert t.contratos[..5] == s.contratos[..5];
  }
}
