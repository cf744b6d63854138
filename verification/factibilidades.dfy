/** The feasibility page (src/pages/Factibilidades.tsx): creating a
    pre-feasibility request and moving it through the committee. */
module Factibilidades {
  import opened Wrappers
  import opened Entities
  import opened Records
  import opened Data
  import Clock

  /** The fields of the creation dialog. */
  datatype Form = Form(predio: string, solicitante: string, direccion: string, notas: string)

  /** `handleCreate`, offered only when the lot and the applicant are filled in.
      The new request starts in 'Pre-factibilidad' and is dated today. */
  function Create(s: Store, form: Form, now: string): (r: Option<Store>)
    ensures r.Some? <==> form.predio != "" && form.solicitante != ""
    ensures r.Some? ==>
              var n := |s.factibilidades|;
              && r.value == s.(factibilidades := r.value.factibilidades, counter := s.counter + 1)
              && |r.value.factibilidades| == n + 1
              && r.value.factibilidades[..n] == s.factibilidades
              && r.value.factibilidades[n].id == NextId(s, "F")
              && r.value.factibilidades[n].estado == PreFactibilidad
              && r.value.factibilidades[n].fecha == Clock.DatePart(now)
              && r.value.factibilidades[n].predio == form.predio
              && r.value.factibilidades[n].solicitante == form.solicitante
              && r.value.factibilidades[n].direccion == form.direccion
              && r.value.factibilidades[n].notas == form.notas
    ensures r.Some? && WellFormed(s) ==> WellFormed(r.value) && Fresh(s, NextId(s, "F"))
  {
    if form.predio == "" || form.solicitante == "" then None
    else
      var f := Factibilidad("", form.predio, form.solicitante, form.direccion,
                            PreFactibilidad, Clock.DatePart(now), form.notas);
      var r := AddFactibilidad(s, f);
      assert r.factibilidades[..|s.factibilidades|] == s.factibilidades;
      Some(r)
  }

  /** The buttons of the detail dialog. */
  datatype Accion = EnviarAComite | Aprobar | Rechazar

  /** How far along the committee process a state is. */
  function Rank(e: FactibilidadEstado): nat {
    match e
    case PreFactibilidad => 0
    case EnComite => 1
    case Aprobada => 2
    case Rechazada => 2
  }

  predicate Terminal(e: FactibilidadEstado) {
    e == Aprobada || e == Rechazada
  }

  /** The state a button leads to, or None when the dialog does not show it:
      'Pre-factibilidad' shows only "Enviar a comité", 'En comité' shows only
      "Aprobar" and "Rechazar", the decided states show nothing. */
  function Siguiente(e: FactibilidadEstado, a: Accion): (r: Option<FactibilidadEstado>)
    ensures r.Some? <==> (e == PreFactibilidad && a == EnviarAComite) || (e == EnComite && a != EnviarAComite)
    ensures r.Some? && e == PreFactibilidad ==> r.value == EnComite
    ensures r.Some? && e == EnComite ==> Terminal(r.value)
    ensures Terminal(e) ==> r.None?
    ensures r.Some? ==> Rank(r.value) == Rank(e) + 1
  {
    match (e, a)
    case (PreFactibilidad, EnviarAComite) => Some(EnComite)
    case (EnComite, Aprobar) => Some(Aprobada)
    case (EnComite, Rechazar) => Some(Rechazada)
    case _ => None
  }

  /** A sequence of clicks; a button that is not shown has no effect. */
  function Run(e: FactibilidadEstado, acts: seq<Accion>): FactibilidadEstado
    decreases |acts|
  {
    if |acts| == 0 then e
    else Run(Siguiente(e, acts[0]).GetOr(e), acts[1..])
  }

  /** No sequence of clicks moves a request backwards, and a decided request
      stays decided as it is. */
  lemma {:induction false} RunForward(e: FactibilidadEstado, acts: seq<Accion>)
    ensures Rank(Run(e, acts)) >= Rank(e)
    ensures Terminal(e) ==> Run(e, acts) == e
    decreases |acts|
  {
    if |acts| > 0 {
      RunForward(Siguiente(e, acts[0]).GetOr(e), acts[1..]);
    }
  }

  /** Once a prefix of the clicks has decided a request, the remaining clicks
      change nothing. */
  lemma DecidedStays(e: FactibilidadEstado, acts: seq<Accion>, k: nat)
    requires k <= |acts|
    ensures Terminal(Run(e, acts[..k])) ==> Run(e, acts) == Run(e, acts[..k])
  {
    assert acts == acts[..k] + acts[k..];
    RunAppend(e, acts[..k], acts[k..]);
    RunForward(Run(e, acts[..k]), acts[k..]);
  }

  lemma {:induction false} RunAppend(e: FactibilidadEstado, xs: seq<Accion>, ys: seq<Accion>)
    ensures Run(e, xs + ys) == Run(Run(e, xs), ys)
    decreases |xs|
  {
    if |xs| > 0 {
      assert (xs + ys)[1..] == xs[1..] + ys;
      RunAppend(Siguiente(e, xs[0]).GetOr(e), xs[1..], ys);
    } else {
      assert xs + ys == ys;
    }
  }

  /** A click in the detail dialog of request `id`: the dialog shows the first
      request with that identifier, and `updateFactibilidad` patches its state.
      None when there is no such request or the button is not shown. */
  function Transicionar(s: Store, id: string, a: Accion): (r: Option<Store>)
    ensures r.Some? ==> r.value == s.(factibilidades := r.value.factibilidades)
    ensures r.Some? ==> |r.value.factibilidades| == |s.factibilidades|
    ensures r.Some? ==> forall i :: 0 <= i < |s.factibilidades| && s.factibilidades[i].id != id ==>
                          r.value.factibilidades[i] == s.factibilidades[i]
    ensures WellFormed(s) ==>
              forall i :: 0 <= i < |s.factibilidades| && s.factibilidades[i].id == id ==>
                var f := s.factibilidades[i];
                && (r.Some? <==> Siguiente(f.estado, a).Some?)
                && (r.Some? ==> r.value.factibilidades[i] == f.(estado := Siguiente(f.estado, a).value))
    ensures NotKeyOf(s.factibilidades, FactibilidadKey, id) ==> r.None?
    ensures r.Some? && WellFormed(s) ==> WellFormed(r.value)
  {
    match Find(s.factibilidades, (f: Factibilidad) => f.id == id)
    case None => None
    case Some(f) =>
      match Siguiente(f.estado, a)
      case None => None
      case Some(e) => Some(UpdateFactibilidad(s, id, (x: Factibilidad) => x.(estado := e)))
  }
}
