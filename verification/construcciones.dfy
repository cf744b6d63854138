/** The construction page (src/pages/Construcciones.tsx): works opened on an
    approved feasibility and moved from planning to completion. */
module Construcciones {
  import opened Wrappers
  import opened Entities
  import opened Records
  import opened Data
  import Clock

  predicate IsAprobada(f: Factibilidad) {
    f.estado == Aprobada
  }

  /** The feasibilities the parent select offers. */
  function Aprobadas(s: Store): (r: seq<Factibilidad>)
    ensures forall f :: f in r <==> f in s.factibilidades && f.estado == Aprobada
  {
    Filter(s.factibilidades, IsAprobada)
  }

  /** The fields of the creation dialog. */
  datatype Form = Form(factibilidadId: string, nombre: string, ubicacion: string)

  /** The select holds nothing yet, or the identifier of an offered feasibility. */
  predicate Selectable(s: Store, form: Form) {
    form.factibilidadId == "" || exists f :: f in Aprobadas(s) && f.id == form.factibilidadId
  }

  /** The "Nueva construcción" button is enabled only when a parent can be chosen. */
  predicate CanOpen(s: Store) {
    |Aprobadas(s)| > 0
  }

  /** `handleCreate`, offered only when a feasibility is chosen and the work is
      named. The new work starts in 'Planeación', is dated today, and hangs
      from an approved feasibility. */
  function Create(s: Store, form: Form, now: string): (r: Option<Store>)
    requires Selectable(s, form)
    ensures r.Some? <==> form.factibilidadId != "" && form.nombre != ""
    ensures !CanOpen(s) ==> r.None?
    ensures r.Some? ==> exists f :: f in s.factibilidades && f.estado == Aprobada && f.id == form.factibilidadId
    ensures r.Some? ==>
              var n := |s.construcciones|;
              && r.value == s.(construcciones := r.value.construcciones, counter := s.counter + 1)
              && |r.value.construcciones| == n + 1
              && r.value.construcciones[..n] == s.construcciones
              && r.value.construcciones[n] ==
                   Construccion(NextId(s, "C"), form.factibilidadId, form.nombre, form.ubicacion,
                                Planeacion, Clock.DatePart(now))
    ensures r.Some? && WellFormed(s) ==> WellFormed(r.value) && Fresh(s, NextId(s, "C"))
  {
    if form.factibilidadId == "" || form.nombre == "" then None
    else
      var c := Construccion("", form.factibilidadId, form.nombre, form.ubicacion,
                            Planeacion, Clock.DatePart(now));
      var r := AddConstruccion(s, c);
      assert r.construcciones[..|s.construcciones|] == s.construcciones;
      Some(r)
  }

  /** The row buttons. */
  datatype Accion = Iniciar | Finalizar

  function Rank(e: ConstruccionEstado): nat {
    match e
    case Planeacion => 0
    case EnProceso => 1
    case Finalizada => 2
  }

  /** The state a row button leads to, or None when the row does not show it:
      'Planeación' shows "Iniciar", 'En proceso' shows "Finalizar", and
      'Finalizada' shows nothing. */
  function Siguiente(e: ConstruccionEstado, a: Accion): (r: Option<ConstruccionEstado>)
    ensures r.Some? <==> (e == Planeacion && a == Iniciar) || (e == EnProceso && a == Finalizar)
    ensures r.Some? ==> Rank(r.value) == Rank(e) + 1
    ensures e == Finalizada ==> r.None?
  {
    match (e, a)
    case (Planeacion, Iniciar) => Some(EnProceso)
    case (EnProceso, Finalizar) => Some(Finalizada)
    case _ => None
  }

  /** A click on the button of row `i`: `updateConstruccion` patches every
      work carrying that row's identifier. */
  function Transicionar(s: Store, i: nat, a: Accion): (r: Option<Store>)
    requires i < |s.construcciones|
    ensures r.Some? <==> Siguiente(s.construcciones[i].estado, a).Some?
    ensures r.Some? ==>
              && r.value == s.(construcciones := r.value.construcciones)
              && |r.value.construcciones| == |s.construcciones|
              && r.value.construcciones[i] == s.construcciones[i].(estado := Siguiente(s.construcciones[i].estado, a).value)
              && forall j :: 0 <= j < |s.construcciones| && s.construcciones[j].id != s.construcciones[i].id ==>
                   r.value.construcciones[j] == s.construcciones[j]
    ensures r.Some? && WellFormed(s) ==> WellFormed(r.value)
  {
    match Siguiente(s.construcciones[i].estado, a)
    case None => None
    case Some(e) => Some(UpdateConstruccion(s, s.construcciones[i].id, (x: Construccion) => x.(estado := e)))
  }
}
