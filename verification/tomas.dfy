/** The service-point page (src/pages/Tomas.tsx): service points are created on
    a finished construction and the page changes nothing after that. */
module Tomas {
  import opened Wrappers
  import opened Entities
  import opened Records
  import opened Data

  predicate IsFinalizada(c: Construccion) {
    c.estado == Finalizada
  }

  /** The constructions the parent select offers. */
  function Finalizadas(s: Store): (r: seq<Construccion>)
    ensures forall c :: c in r <==> c in s.construcciones && c.estado == Finalizada
  {
    Filter(s.construcciones, IsFinalizada)
  }

  /** The fields of the creation dialog; the kind select starts empty. */
  datatype Form = Form(construccionId: string, ubicacion: string, tipo: Option<TipoToma>)

  /** The select holds nothing yet, or the identifier of an offered construction. */
  predicate Selectable(s: Store, form: Form) {
    form.construccionId == "" || exists c :: c in Finalizadas(s) && c.id == form.construccionId
  }

  /** The "Nueva toma" button is enabled only when a parent can be chosen. */
  predicate CanOpen(s: Store) {
    |Finalizadas(s)| > 0
  }

  /** `handleCreate`, offered only when construction, location and kind are
      filled in. The new service point is 'Disponible', hangs from a finished
      construction, and every existing service point is left as it was. */
  function Create(s: Store, form: Form): (r: Option<Store>)
    requires Selectable(s, form)
    ensures r.Some? <==> form.construccionId != "" && form.ubicacion != "" && form.tipo.Some?
    ensures !CanOpen(s) ==> r.None?
    ensures r.Some? ==> exists c :: c in s.construcciones && c.estado == Finalizada && c.id == form.construccionId
    ensures r.Some? ==>
              var n := |s.tomas|;
              && r.value == s.(tomas := r.value.tomas, counter := s.counter + 1)
              && |r.value.tomas| == n + 1
              && r.value.tomas[..n] == s.tomas
              && r.value.tomas[n] == Toma(NextId(s, "T"), form.construccionId, form.ubicacion, form.tipo.value, Disponible)
    ensures r.Some? && WellFormed(s) ==> WellFormed(r.value) && Fresh(s, NextId(s, "T"))
  {
    if form.construccionId == "" || form.ubicacion == "" || form.tipo.None? then None
    else
      var r := AddToma(s, Toma("", form.construccionId, form.ubicacion, form.tipo.value, Disponible));
      assert r.tomas[..|s.tomas|] == s.tomas;
      Some(r)
  }
}
