/** The meter page (src/pages/Medidores.tsx): assigning a meter to a contract
    awaiting activation, and switching meters on and off. */
module Medidores {
  import opened Wrappers
  import opened Entities
  import opened Records
  import opened Data

  predicate IsPendiente(c: Contrato) {
    c.estado == PendienteDeAlta
  }

  /** The contracts the assignment select offers. */
  function Pendientes(s: Store): (r: seq<Contrato>)
    ensures forall c :: c in r <==> c in s.contratos && c.estado == PendienteDeAlta
  {
    Filter(s.contratos, IsPendiente)
  }

  /** The fields of the assignment dialog. */
  datatype Form = Form(contratoId: string, serie: string, cobroDiferido: bool, lecturaInicial: int)

  /** The select holds nothing yet, or the identifier of an offered contract. */
  predicate Selectable(s: Store, form: Form) {
    form.contratoId == "" || exists c :: c in Pendientes(s) && c.id == form.contratoId
  }

  /** The "Asignar medidor" button is enabled only when a contract awaits a meter. */
  predicate CanOpen(s: Store) {
    |Pendientes(s)| > 0
  }

  /** `handleCreate`, offered only when contract and serial are filled in. The
      meter is 'Activo' with the entered baseline and deferred-billing flag, and
      the contract it is assigned to (which awaited activation) becomes
      'Activo' and points at the meter. */
  function Create(s: Store, form: Form): (r: Option<Store>)
    requires Selectable(s, form)
    ensures r.Some? <==> form.contratoId != "" && form.serie != ""
    ensures !CanOpen(s) ==> r.None?
    ensures r.Some? ==> r.value == s.(medidores := r.value.medidores, contratos := r.value.contratos,
                                      counter := s.counter + 1)
    ensures r.Some? ==>
              var n := |s.medidores|;
              var id := NextId(s, "M");
              && |r.value.medidores| == n + 1
              && r.value.medidores[..n] == s.medidores
              && r.value.medidores[n] == Medidor(id, form.contratoId, form.serie, MedidorActivo,
                                                 form.cobroDiferido, form.lecturaInicial)
              && |r.value.contratos| == |s.contratos|
              && (forall i :: 0 <= i < |s.contratos| && s.contratos[i].id == form.contratoId ==>
                    r.value.contratos[i] == s.contratos[i].(estado := Activo, medidorId := Some(id)))
              && (forall i :: 0 <= i < |s.contratos| && s.contratos[i].id != form.contratoId ==>
                    r.value.contratos[i] == s.contratos[i])
              && exists i :: 0 <= i < |s.contratos| && s.contratos[i].id == form.contratoId
                               && s.contratos[i].estado == PendienteDeAlta
    ensures r.Some? && WellFormed(s) ==> WellFormed(r.value) && Fresh(s, NextId(s, "M"))
  {
    if form.contratoId == "" || form.serie == "" then None
    else
      var r := AddMedidor(s, Medidor("", form.contratoId, form.serie, MedidorActivo,
                                     form.cobroDiferido, form.lecturaInicial));
      assert r.medidores[..|s.medidores|] == s.medidores;
      Some(r)
  }

  /** The other meter state. */
  function Flip(e: MedidorEstado): (r: MedidorEstado)
    ensures r != e
  {
    match e
    case MedidorActivo => MedidorInactivo
    case MedidorInactivo => MedidorActivo
  }

  /** The row button of meter `i`: "Desactivar" on an active meter, "Activar" on
      an inactive one. Only the meter's state changes; its contract does not. */
  function Toggle(s: Store, i: nat): (r: Store)
    requires i < |s.medidores|
    ensures r == s.(medidores := r.medidores)
    ensures |r.medidores| == |s.medidores|
    ensures r.medidores[i] == s.medidores[i].(estado := Flip(s.medidores[i].estado))
    ensures forall j :: 0 <= j < |s.medidores| && s.medidores[j].id != s.medidores[i].id ==>
              r.medidores[j] == s.medidores[j]
    ensures WellFormed(s) ==> WellFormed(r)
  {
    var e := Flip(s.medidores[i].estado);
    UpdateMedidor(s, s.medidores[i].id, (m: Medidor) => m.(estado := e))
  }

  /** In a well-formed store, switching a meter twice restores the store. */
  lemma ToggleTwice(s: Store, i: nat)
    requires WellFormed(s) && i < |s.medidores|
    ensures Toggle(Toggle(s, i), i) == s
  {
    var t := Toggle(s, i);
    var u := Toggle(t, i);
    assert t.medidores == s.medidores[i := s.medidores[i].(estado := Flip(s.medidores[i].estado))];
    assert u.medidores == t.medidores[i := t.medidores[i].(estado := Flip(t.medidores[i].estado))];
    assert u.medidores == s.medidores;
  }
}
