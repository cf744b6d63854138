/** The consumption page (src/pages/Consumos.tsx): estimated consumptions for
    active contracts, and confirming consumptions for billing. */
module Consumos {
  import opened Wrappers
  import opened Entities
  import opened Records
  import opened Data
  import Clock

  /** The kinds the estimate select offers: everything but a real reading. */
  predicate Estimable(t: ConsumoTipo) {
    t != ConsumoReal
  }

  /** The estimate panel: the contract select, the kind select (which starts on
      'Promedio histórico'), and the volume box (None while empty). */
  datatype Form = Form(contratoId: string, tipo: ConsumoTipo, m3: Option<real>)

  const FormInicial := Form("", PromedioHistorico, None)

  /** The panel keeps a kind the select offers, and a contract that is empty or
      an offered one. */
  predicate FormOk(s: Store, f: Form) {
    && Estimable(f.tipo)
    && (f.contratoId == "" || exists c :: c in Activos(s) && c.id == f.contratoId)
  }

  lemma FormInicialOk(s: Store)
    ensures FormOk(s, FormInicial)
  {
  }

  /** The kind select. */
  function ElegirTipo(f: Form, t: ConsumoTipo): (r: Option<Form>)
    ensures r.Some? <==> t != ConsumoReal
    ensures r.Some? ==> r.value == f.(tipo := t)
  {
    if Estimable(t) then Some(f.(tipo := t)) else None
  }

  /** `handleEstimado`, enabled once a contract is chosen and a volume typed:
      an unconfirmed consumption with no reading behind it, of the chosen kind
      and volume, for the current month. Afterwards the contract and the
      volume are cleared and the kind stays. */
  function Estimar(s: Store, f: Form, now: string): (r: Option<(Store, Form)>)
    requires FormOk(s, f)
    ensures r.Some? <==> f.contratoId != "" && f.m3.Some?
    ensures r.Some? ==>
              var t := r.value.0;
              var n := |s.consumos|;
              && t == s.(consumos := t.consumos, counter := s.counter + 1)
              && |t.consumos| == n + 1
              && t.consumos[..n] == s.consumos
              && t.consumos[n] == Consumo(NextId(s, "CO"), f.contratoId, "", f.tipo, f.m3.value,
                                          Clock.MonthPart(now), false)
              && t.consumos[n].tipo != ConsumoReal
              && exists c :: c in s.contratos && c.estado == Activo && c.id == f.contratoId
    ensures r.Some? ==> r.value.1 == Form("", f.tipo, None) && FormOk(r.value.0, r.value.1)
    ensures r.Some? && WellFormed(s) ==> WellFormed(r.value.0)
  {
    if f.contratoId != "" && f.m3.Some? then
      var t := AddConsumo(s, Consumo("", f.contratoId, "", f.tipo, f.m3.value, Clock.MonthPart(now), false));
      assert t.consumos[..|s.consumos|] == s.consumos;
      Some((t, Form("", f.tipo, None)))
    else None
  }

  /** The "Confirmar" button of row `i`, shown only while the consumption is
      unconfirmed. It sets the flag and nothing else, and never clears one. */
  function Confirmar(s: Store, i: nat): (r: Option<Store>)
    requires i < |s.consumos|
    ensures r.Some? <==> !s.consumos[i].confirmado
    ensures r.Some? ==>
              && r.value == s.(consumos := r.value.consumos)
              && |r.value.consumos| == |s.consumos|
              && r.value.consumos[i] == s.consumos[i].(confirmado := true)
              && (forall j :: 0 <= j < |s.consumos| && s.consumos[j].id != s.consumos[i].id ==>
                    r.value.consumos[j] == s.consumos[j])
              && (forall j :: 0 <= j < |s.consumos| && s.consumos[j].confirmado ==> r.value.consumos[j].confirmado)
    ensures r.Some? && WellFormed(s) ==> WellFormed(r.value)
  {
    if s.consumos[i].confirmado then None
    else Some(UpdateConsumo(s, s.consumos[i].id, (c: Consumo) => c.(confirmado := true)))
  }
}
