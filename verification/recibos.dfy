/** The receipt page (src/pages/Recibos.tsx): a receipt per successful
    stamping, with balances drawn at random, and printing. The random draws and
    the due date are parameters. */
module Recibos {
  import opened Wrappers
  import opened Entities
  import opened Records
  import opened Data

  /** Some receipt was already issued for stamping `id`. */
  predicate Referenced(s: Store, id: string) {
    exists i :: 0 <= i < |s.recibos| && s.recibos[i].timbradoId == id
  }

  predicate Eligible(s: Store, t: Timbrado) {
    t.estado == TimbradaOK && !Referenced(s, t.id)
  }

  /** The stampings offered as "Recibo" buttons. */
  function TimbradosOK(s: Store): (r: seq<Timbrado>)
    ensures forall t :: t in r <==> t in s.timbrados && t.estado == TimbradaOK && !Referenced(s, t.id)
  {
    Filter(s.timbrados, (t: Timbrado) => Eligible(s, t))
  }

  /** Rounding to the nearest integer, halves rounded up. */
  function Round(x: real): (n: int)
    ensures x - 0.5 < n as real <= x + 0.5
  {
    (x + 0.5).Floor
  }

  /** A uniform random draw from [0, 1). */
  predicate Draw(u: real) {
    0.0 <= u < 1.0
  }

  /** `generarRecibo(t)` with draws `u1` and `u2`: a current balance between
      100 and 600, an overdue balance between 0 and 200, no instalments, not
      printed, and due on `vencimiento`. The stamping is referenced afterwards,
      so it is no longer offered. */
  function Generar(s: Store, t: Timbrado, u1: real, u2: real, vencimiento: string): (r: Store)
    requires Draw(u1) && Draw(u2)
    ensures r == s.(recibos := r.recibos, counter := s.counter + 1)
    ensures |r.recibos| == |s.recibos| + 1 && r.recibos[..|s.recibos|] == s.recibos
    ensures var b := r.recibos[|s.recibos|];
            && b.id == NextId(s, "RB")
            && b.timbradoId == t.id && b.contratoId == t.contratoId
            && 100 <= b.saldoVigente <= 600 && 0 <= b.saldoVencido <= 200
            && b.saldoVigente == Round(u1 * 500.0 + 100.0) && b.saldoVencido == Round(u2 * 200.0)
            && b.parcialidades == 0 && !b.impreso && b.fechaVencimiento == vencimiento
    ensures Referenced(r, t.id) && !Eligible(r, t)
    ensures WellFormed(s) ==> WellFormed(r)
  {
    var r := AddRecibo(s, Recibo("", t.id, t.contratoId, Round(u1 * 500.0 + 100.0), Round(u2 * 200.0), 0,
                                 vencimiento, false));
    assert r.recibos[..|s.recibos|] == s.recibos;
    assert r.recibos[|s.recibos|].timbradoId == t.id;
    r
  }

  /** At most one receipt per stamping. */
  predicate OnePerTimbrado(s: Store) {
    forall i, j :: 0 <= i < j < |s.recibos| ==> s.recibos[i].timbradoId != s.recibos[j].timbradoId
  }

  /** Because only unreferenced stampings are offered, generating keeps at most
      one receipt per stamping. */
  lemma GenerarKeepsOnePerTimbrado(s: Store, t: Timbrado, u1: real, u2: real, vencimiento: string)
    requires Draw(u1) && Draw(u2) && OnePerTimbrado(s) && t in TimbradosOK(s)
    ensures OnePerTimbrado(Generar(s, t, u1, u2, vencimiento))
  {
    var r := Generar(s, t, u1, u2, vencimiento);
    var n := |s.recibos|;
    forall i, j | 0 <= i < j < n + 1
      ensures r.recibos[i].timbradoId != r.recibos[j].timbradoId
    {
      assert r.recibos[i] == r.recibos[..n][i];
      if j < n {
        assert r.recibos[j] == r.recibos[..n][j];
      }
    }
  }

  /** The "Imprimir" button of row `i`, shown only while not printed: it marks
      the receipt printed and changes nothing else; a printed receipt stays
      printed. */
  function Imprimir(s: Store, i: nat): (r: Option<Store>)
    requires i < |s.recibos|
    ensures r.Some? <==> !s.recibos[i].impreso
    ensures r.Some? ==>
              && r.value == s.(recibos := r.value.recibos)
              && |r.value.recibos| == |s.recibos|
              && r.value.recibos[i] == s.recibos[i].(impreso := true)
              && (forall j :: 0 <= j < |s.recibos| && s.recibos[j].id != s.recibos[i].id ==>
                    r.value.recibos[j] == s.recibos[j])
              && (forall j :: 0 <= j < |s.recibos| ==>
                    r.value.recibos[j] == s.recibos[j].(impreso := r.value.recibos[j].impreso))
              && (forall j :: 0 <= j < |s.recibos| && s.recibos[j].impreso ==> r.value.recibos[j].impreso)
    ensures r.Some? && WellFormed(s) ==> WellFormed(r.value)
  {
    if s.recibos[i].impreso then None
    else Some(UpdateRecibo(s, s.recibos[i].id, (b: Recibo) => b.(impreso := true)))
  }
}
