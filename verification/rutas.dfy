/** The route page (src/pages/Rutas.tsx): picking active contracts that have no
    route yet and creating a reading route over them. */
module Rutas {
  import opened Wrappers
  import opened Entities
  import opened Records
  import opened Data

  /** An active contract without a route; an empty route identifier counts as none. */
  predicate SinRuta(c: Contrato) {
    c.estado == Activo && !HasRuta(c)
  }

  /** The contracts the checklist offers. */
  function Ofrecidos(s: Store): (r: seq<Contrato>)
    ensures forall c :: c in r <==> c in s.contratos && c.estado == Activo && !HasRuta(c)
  {
    Filter(s.contratos, SinRuta)
  }

  /** Some contract of `cs` carries identifier `id`. */
  predicate Lists(cs: seq<Contrato>, id: string) {
    exists c :: c in cs && c.id == id
  }

  /** `toggleContrato`: removes every occurrence of a listed identifier, or
      appends an absent one. */
  function Toggle(xs: seq<string>, id: string): (r: seq<string>)
    ensures id in r <==> id !in xs
    ensures forall x :: x != id ==> (x in r <==> x in xs)
    ensures NoDup(xs) ==> NoDup(r)
  {
    if id in xs then
      FilterNoDup(xs, (x: string) => x != id);
      Filter(xs, (x: string) => x != id)
    else xs + [id]
  }

  /** Ticking a box twice restores which contracts are selected; when the box
      was clear it restores the list itself. (When it was ticked the identifier
      comes back at the end of the list.) */
  lemma ToggleTwice(xs: seq<string>, id: string)
    ensures forall x :: x in Toggle(Toggle(xs, id), id) <==> x in xs
    ensures id !in xs ==> Toggle(Toggle(xs, id), id) == xs
  {
    if id !in xs {
      FilterAppend(xs, id, (x: string) => x != id);
      FilterAll(xs, (x: string) => x != id);
    }
  }

  /** The fields of the creation dialog. */
  datatype Form = Form(zona: string, sector: string, libreta: string, lecturista: string, contratoIds: seq<string>)

  const EmptyForm := Form("", "", "", "", [])

  datatype Page = Page(open: bool, form: Form)

  /** A tick on the checkbox of contract `id`, which must be on the list. */
  function Marcar(s: Store, p: Page, id: string): (r: Option<Page>)
    ensures r.Some? <==> p.open && Lists(Ofrecidos(s), id)
    ensures r.Some? ==> r.value == p.(form := p.form.(contratoIds := Toggle(p.form.contratoIds, id)))
  {
    if p.open && Lists(Ofrecidos(s), id)
    then Some(p.(form := p.form.(contratoIds := Toggle(p.form.contratoIds, id))))
    else None
  }

  /** What the dialog keeps true: no identifier is selected twice, and each one
      names a contract the checklist offers. */
  predicate SelectionOk(s: Store, f: Form) {
    && NoDup(f.contratoIds)
    && forall k :: 0 <= k < |f.contratoIds| ==> Lists(Ofrecidos(s), f.contratoIds[k])
  }

  lemma MarcarKeepsSelection(s: Store, p: Page, id: string)
    requires SelectionOk(s, p.form)
    ensures Marcar(s, p, id).Some? ==> SelectionOk(s, Marcar(s, p, id).value.form)
  {
    if Marcar(s, p, id).Some? {
      var ys := Marcar(s, p, id).value.form.contratoIds;
      forall k | 0 <= k < |ys|
        ensures Lists(Ofrecidos(s), ys[k])
      {
        if ys[k] != id {
          assert ys[k] in p.form.contratoIds;
          var j :| 0 <= j < |p.form.contratoIds| && p.form.contratoIds[j] == ys[k];
        }
      }
    }
  }

  /** `handleCreate`, offered only when zone and reader are filled in: the route
      is created over the selected contracts, and the dialog closes with the
      selection cleared. */
  function Create(s: Store, p: Page): (r: Option<(Store, Page)>)
    ensures r.Some? <==> p.open && p.form.zona != "" && p.form.lecturista != ""
    ensures r.Some? ==> r.value.1 == Page(false, EmptyForm)
    ensures r.Some? ==> r.value.0 == s.(rutas := r.value.0.rutas, contratos := r.value.0.contratos,
                                        counter := s.counter + 1)
    ensures r.Some? ==>
              var t := r.value.0;
              var n := |s.rutas|;
              && |t.rutas| == n + 1
              && t.rutas[..n] == s.rutas
              && t.rutas[n] == Ruta(NextId(s, "R"), p.form.zona, p.form.sector, p.form.libreta,
                                    p.form.lecturista, p.form.contratoIds)
              && |t.contratos| == |s.contratos|
              && forall i :: 0 <= i < |s.contratos| ==>
                   t.contratos[i] == if s.contratos[i].id in p.form.contratoIds
                                     then s.contratos[i].(rutaId := Some(NextId(s, "R")))
                                     else s.contratos[i]
    ensures r.Some? && WellFormed(s) ==> WellFormed(r.value.0)
  {
    if p.open && p.form.zona != "" && p.form.lecturista != "" then
      var f := p.form;
      var t := AddRuta(s, Ruta("", f.zona, f.sector, f.libreta, f.lecturista, f.contratoIds));
      assert t.rutas[..|s.rutas|] == s.rutas;
      Some((t, Page(false, EmptyForm)))
    else None
  }

  /** Every selected identifier names an existing contract, and with distinct
      contract identifiers every contract so named is one the checklist offered. */
  lemma SelectedUnrouted(cs: seq<Contrato>, offered: seq<Contrato>, ids: seq<string>)
    requires KeysDistinct(cs, ContratoKey)
    requires forall c :: c in offered ==> c in cs && !HasRuta(c)
    requires forall k :: 0 <= k < |ids| ==> Lists(offered, ids[k])
    ensures forall k :: 0 <= k < |ids| ==> IsContratoId(cs, ids[k])
    ensures forall i :: 0 <= i < |cs| && cs[i].id in ids ==> !HasRuta(cs[i])
  {
    forall k | 0 <= k < |ids|
      ensures IsContratoId(cs, ids[k])
    {
      assert Lists(offered, ids[k]);
      var c :| c in offered && c.id == ids[k];
      IndexOf(cs, c);
    }
    forall i | 0 <= i < |cs| && cs[i].id in ids
      ensures !HasRuta(cs[i])
    {
      var k :| 0 <= k < |ids| && ids[k] == cs[i].id;
      assert Lists(offered, ids[k]);
      var c :| c in offered && c.id == ids[k];
      var j :| 0 <= j < |cs| && cs[j] == c;
      assert ContratoKey(cs[i]) == ContratoKey(cs[j]);
    }
  }

  lemma IndexOf(cs: seq<Contrato>, c: Contrato)
    requires c in cs
    ensures IsContratoId(cs, c.id)
  {
    var i :| 0 <= i < |cs| && cs[i] == c;
  }

  /** A route created from a consistent selection keeps the symmetry between
      contracts' `rutaId` and routes' member lists. */
  lemma CreateKeepsSymmetry(s: Store, p: Page)
    requires WellFormed(s) && RouteSymmetric(s) && RouteRefsIssued(s)
    requires SelectionOk(s, p.form)
    ensures Create(s, p).Some? ==>
              RouteSymmetric(Create(s, p).value.0) && RouteRefsIssued(Create(s, p).value.0)
  {
    if Create(s, p).Some? {
      var f := p.form;
      var ruta := Ruta("", f.zona, f.sector, f.libreta, f.lecturista, f.contratoIds);
      assert Create(s, p).value.0 == AddRuta(s, ruta);
      SelectedUnrouted(s.contratos, Ofrecidos(s), f.contratoIds);
      AddRutaKeepsSymmetry(s, ruta);
    }
  }
}
