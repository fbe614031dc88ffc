/**
 * CatalogoRecetasService: the recipe catalog, keyed by title ignoring case.
 * parseYGuardar's loop runs saveIfNotExists on every recipe of a reply, and
 * findAllByIds reads recipes back by id.
 */
module CatalogoRecetasService {
  import opened Wrappers
  import opened Modelos
  import opened Mongo
  import Text

  /** The field the recipe catalog is keyed on. */
  function Titulo(r: Receta): string { r.titulo }

  /** The store and the returned list after saveIfNotExists on each recipe in turn. */
  datatype SavedAll = SavedAll(docs: seq<Doc<Receta>>, nextId: nat, lista: seq<Doc<Receta>>)

  function SaveAllSpec(docs: seq<Doc<Receta>>, nextId: nat, recetas: seq<Doc<Receta>>): SavedAll
    decreases |recetas|
  {
    if |recetas| == 0 then SavedAll(docs, nextId, [])
    else
      var s := SaveAllSpec(docs, nextId, recetas[..|recetas| - 1]);
      var t := InsertIfAbsentSpec(s.docs, s.nextId, Titulo, recetas[|recetas| - 1]);
      SavedAll(t.docs, t.nextId, s.lista + [t.doc])
  }

  /** One more recipe: the loop on the others, then saveIfNotExists on it. */
  lemma SaveAllLast(docs: seq<Doc<Receta>>, nextId: nat, recetas: seq<Doc<Receta>>, n: nat)
    requires n + 1 == |recetas|
    ensures var s := SaveAllSpec(docs, nextId, recetas[..n]);
      var t := InsertIfAbsentSpec(s.docs, s.nextId, Titulo, recetas[n]);
      SaveAllSpec(docs, nextId, recetas) == SavedAll(t.docs, t.nextId, s.lista + [t.doc])
  {
  }

  /** The loop after i + 1 recipes: the loop after i, then saveIfNotExists on recipe i. */
  lemma SaveAllPaso(docs: seq<Doc<Receta>>, nextId: nat, recetas: seq<Doc<Receta>>, i: nat)
    requires i < |recetas|
    ensures var s := SaveAllSpec(docs, nextId, recetas[..i]);
      var t := InsertIfAbsentSpec(s.docs, s.nextId, Titulo, recetas[i]);
      SaveAllSpec(docs, nextId, recetas[..i + 1]) == SavedAll(t.docs, t.nextId, s.lista + [t.doc])
  {
    assert recetas[..i + 1][..i] == recetas[..i] && recetas[..i + 1][i] == recetas[i];
    SaveAllLast(docs, nextId, recetas[..i + 1], i);
  }

  /** Sequence step used by SaveAllFixed: a list is its first n elements followed by its last. */
  lemma LastSplit<T>(l: seq<T>, n: nat)
    requires n + 1 == |l|
    ensures l[..n] + [l[n]] == l
  {
  }

  /** parseYGuardar keeps the store well formed and its titles unique, and only appends to it. */
  lemma {:induction false} SaveAllKeepsStore(docs: seq<Doc<Receta>>, nextId: nat, recetas: seq<Doc<Receta>>)
    requires WellFormed(docs, nextId) && UniqueKeys(docs, Titulo)
    requires forall i :: 0 <= i < |recetas| ==> recetas[i].id.None?
    ensures var s := SaveAllSpec(docs, nextId, recetas);
      WellFormed(s.docs, s.nextId) && UniqueKeys(s.docs, Titulo) && docs <= s.docs && |s.docs| <= |docs| + |recetas|
    decreases |recetas|
  {
    if |recetas| > 0 {
      var init := recetas[..|recetas| - 1];
      var last := recetas[|recetas| - 1];
      SaveAllKeepsStore(docs, nextId, init);
      var s := SaveAllSpec(docs, nextId, init);
      InsertIfAbsentOutcome(s.docs, s.nextId, Titulo, last);
      InsertIfAbsentKeepsUniqueKeys(s.docs, s.nextId, Titulo, last);
    }
  }

  /**
   * parseYGuardar returns one recipe per input recipe, in input order, each a
   * stored recipe whose title matches the input's ignoring case.
   */
  lemma {:induction false} SaveAllLista(docs: seq<Doc<Receta>>, nextId: nat, recetas: seq<Doc<Receta>>)
    requires WellFormed(docs, nextId) && UniqueKeys(docs, Titulo)
    requires forall i :: 0 <= i < |recetas| ==> recetas[i].id.None?
    ensures var s := SaveAllSpec(docs, nextId, recetas);
      && |s.lista| == |recetas|
      && (forall i :: 0 <= i < |s.lista| ==> s.lista[i] in s.docs)
      && (forall i :: 0 <= i < |s.lista| ==> Text.EqualsIgnoreCase(s.lista[i].body.titulo, recetas[i].body.titulo))
    decreases |recetas|
  {
    if |recetas| > 0 {
      var n := |recetas| - 1;
      var init := recetas[..n];
      SaveAllLista(docs, nextId, init);
      SaveAllKeepsStore(docs, nextId, init);
      var s := SaveAllSpec(docs, nextId, init);
      InsertIfAbsentOutcome(s.docs, s.nextId, Titulo, recetas[n]);
      var t := InsertIfAbsentSpec(s.docs, s.nextId, Titulo, recetas[n]);
      assert s.docs <= t.docs;
      assert SaveAllSpec(docs, nextId, recetas) == SavedAll(t.docs, t.nextId, s.lista + [t.doc]) by {
        SaveAllLast(docs, nextId, recetas, n);
      }
      ListaExtendida(s.lista, t.doc, s.docs, t.docs, init, recetas);
    }
  }

  /** The list of the first recipes, followed by the document of the next one. */
  lemma ListaExtendida(l: seq<Doc<Receta>>, d: Doc<Receta>, antes: seq<Doc<Receta>>, despues: seq<Doc<Receta>>,
                       init: seq<Doc<Receta>>, recetas: seq<Doc<Receta>>)
    requires |l| == |init| && |recetas| == |init| + 1 && init == recetas[..|init|]
    requires antes <= despues && d in despues
    requires Text.EqualsIgnoreCase(d.body.titulo, recetas[|init|].body.titulo)
    requires forall i :: 0 <= i < |l| ==> l[i] in antes
    requires forall i :: 0 <= i < |l| ==> Text.EqualsIgnoreCase(l[i].body.titulo, init[i].body.titulo)
    ensures forall i :: 0 <= i < |l + [d]| ==> (l + [d])[i] in despues
    ensures forall i :: 0 <= i < |l + [d]| ==> Text.EqualsIgnoreCase((l + [d])[i].body.titulo, recetas[i].body.titulo)
  {
    forall i | 0 <= i < |l + [d]|
      ensures (l + [d])[i] in despues && Text.EqualsIgnoreCase((l + [d])[i].body.titulo, recetas[i].body.titulo)
    {
      if i < |l| {
        assert (l + [d])[i] == l[i] && recetas[i] == init[i];
        assert l[i] in antes;
      } else {
        assert (l + [d])[i] == d;
      }
    }
  }

  /** Running parseYGuardar's loop a second time on the same recipes adds nothing and returns the same list. */
  lemma {:induction false} SaveAllIdempotent(docs: seq<Doc<Receta>>, nextId: nat, recetas: seq<Doc<Receta>>)
    requires WellFormed(docs, nextId) && UniqueKeys(docs, Titulo)
    requires forall i :: 0 <= i < |recetas| ==> recetas[i].id.None?
    ensures var s := SaveAllSpec(docs, nextId, recetas);
      var t := SaveAllSpec(s.docs, s.nextId, recetas);
      t.docs == s.docs && t.nextId == s.nextId && t.lista == s.lista
  {
    var s := SaveAllSpec(docs, nextId, recetas);
    SaveAllKeepsStore(docs, nextId, recetas);
    SaveAllLista(docs, nextId, recetas);
    SaveAllFixed(s.docs, s.nextId, recetas, s.lista);
  }

  /** On a store that already holds, for every recipe, the listed document of its title, the loop changes nothing. */
  lemma {:induction false} SaveAllFixed(docs: seq<Doc<Receta>>, nextId: nat, recetas: seq<Doc<Receta>>, lista: seq<Doc<Receta>>)
    requires WellFormed(docs, nextId) && UniqueKeys(docs, Titulo)
    requires |lista| == |recetas|
    requires forall i :: 0 <= i < |lista| ==> lista[i] in docs
    requires forall i :: 0 <= i < |lista| ==> Text.EqualsIgnoreCase(lista[i].body.titulo, recetas[i].body.titulo)
    ensures var t := SaveAllSpec(docs, nextId, recetas);
      t.docs == docs && t.nextId == nextId && t.lista == lista
    decreases |recetas|
  {
    if |recetas| > 0 {
      var n := |recetas| - 1;
      SaveAllFixed(docs, nextId, recetas[..n], lista[..n]);
      var k :| 0 <= k < |docs| && docs[k] == lista[n];
      FindUnique(docs, Titulo, Titulo(recetas[n].body), k);
      var ins := InsertIfAbsentSpec(docs, nextId, Titulo, recetas[n]);
      assert ins == Saved(docs, nextId, lista[n]);
      var s := SaveAllSpec(docs, nextId, recetas[..n]);
      assert s == SavedAll(docs, nextId, lista[..n]);
      SaveAllLast(docs, nextId, recetas, n);
      LastSplit(lista, n);
    }
  }

  /** findAllByIds(ids): the stored recipes whose id is listed, in store order. */
  function FindAllByIdsSpec(docs: seq<Doc<Receta>>, ids: seq<nat>): (r: seq<Doc<Receta>>)
    ensures forall d :: d in r <==> d in docs && d.id.Some? && d.id.value in ids
    ensures |r| <= |docs|
  {
    if |docs| == 0 then []
    else
      var rest := FindAllByIdsSpec(docs[..|docs| - 1], ids);
      var last := docs[|docs| - 1];
      assert docs == docs[..|docs| - 1] + [last];
      if last.id.Some? && last.id.value in ids then rest + [last] else rest
  }

  class CatalogoRecetasService {
    const repo: Collection<Receta>

    ghost predicate Valid()
      reads this, repo
    {
      repo.Valid() && UniqueKeys(repo.docs, Titulo)
    }

    constructor (repo: Collection<Receta>)
      ensures this.repo == repo
    {
      this.repo := repo;
    }

    /**
     * saveIfNotExists(receta): the stored recipe of that title, or receta
     * saved. Titles are unique, so the single-result finder never throws.
     */
    method SaveIfNotExists(receta: Doc<Receta>) returns (r: Doc<Receta>)
      requires Valid()
      requires receta.id.Some? ==> IndexOfId(repo.docs, receta.id.value).None?
      modifies repo
      ensures Valid()
      ensures Saved(repo.docs, repo.nextId, r) == InsertIfAbsentSpec(old(repo.docs), old(repo.nextId), Titulo, receta)
      ensures r in repo.docs && r.id.Some?
    {
      InsertIfAbsentKeepsUniqueKeys(repo.docs, repo.nextId, Titulo, receta);
      InsertIfAbsentStored(repo.docs, repo.nextId, Titulo, receta);
      InsertIfAbsentResultUnique(repo.docs, repo.nextId, Titulo, receta);
      var res := repo.InsertIfAbsent(Titulo, receta);
      r := res.value;
    }

    /** The loop of parseYGuardar over the recipes of a parsed reply. */
    method ParseYGuardar(recetas: seq<Doc<Receta>>) returns (lista: seq<Doc<Receta>>)
      requires Valid()
      requires forall i :: 0 <= i < |recetas| ==> recetas[i].id.None?
      modifies repo
      ensures Valid()
      ensures SavedAll(repo.docs, repo.nextId, lista) == SaveAllSpec(old(repo.docs), old(repo.nextId), recetas)
    {
      lista := [];
      ghost var docs0, next0 := repo.docs, repo.nextId;
      var i := 0;
      while i < |recetas|
        invariant 0 <= i <= |recetas|
        invariant Valid()
        invariant SavedAll(repo.docs, repo.nextId, lista) == SaveAllSpec(docs0, next0, recetas[..i])
      {
        SaveAllPaso(docs0, next0, recetas, i);
        var guardada := SaveIfNotExists(recetas[i]);
        lista := lista + [guardada];
        i := i + 1;
      }
      assert recetas[..|recetas|] == recetas;
    }

    /** findAllByIds(ids). */
    function FindAllByIds(ids: seq<nat>): (r: seq<Doc<Receta>>)
      reads this, repo
      ensures forall d :: d in r <==> d in repo.docs && d.id.Some? && d.id.value in ids
    {
      FindAllByIdsSpec(repo.docs, ids)
    }
  }
}
