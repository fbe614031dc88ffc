/**
 * CatalogoAlimentoService: the food catalog, keyed by name ignoring case.
 * Entries are inserted only when no entry of that name exists; actualizar
 * saves without looking at names.
 */
module CatalogoAlimentoService {
  import opened Wrappers
  import opened Modelos
  import opened Mongo
  import opened CatalogoAlimento
  import Text

  /**
   * guardarSiNoExiste(a) on a store state: the finder's exception when two
   * entries have that name; the entry of that name if there is one; otherwise
   * from(a) saved under a fresh id, or from's failure.
   */
  function GuardarSiNoExisteSpec(docs: seq<Doc<CatalogoAlimento>>, nextId: nat, a: Alimento)
    : Result<Saved<CatalogoAlimento>>
  {
    match FindOneIgnoreCase(docs, Nombre, a.nombre)
    case Failure(e) => Failure(e)
    case Success(Some(i)) => Success(Saved(docs, nextId, docs[i]))
    case Success(None) =>
      match From(a)
      case Failure(e) => Failure(e)
      case Success(c) => Success(SaveSpec(docs, nextId, Doc(None, c)))
  }

  /**
   * The four outcomes of guardarSiNoExiste: a name two entries share makes the
   * finder throw and stores nothing; an existing name returns the one entry of
   * that name and changes nothing (from is never called, so even a zero-gram
   * sample succeeds); a new name stores from(a) under a fresh id; a new name
   * with zero grams fails and stores nothing.
   */
  lemma GuardarSiNoExisteOutcome(docs: seq<Doc<CatalogoAlimento>>, nextId: nat, a: Alimento)
    requires WellFormed(docs, nextId)
    ensures var r := GuardarSiNoExisteSpec(docs, nextId, a);
      && (Ambiguous(docs, Nombre, a.nombre) ==> r == Failure(IncorrectResultSize))
      && (FindIgnoreCase(docs, Nombre, a.nombre).Some? && !Ambiguous(docs, Nombre, a.nombre) ==>
            r == Success(Saved(docs, nextId, docs[FindIgnoreCase(docs, Nombre, a.nombre).value])))
      && (FindIgnoreCase(docs, Nombre, a.nombre).None? && a.gramos != 0 ==>
            r.Success? && r.value.docs == docs + [r.value.doc] && r.value.doc == Doc(Some(nextId), From(a).value)
            && WellFormed(r.value.docs, r.value.nextId))
      && (FindIgnoreCase(docs, Nombre, a.nombre).None? && a.gramos == 0 ==> r == Failure(NonFiniteNumber))
      && (r.Success? ==> Text.EqualsIgnoreCase(r.value.doc.body.nombre, a.nombre))
  {
    if FindIgnoreCase(docs, Nombre, a.nombre).None? && a.gramos != 0 {
      SavePreservesWellFormed(docs, nextId, Doc(None, From(a).value));
    }
  }

  /** guardarSiNoExiste is the single-result insert-if-absent of from(a) whenever from succeeds. */
  lemma GuardarSiNoExisteIsInsertIfAbsent(docs: seq<Doc<CatalogoAlimento>>, nextId: nat, a: Alimento)
    requires a.gramos != 0
    ensures GuardarSiNoExisteSpec(docs, nextId, a) == InsertIfAbsentResult(docs, nextId, Nombre, Doc(None, From(a).value))
  {
  }

  /** A second guardarSiNoExiste with the same name, in any case, leaves the store as the first left it. */
  lemma GuardarSiNoExisteIdempotent(docs: seq<Doc<CatalogoAlimento>>, nextId: nat, a: Alimento, b: Alimento)
    requires WellFormed(docs, nextId)
    requires Text.EqualsIgnoreCase(a.nombre, b.nombre)
    requires GuardarSiNoExisteSpec(docs, nextId, a).Success?
    ensures var s := GuardarSiNoExisteSpec(docs, nextId, a).value;
      var t := GuardarSiNoExisteSpec(s.docs, s.nextId, b);
      t.Success? && t.value.docs == s.docs && t.value.nextId == s.nextId
  {
    var s := GuardarSiNoExisteSpec(docs, nextId, a).value;
    GuardarSiNoExisteOutcome(docs, nextId, a);
    var k :| 0 <= k < |s.docs| && s.docs[k] == s.doc;
    Text.EqualsIgnoreCaseEquivalence(s.doc.body.nombre, a.nombre, b.nombre);
    assert Text.EqualsIgnoreCase(Nombre(s.docs[k].body), b.nombre);
  }

  /** guardarSiNoExiste never creates a second entry whose name matches an existing one. */
  lemma GuardarSiNoExisteKeepsUniqueNames(docs: seq<Doc<CatalogoAlimento>>, nextId: nat, a: Alimento)
    requires WellFormed(docs, nextId) && UniqueKeys(docs, Nombre)
    requires GuardarSiNoExisteSpec(docs, nextId, a).Success?
    ensures UniqueKeys(GuardarSiNoExisteSpec(docs, nextId, a).value.docs, Nombre)
  {
    if FindIgnoreCase(docs, Nombre, a.nombre).None? {
      InsertIfAbsentKeepsUniqueKeys(docs, nextId, Nombre, Doc(None, From(a).value));
    }
  }

  /** actualizar saves with no name check, so it can create two entries of the same name. */
  lemma ActualizarIgnoresNames()
    ensures var arroz := Doc(Some(0), CatalogoAlimento("arroz", 130.0, 2.7, 28.0, 0.3));
      var docs := [arroz];
      WellFormed(docs, 1) && UniqueKeys(docs, Nombre)
      && !UniqueKeys(SaveSpec(docs, 1, Doc(None, CatalogoAlimento("ARROZ", 0.0, 0.0, 0.0, 0.0))).docs, Nombre)
  {
    var arroz := Doc(Some(0), CatalogoAlimento("arroz", 130.0, 2.7, 28.0, 0.3));
    var s := SaveSpec([arroz], 1, Doc(None, CatalogoAlimento("ARROZ", 0.0, 0.0, 0.0, 0.0)));
    assert Text.Lower("arroz") == "arroz" == Text.Lower("ARROZ");
    assert s.docs[0] == arroz && s.docs[1].body.nombre == "ARROZ";
    assert Text.EqualsIgnoreCase(Nombre(s.docs[0].body), Nombre(s.docs[1].body));
  }

  class CatalogoAlimentoService {
    const repository: Collection<CatalogoAlimento>

    ghost predicate Valid()
      reads this, repository
    {
      repository.Valid()
    }

    constructor (repository: Collection<CatalogoAlimento>)
      ensures this.repository == repository
    {
      this.repository := repository;
    }

    /**
     * obtenerPorNombre(nombre): the entry whose name equals nombre ignoring
     * case, none, or IncorrectResultSize when two entries have that name.
     */
    function ObtenerPorNombre(nombre: string): (r: Result<Option<Doc<CatalogoAlimento>>>)
      reads this, repository
      ensures r.Failure? <==> Ambiguous(repository.docs, Nombre, nombre)
      ensures r.Failure? ==> r.error == IncorrectResultSize
      ensures r == Success(None) <==> forall j :: 0 <= j < |repository.docs| ==> !Text.EqualsIgnoreCase(repository.docs[j].body.nombre, nombre)
      ensures r.Success? && r.value.Some? ==> r.value.value in repository.docs && Text.EqualsIgnoreCase(r.value.value.body.nombre, nombre)
    {
      repository.FindByIgnoreCase(Nombre, nombre)
    }

    /** guardarSiNoExiste(a). */
    method GuardarSiNoExiste(a: Alimento) returns (r: Result<Doc<CatalogoAlimento>>)
      requires Valid()
      modifies repository
      ensures Valid()
      ensures match GuardarSiNoExisteSpec(old(repository.docs), old(repository.nextId), a)
        case Success(s) => r == Success(s.doc) && repository.docs == s.docs && repository.nextId == s.nextId
        case Failure(e) => r == Failure(e) && repository.docs == old(repository.docs) && repository.nextId == old(repository.nextId)
    {
      var found := repository.FindByIgnoreCase(Nombre, a.nombre);
      if found.Failure? {
        return Failure(found.error);
      }
      if found.value.Some? {
        return Success(found.value.value);
      }
      var nuevo := From(a);
      if nuevo.Failure? {
        return Failure(nuevo.error);
      }
      var saved := repository.Save(Doc(None, nuevo.value));
      r := Success(saved);
    }

    /** guardarSiNoExisteCatalogo(ca): ca stored exactly as given when its name is new; the finder throws on a shared name. */
    method GuardarSiNoExisteCatalogo(ca: Doc<CatalogoAlimento>) returns (r: Result<Doc<CatalogoAlimento>>)
      requires Valid()
      modifies repository
      ensures Valid()
      ensures match InsertIfAbsentResult(old(repository.docs), old(repository.nextId), Nombre, ca)
        case Success(s) => r == Success(s.doc) && repository.docs == s.docs && repository.nextId == s.nextId
        case Failure(e) => r == Failure(e) && repository.docs == old(repository.docs) && repository.nextId == old(repository.nextId)
    {
      r := repository.InsertIfAbsent(Nombre, ca);
    }

    /** listarTodos(): every entry, each with its own id. */
    function ListarTodos(): (r: seq<Doc<CatalogoAlimento>>)
      reads this, repository
      ensures Valid() ==> forall i, j :: 0 <= i < j < |r| ==> r[i].id.Some? && r[i].id != r[j].id
    {
      repository.docs
    }

    /** actualizar(ca): a plain save, by id. */
    method Actualizar(ca: Doc<CatalogoAlimento>) returns (r: Doc<CatalogoAlimento>)
      requires Valid()
      modifies repository
      ensures Valid()
      ensures Saved(repository.docs, repository.nextId, r) == SaveSpec(old(repository.docs), old(repository.nextId), ca)
    {
      r := repository.Save(ca);
    }
  }
}
