/**
 * The document stores the services use (Spring Data MongoRepository): a
 * collection of documents with ids, where save is an upsert by id, and the
 * derived query findBy<Field>IgnoreCase. Ids are natural numbers here, the
 * store handing out the next unused one to a document saved without an id.
 */
module Mongo {
  import opened Wrappers
  import Text

  /** A document: its id (null until first saved) and its body. */
  datatype Doc<T> = Doc(id: Option<nat>, body: T)

  /** The state of a collection after a save, and the document save returned. */
  datatype Saved<T> = Saved(docs: seq<Doc<T>>, nextId: nat, doc: Doc<T>)

  /** Every stored document has an id below nextId, and no two share an id. */
  predicate WellFormed<T>(docs: seq<Doc<T>>, nextId: nat) {
    && (forall i :: 0 <= i < |docs| ==> docs[i].id.Some? && docs[i].id.value < nextId)
    && (forall i, j :: 0 <= i < j < |docs| ==> docs[i].id != docs[j].id)
  }

  /** The position of the document with the given id (findById). */
  function IndexOfId<T>(docs: seq<Doc<T>>, id: nat): (r: Option<nat>)
    ensures r.Some? ==> r.value < |docs| && docs[r.value].id == Some(id)
    ensures r.None? ==> forall j :: 0 <= j < |docs| ==> docs[j].id != Some(id)
  {
    if |docs| == 0 then None
    else if docs[|docs| - 1].id == Some(id) then Some(|docs| - 1)
    else IndexOfId(docs[..|docs| - 1], id)
  }

  /**
   * save(d): a document without an id is inserted under a fresh one; one
   * with an id replaces the stored document of that id, or is inserted when
   * there is none.
   */
  function SaveSpec<T>(docs: seq<Doc<T>>, nextId: nat, d: Doc<T>): Saved<T> {
    match d.id
    case None =>
      var stored := Doc(Some(nextId), d.body);
      Saved(docs + [stored], nextId + 1, stored)
    case Some(id) =>
      match IndexOfId(docs, id)
      case Some(i) => Saved(docs[i := d], nextId, d)
      case None => Saved(docs + [d], if id < nextId then nextId else id + 1, d)
  }

  /** What save does to the sequence: one document is replaced by, or appended as, the saved one. */
  lemma SaveShape<T>(docs: seq<Doc<T>>, nextId: nat, d: Doc<T>)
    requires WellFormed(docs, nextId)
    ensures var s := SaveSpec(docs, nextId, d);
      && s.doc.id.Some? && s.doc.body == d.body
      && (d.id.Some? ==> s.doc.id == d.id)
      && (|s.docs| == |docs| || |s.docs| == |docs| + 1)
      && (forall k :: 0 <= k < |docs| ==> s.docs[k] == docs[k] || (s.docs[k] == s.doc && docs[k].id == s.doc.id))
      && (|s.docs| == |docs| + 1 ==>
            s.docs[|docs|] == s.doc && forall k :: 0 <= k < |docs| ==> docs[k].id != s.doc.id)
      && (|s.docs| == |docs| ==> exists k :: 0 <= k < |docs| && s.docs[k] == s.doc)
      && (s.doc.id.value >= nextId ==> s.nextId > s.doc.id.value)
      && s.nextId >= nextId
  {
    var s := SaveSpec(docs, nextId, d);
    if d.id.Some? && IndexOfId(docs, d.id.value).Some? {
      var i := IndexOfId(docs, d.id.value).value;
      forall k | 0 <= k < |docs| ensures s.docs[k] == docs[k] || (s.docs[k] == s.doc && docs[k].id == s.doc.id) {
        if k != i {
          assert s.docs[k] == docs[k];
        }
      }
      assert s.docs[i] == s.doc;
    }
  }

  /** save keeps the store well formed, and the document it returns is then stored. */
  lemma SavePreservesWellFormed<T>(docs: seq<Doc<T>>, nextId: nat, d: Doc<T>)
    requires WellFormed(docs, nextId)
    ensures var s := SaveSpec(docs, nextId, d);
      && WellFormed(s.docs, s.nextId)
      && s.doc.id.Some?
      && s.doc.body == d.body
      && (d.id.Some? ==> s.doc.id == d.id)
      && s.doc in s.docs
  {
    SaveShape(docs, nextId, d);
  }

  /** In a well-formed store an id sits at one position only. */
  lemma UniqueIndex<T>(docs: seq<Doc<T>>, nextId: nat, i: nat, j: nat)
    requires WellFormed(docs, nextId) && i < |docs| && j < |docs| && docs[i].id == docs[j].id
    ensures i == j
  {
  }

  /** save changes only the document it writes: every other id keeps its document. */
  lemma SaveKeepsOthers<T>(docs: seq<Doc<T>>, nextId: nat, d: Doc<T>, id: nat)
    requires WellFormed(docs, nextId)
    ensures var s := SaveSpec(docs, nextId, d);
      Some(id) != s.doc.id ==>
        (IndexOfId(docs, id).Some? <==> IndexOfId(s.docs, id).Some?)
        && (IndexOfId(docs, id).Some? ==> docs[IndexOfId(docs, id).value] == s.docs[IndexOfId(s.docs, id).value])
  {
    var s := SaveSpec(docs, nextId, d);
    SaveShape(docs, nextId, d);
    SavePreservesWellFormed(docs, nextId, d);
    if Some(id) != s.doc.id && IndexOfId(docs, id).Some? {
      var i := IndexOfId(docs, id).value;
      UniqueIndex(s.docs, s.nextId, i, IndexOfId(s.docs, id).value);
    }
  }

  /** Saving a document that save itself returned changes nothing further. */
  lemma SaveIdempotent<T>(docs: seq<Doc<T>>, nextId: nat, d: Doc<T>)
    requires WellFormed(docs, nextId)
    ensures var s := SaveSpec(docs, nextId, d);
      var t := SaveSpec(s.docs, s.nextId, s.doc);
      t.docs == s.docs && t.nextId == s.nextId && t.doc == s.doc
  {
    var s := SaveSpec(docs, nextId, d);
    SavePreservesWellFormed(docs, nextId, d);
    var k :| 0 <= k < |s.docs| && s.docs[k] == s.doc;
    var j := IndexOfId(s.docs, s.doc.id.value).value;
    UniqueIndex(s.docs, s.nextId, j, k);
    assert s.docs[j := s.doc] == s.docs;
  }

  // ---------------------------------------------------------------------
  // findBy<Field>IgnoreCase and insert-if-absent

  /** The position of the first document whose key matches the query ignoring case. */
  function FindIgnoreCase<T>(docs: seq<Doc<T>>, key: T -> string, query: string): (r: Option<nat>)
    ensures r.Some? ==> r.value < |docs| && Text.EqualsIgnoreCase(key(docs[r.value].body), query)
    ensures r.Some? ==> forall j :: 0 <= j < r.value ==> !Text.EqualsIgnoreCase(key(docs[j].body), query)
    ensures r.None? ==> forall j :: 0 <= j < |docs| ==> !Text.EqualsIgnoreCase(key(docs[j].body), query)
  {
    if |docs| == 0 then None
    else if Text.EqualsIgnoreCase(key(docs[0].body), query) then Some(0)
    else match FindIgnoreCase(docs[1..], key, query)
      case None => None
      case Some(i) => Some(i + 1)
  }

  /** No two documents have keys that are equal ignoring case. */
  predicate UniqueKeys<T>(docs: seq<Doc<T>>, key: T -> string) {
    forall i, j :: 0 <= i < j < |docs| ==> !Text.EqualsIgnoreCase(key(docs[i].body), key(docs[j].body))
  }

  /** Two documents have keys that equal the query ignoring case. */
  predicate Ambiguous<T>(docs: seq<Doc<T>>, key: T -> string, query: string) {
    exists i, j :: 0 <= i < j < |docs| && Text.EqualsIgnoreCase(key(docs[i].body), query)
                                      && Text.EqualsIgnoreCase(key(docs[j].body), query)
  }

  /** After the first match, a second one is left exactly when the query is ambiguous. */
  lemma FindSecond<T>(docs: seq<Doc<T>>, key: T -> string, query: string, i: nat)
    requires FindIgnoreCase(docs, key, query) == Some(i)
    ensures FindIgnoreCase(docs[i + 1..], key, query).Some? <==> Ambiguous(docs, key, query)
  {
    var rest := docs[i + 1..];
    match FindIgnoreCase(rest, key, query)
    case Some(k) =>
      assert rest[k] == docs[i + 1 + k];
      assert Text.EqualsIgnoreCase(key(docs[i].body), query) && Text.EqualsIgnoreCase(key(docs[i + 1 + k].body), query);
    case None =>
  }

  /**
   * findBy<Field>IgnoreCase(query) as the single-result query it is: no match,
   * the one match, or IncorrectResultSize when two documents match.
   */
  function FindOneIgnoreCase<T>(docs: seq<Doc<T>>, key: T -> string, query: string): (r: Result<Option<nat>>)
    ensures r.Failure? <==> Ambiguous(docs, key, query)
    ensures r.Failure? ==> r.error == IncorrectResultSize
    ensures r == Success(None) <==> forall j :: 0 <= j < |docs| ==> !Text.EqualsIgnoreCase(key(docs[j].body), query)
    ensures r.Success? && r.value.Some? ==>
      && r.value.value < |docs| && Text.EqualsIgnoreCase(key(docs[r.value.value].body), query)
      && forall j :: 0 <= j < |docs| && j != r.value.value ==> !Text.EqualsIgnoreCase(key(docs[j].body), query)
  {
    match FindIgnoreCase(docs, key, query)
    case None => Success(None)
    case Some(i) =>
      FindSecond(docs, key, query, i);
      if FindIgnoreCase(docs[i + 1..], key, query).Some? then Failure(IncorrectResultSize)
      else
        assert forall j :: i < j < |docs| ==> docs[j] == docs[i + 1..][j - i - 1];
        Success(Some(i))
  }

  /** In a store with unique keys no query is ambiguous, and the single-result query is the first match. */
  lemma UniqueNotAmbiguous<T>(docs: seq<Doc<T>>, key: T -> string, query: string)
    requires UniqueKeys(docs, key)
    ensures !Ambiguous(docs, key, query)
    ensures FindOneIgnoreCase(docs, key, query) == Success(FindIgnoreCase(docs, key, query))
  {
  }

  /**
   * findByKeyIgnoreCase(key(d)).orElseGet(() -> save(d)): the matching
   * document when there is one, the store unchanged; otherwise d is saved.
   */
  function InsertIfAbsentSpec<T>(docs: seq<Doc<T>>, nextId: nat, key: T -> string, d: Doc<T>): Saved<T> {
    match FindIgnoreCase(docs, key, key(d.body))
    case Some(i) => Saved(docs, nextId, docs[i])
    case None => SaveSpec(docs, nextId, d)
  }

  /**
   * Insert-if-absent: when a key matches, the store is unchanged and the first
   * match is returned; otherwise exactly d is saved under a fresh id.
   */
  lemma InsertIfAbsentOutcome<T>(docs: seq<Doc<T>>, nextId: nat, key: T -> string, d: Doc<T>)
    requires WellFormed(docs, nextId) && d.id.None?
    ensures var s := InsertIfAbsentSpec(docs, nextId, key, d);
      && WellFormed(s.docs, s.nextId)
      && Text.EqualsIgnoreCase(key(s.doc.body), key(d.body))
      && s.doc in s.docs
      && (FindIgnoreCase(docs, key, key(d.body)).Some? ==> s.docs == docs && s.nextId == nextId)
      && (FindIgnoreCase(docs, key, key(d.body)).None? ==>
            s.docs == docs + [Doc(Some(nextId), d.body)] && s.doc == Doc(Some(nextId), d.body))
  {
    if FindIgnoreCase(docs, key, key(d.body)).None? {
      SavePreservesWellFormed(docs, nextId, d);
    }
  }

  /**
   * findByKeyIgnoreCase(key(d)).orElseGet(() -> save(d)) with the finder's
   * exception: IncorrectResultSize when two documents match, otherwise
   * insert-if-absent.
   */
  function InsertIfAbsentResult<T>(docs: seq<Doc<T>>, nextId: nat, key: T -> string, d: Doc<T>): Result<Saved<T>> {
    match FindOneIgnoreCase(docs, key, key(d.body))
    case Failure(e) => Failure(e)
    case Success(None) => Success(SaveSpec(docs, nextId, d))
    case Success(Some(i)) => Success(Saved(docs, nextId, docs[i]))
  }

  /**
   * The single-result insert-if-absent fails exactly on an ambiguous key, and
   * then changes nothing; otherwise it does what insert-if-absent does.
   */
  lemma InsertIfAbsentResultOutcome<T>(docs: seq<Doc<T>>, nextId: nat, key: T -> string, d: Doc<T>)
    ensures var r := InsertIfAbsentResult(docs, nextId, key, d);
      && (r.Failure? <==> Ambiguous(docs, key, key(d.body)))
      && (r.Failure? ==> r.error == IncorrectResultSize)
      && (r.Success? ==> r.value == InsertIfAbsentSpec(docs, nextId, key, d))
  {
  }

  /** On a store with unique keys, the single-result insert-if-absent always succeeds. */
  lemma InsertIfAbsentResultUnique<T>(docs: seq<Doc<T>>, nextId: nat, key: T -> string, d: Doc<T>)
    requires UniqueKeys(docs, key)
    ensures InsertIfAbsentResult(docs, nextId, key, d) == Success(InsertIfAbsentSpec(docs, nextId, key, d))
  {
    UniqueNotAmbiguous(docs, key, key(d.body));
  }

  /** Insert-if-absent keeps the keys unique, whatever id the document carries. */
  lemma InsertIfAbsentKeepsUniqueKeys<T>(docs: seq<Doc<T>>, nextId: nat, key: T -> string, d: Doc<T>)
    requires WellFormed(docs, nextId) && UniqueKeys(docs, key)
    requires d.id.Some? ==> IndexOfId(docs, d.id.value).None?
    ensures UniqueKeys(InsertIfAbsentSpec(docs, nextId, key, d).docs, key)
  {
    var s := InsertIfAbsentSpec(docs, nextId, key, d);
    if FindIgnoreCase(docs, key, key(d.body)).None? {
      forall i, j | 0 <= i < j < |s.docs| ensures !Text.EqualsIgnoreCase(key(s.docs[i].body), key(s.docs[j].body)) {
        if j == |docs| {
          assert s.docs[j].body == d.body && s.docs[i] == docs[i];
        } else {
          assert s.docs[i] == docs[i] && s.docs[j] == docs[j];
        }
      }
    }
  }

  /** The document insert-if-absent returns is a stored one, and so it carries an id. */
  lemma InsertIfAbsentStored<T>(docs: seq<Doc<T>>, nextId: nat, key: T -> string, d: Doc<T>)
    requires WellFormed(docs, nextId)
    ensures var s := InsertIfAbsentSpec(docs, nextId, key, d);
      s.doc in s.docs && s.doc.id.Some?
  {
    if FindIgnoreCase(docs, key, key(d.body)).None? && d.id.Some? {
      var id := d.id.value;
      match IndexOfId(docs, id)
      case Some(i) => assert SaveSpec(docs, nextId, d).docs[i] == d;
      case None => assert SaveSpec(docs, nextId, d).docs[|docs|] == d;
    }
  }

  /** A second insert-if-absent with a key equal ignoring case adds nothing and returns the same document. */
  lemma InsertIfAbsentIdempotent<T>(docs: seq<Doc<T>>, nextId: nat, key: T -> string, d: Doc<T>, e: Doc<T>)
    requires WellFormed(docs, nextId)
    requires Text.EqualsIgnoreCase(key(d.body), key(e.body))
    ensures var s := InsertIfAbsentSpec(docs, nextId, key, d);
      var t := InsertIfAbsentSpec(s.docs, s.nextId, key, e);
      t.docs == s.docs && t.nextId == s.nextId
      && (FindIgnoreCase(docs, key, key(d.body)).None? && d.id.None? ==> t.doc == s.doc)
  {
    var s := InsertIfAbsentSpec(docs, nextId, key, d);
    Text.EqualsIgnoreCaseEquivalence(key(d.body), key(e.body), key(d.body));
    match FindIgnoreCase(docs, key, key(d.body))
    case Some(i) =>
      Text.EqualsIgnoreCaseEquivalence(key(docs[i].body), key(d.body), key(e.body));
      assert FindIgnoreCase(docs, key, key(e.body)).Some?;
    case None =>
      SavePreservesWellFormed(docs, nextId, d);
      var k :| 0 <= k < |s.docs| && s.docs[k] == s.doc;
      Text.EqualsIgnoreCaseEquivalence(key(s.docs[k].body), key(d.body), key(e.body));
      assert FindIgnoreCase(s.docs, key, key(e.body)).Some?;
      if d.id.None? {
        assert s.docs == docs + [s.doc];
        FindAfterAppend(docs, key, key(e.body), s.doc);
      }
  }

  /** With unique keys, the document whose key matches is the one the query finds. */
  lemma FindUnique<T>(docs: seq<Doc<T>>, key: T -> string, query: string, k: nat)
    requires UniqueKeys(docs, key) && k < |docs| && Text.EqualsIgnoreCase(key(docs[k].body), query)
    ensures FindIgnoreCase(docs, key, query) == Some(k)
  {
    var f := FindIgnoreCase(docs, key, query);
    var a, b := key(docs[f.value].body), key(docs[k].body);
    Text.EqualsIgnoreCaseEquivalence(a, query, b);
    assert Text.EqualsIgnoreCase(a, b);
  }

  /** A match found after appending to a store that had none is the appended document. */
  lemma FindAfterAppend<T>(docs: seq<Doc<T>>, key: T -> string, query: string, x: Doc<T>)
    requires FindIgnoreCase(docs, key, query).None?
    requires Text.EqualsIgnoreCase(key(x.body), query)
    ensures FindIgnoreCase(docs + [x], key, query) == Some(|docs|)
  {
    assert (docs + [x])[|docs|] == x;
    assert forall j :: 0 <= j < |docs| ==> (docs + [x])[j] == docs[j];
  }

  // ---------------------------------------------------------------------
  // A collection held in place

  class Collection<T> {
    var docs: seq<Doc<T>>
    var nextId: nat

    ghost predicate Valid()
      reads this
    {
      WellFormed(docs, nextId)
    }

    constructor ()
      ensures Valid() && docs == [] && nextId == 0
    {
      docs := [];
      nextId := 0;
    }

    /** save(d). */
    method Save(d: Doc<T>) returns (saved: Doc<T>)
      requires Valid()
      modifies this
      ensures Valid()
      ensures Saved(docs, nextId, saved) == SaveSpec(old(docs), old(nextId), d)
    {
      SavePreservesWellFormed(docs, nextId, d);
      var s := SaveSpec(docs, nextId, d);
      docs, nextId, saved := s.docs, s.nextId, s.doc;
    }

    /** findBy<key>IgnoreCase(query): the one match, none, or IncorrectResultSize on two. */
    function FindByIgnoreCase(key: T -> string, query: string): (r: Result<Option<Doc<T>>>)
      reads this
      ensures r.Failure? <==> Ambiguous(docs, key, query)
      ensures r.Failure? ==> r.error == IncorrectResultSize
      ensures r == Success(None) <==> forall j :: 0 <= j < |docs| ==> !Text.EqualsIgnoreCase(key(docs[j].body), query)
      ensures r.Success? && r.value.Some? ==> r.value.value in docs && Text.EqualsIgnoreCase(key(r.value.value.body), query)
      ensures r.Success? && r.value.Some? ==> FindIgnoreCase(docs, key, query).Some? && r.value.value == docs[FindIgnoreCase(docs, key, query).value]
    {
      match FindOneIgnoreCase(docs, key, query)
      case Failure(e) => Failure(e)
      case Success(None) => Success(None)
      case Success(Some(i)) => Success(Some(docs[i]))
    }

    /** findByKeyIgnoreCase(key(d)).orElseGet(() -> save(d)); on two matches the finder throws and nothing is saved. */
    method InsertIfAbsent(key: T -> string, d: Doc<T>) returns (r: Result<Doc<T>>)
      requires Valid()
      modifies this
      ensures Valid()
      ensures match InsertIfAbsentResult(old(docs), old(nextId), key, d)
        case Success(s) => r == Success(s.doc) && docs == s.docs && nextId == s.nextId
        case Failure(e) => r == Failure(e) && docs == old(docs) && nextId == old(nextId)
    {
      var found := FindOneIgnoreCase(docs, key, key(d.body));
      if found.Failure? {
        return Failure(found.error);
      }
      if found.value.Some? {
        r := Success(docs[found.value.value]);
      } else {
        var saved := Save(d);
        r := Success(saved);
      }
    }
  }
}
