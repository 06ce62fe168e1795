/**
 * The document store the routers work on: a collection maps each document's
 * id to the document, and `find(filter).sort(key, -1)` lists the documents of
 * one owner, most recent key first.
 */
module DocumentStore {
  import opened Schemas

  /** One collection (users, chats or appointments). Handlers update `docs` in place. */
  class Collection<D> {
    var docs: map<Oid, D>

    constructor ()
      ensures docs == map[]
    {
      docs := map[];
    }
  }

  /** Entries ordered by `key`, largest first. */
  predicate SortedDesc<D>(r: seq<(Oid, D)>, key: D -> int)
  {
    forall i, j :: 0 <= i < j < |r| ==> key(r[i].1) >= key(r[j].1)
  }

  /**
   * Where `InsertDesc` puts a new entry: after every entry with a larger key,
   * before the first entry whose key is not larger.
   */
  function InsertPos<D>(r: seq<(Oid, D)>, x: (Oid, D), key: D -> int): (p: nat)
    requires SortedDesc(r, key)
    ensures p <= |r|
    ensures forall i :: 0 <= i < p ==> key(r[i].1) > key(x.1)
    ensures forall i :: p <= i < |r| ==> key(x.1) >= key(r[i].1)
  {
    if r == [] || key(x.1) >= key(r[0].1) then 0 else 1 + InsertPos(r[1..], x, key)
  }

  /** Inserts `x` into an entry list sorted by descending key; the list stays sorted. */
  function InsertDesc<D>(r: seq<(Oid, D)>, x: (Oid, D), key: D -> int): (s: seq<(Oid, D)>)
    requires SortedDesc(r, key)
    ensures SortedDesc(s, key)
  {
    var p := InsertPos(r, x, key);
    var s := r[..p] + [x] + r[p..];
    assert forall i :: 0 <= i < |s| ==> s[i] == if i < p then r[i] else if i == p then x else r[i - 1];
    s
  }

  /** Documents whose owner field is `owner` (the `find({"user_id": owner})` filter). */
  predicate Owned<D>(docs: map<Oid, D>, k: Oid, owner: string, ownerOf: D -> string)
  {
    k in docs && ownerOf(docs[k]) == owner
  }

  /**
   * The answer of `find({"user_id": owner}).sort(key, -1)`: every document of
   * `owner`, each exactly once, with its id, and no other document, ordered by
   * descending `key`. The order among equal keys is left open, as it is in
   * the store.
   */
  ghost predicate OwnedListing<D>(docs: map<Oid, D>, owner: string, ownerOf: D -> string, key: D -> int, r: seq<(Oid, D)>)
  {
    && (forall i :: 0 <= i < |r| ==> Owned(docs, r[i].0, owner, ownerOf) && docs[r[i].0] == r[i].1)
    && (forall k :: Owned(docs, k, owner, ownerOf) ==> exists i :: 0 <= i < |r| && r[i].0 == k)
    && (forall i, j :: 0 <= i < j < |r| ==> r[i].0 != r[j].0)
    && SortedDesc(r, key)
  }

  /**
   * The loop's progress: `r` lists, sorted and each once, exactly the
   * documents of `owner` whose ids are no longer in `rest`.
   */
  ghost predicate Progress<D>(docs: map<Oid, D>, owner: string, ownerOf: D -> string, key: D -> int,
                              r: seq<(Oid, D)>, rest: set<Oid>)
  {
    && rest <= docs.Keys
    && (forall i :: 0 <= i < |r| ==> Owned(docs, r[i].0, owner, ownerOf) && docs[r[i].0] == r[i].1 && r[i].0 !in rest)
    && (forall k :: Owned(docs, k, owner, ownerOf) && k !in rest ==> exists i :: 0 <= i < |r| && r[i].0 == k)
    && (forall i, j :: 0 <= i < j < |r| ==> r[i].0 != r[j].0)
    && SortedDesc(r, key)
  }

  /** Passing over a document of another owner keeps the progress. */
  lemma SkipStep<D>(docs: map<Oid, D>, owner: string, ownerOf: D -> string, key: D -> int,
                    r: seq<(Oid, D)>, rest: set<Oid>, k: Oid)
    requires Progress(docs, owner, ownerOf, key, r, rest) && k in rest && !Owned(docs, k, owner, ownerOf)
    ensures Progress(docs, owner, ownerOf, key, r, rest - {k})
  {
  }

  /** Where each entry of `InsertDesc` comes from: the entries before the position, `x`, then the rest. */
  lemma InsertDescAt<D>(r: seq<(Oid, D)>, x: (Oid, D), key: D -> int)
    requires SortedDesc(r, key)
    ensures var s := InsertDesc(r, x, key); var p := InsertPos(r, x, key);
      && |s| == |r| + 1 && s[p] == x
      && (forall i :: 0 <= i < p ==> s[i] == r[i])
      && (forall i :: p <= i < |r| ==> s[i + 1] == r[i])
  {
  }

  /** Every entry of the list after the insertion is an owned document no longer waiting. */
  lemma InsertKeepsMembers<D>(docs: map<Oid, D>, owner: string, ownerOf: D -> string, key: D -> int,
                              r: seq<(Oid, D)>, rest: set<Oid>, k: Oid)
    requires SortedDesc(r, key) && Owned(docs, k, owner, ownerOf)
    requires forall i :: 0 <= i < |r| ==> Owned(docs, r[i].0, owner, ownerOf) && docs[r[i].0] == r[i].1 && r[i].0 !in rest
    ensures var s := InsertDesc(r, (k, docs[k]), key);
      forall i :: 0 <= i < |s| ==> Owned(docs, s[i].0, owner, ownerOf) && docs[s[i].0] == s[i].1 && s[i].0 !in rest - {k}
  {
    var x := (k, docs[k]);
    var p := InsertPos(r, x, key);
    var s := InsertDesc(r, x, key);
    InsertDescAt(r, x, key);
    forall i | 0 <= i < |s|
      ensures Owned(docs, s[i].0, owner, ownerOf) && docs[s[i].0] == s[i].1 && s[i].0 !in rest - {k}
    {
      if i > p {
        assert s[i] == r[i - 1];
      }
    }
  }

  /** Inserting an id the list does not hold keeps its ids distinct. */
  lemma InsertKeepsDistinct<D>(r: seq<(Oid, D)>, x: (Oid, D), key: D -> int)
    requires SortedDesc(r, key)
    requires forall i :: 0 <= i < |r| ==> r[i].0 != x.0
    requires forall i, j :: 0 <= i < j < |r| ==> r[i].0 != r[j].0
    ensures var s := InsertDesc(r, x, key); forall i, j :: 0 <= i < j < |s| ==> s[i].0 != s[j].0
  {
    var p := InsertPos(r, x, key);
    var s := InsertDesc(r, x, key);
    InsertDescAt(r, x, key);
    forall i, j | 0 <= i < j < |s|
      ensures s[i].0 != s[j].0
    {
      if j > p {
        assert s[j] == r[j - 1];
      }
      if i > p {
        assert s[i] == r[i - 1];
      }
    }
  }

  /** After the insertion the list covers the inserted id as well as every id it covered. */
  lemma InsertKeepsCoverage<D>(docs: map<Oid, D>, owner: string, ownerOf: D -> string, key: D -> int,
                               r: seq<(Oid, D)>, rest: set<Oid>, k: Oid)
    requires SortedDesc(r, key) && k in docs
    requires forall k' :: Owned(docs, k', owner, ownerOf) && k' !in rest ==> exists i :: 0 <= i < |r| && r[i].0 == k'
    ensures var s := InsertDesc(r, (k, docs[k]), key);
      forall k' :: Owned(docs, k', owner, ownerOf) && k' !in rest - {k} ==> exists i :: 0 <= i < |s| && s[i].0 == k'
  {
    var x := (k, docs[k]);
    var p := InsertPos(r, x, key);
    var s := InsertDesc(r, x, key);
    InsertDescAt(r, x, key);
    forall k' | Owned(docs, k', owner, ownerOf) && k' !in rest - {k}
      ensures exists i :: 0 <= i < |s| && s[i].0 == k'
    {
      if k' == k {
        assert s[p].0 == k';
      } else {
        var i :| 0 <= i < |r| && r[i].0 == k';
        assert s[if i < p then i else i + 1].0 == k';
      }
    }
  }

  /** Inserting a document of the owner at its sorted place keeps the progress. */
  lemma InsertStep<D>(docs: map<Oid, D>, owner: string, ownerOf: D -> string, key: D -> int,
                      r: seq<(Oid, D)>, rest: set<Oid>, k: Oid)
    requires Progress(docs, owner, ownerOf, key, r, rest) && k in rest && Owned(docs, k, owner, ownerOf)
    ensures Progress(docs, owner, ownerOf, key, InsertDesc(r, (k, docs[k]), key), rest - {k})
  {
    InsertKeepsMembers(docs, owner, ownerOf, key, r, rest, k);
    InsertKeepsDistinct(r, (k, docs[k]), key);
    InsertKeepsCoverage(docs, owner, ownerOf, key, r, rest, k);
  }

  /** `find({"user_id": owner}).sort(key, -1)`, one document at a time. */
  method FindOwnedSortedDesc<D>(docs: map<Oid, D>, owner: string, ownerOf: D -> string, key: D -> int)
    returns (r: seq<(Oid, D)>)
    ensures forall i :: 0 <= i < |r| ==> Owned(docs, r[i].0, owner, ownerOf) && docs[r[i].0] == r[i].1
    ensures forall k :: Owned(docs, k, owner, ownerOf) ==> exists i :: 0 <= i < |r| && r[i].0 == k
    ensures forall i, j :: 0 <= i < j < |r| ==> r[i].0 != r[j].0
    ensures SortedDesc(r, key)
    ensures OwnedListing(docs, owner, ownerOf, key, r)
  {
    var rest := docs.Keys;
    r := [];
    while rest != {}
      invariant Progress(docs, owner, ownerOf, key, r, rest)
      decreases |rest|
    {
      var k :| k in rest;
      if ownerOf(docs[k]) == owner {
        InsertStep(docs, owner, ownerOf, key, r, rest, k);
        r := InsertDesc(r, (k, docs[k]), key);
      } else {
        SkipStep(docs, owner, ownerOf, key, r, rest, k);
      }
      rest := rest - {k};
    }
  }
}
