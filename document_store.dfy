/**
 * The keyed-document CRUD of BaseFirebaseRepository, over an in-memory
 * collection: a map from document id to document. Query results come back in
 * an order the store chooses; their contracts say which documents they hold.
 */
module DocumentStore {
  import opened Wrappers

  /** What the store reports when an update names a document that does not exist. */
  const NoDocument := "No document to update"

  /** `ks` lists every key of `keys` exactly once, in some order. */
  ghost predicate Enumerates(ks: seq<string>, keys: set<string>) {
    && (forall i, j :: 0 <= i < j < |ks| ==> ks[i] != ks[j])
    && (forall i :: 0 <= i < |ks| ==> ks[i] in keys)
    && (forall k :: k in keys ==> k in ks)
  }

  /** A listing has one entry per key. */
  lemma {:induction false} EnumeratesSize(ks: seq<string>, keys: set<string>)
    requires Enumerates(ks, keys)
    ensures |ks| == |keys|
  {
    if ks != [] {
      var rest := keys - {ks[0]};
      assert Enumerates(ks[1..], rest) by {
        forall k | k in rest
          ensures k in ks[1..]
        {
          assert k in ks && k != ks[0];
          assert ks == [ks[0]] + ks[1..];
        }
      }
      EnumeratesSize(ks[1..], rest);
    }
  }

  /** The documents stored under `ks`, in that order. */
  function Values<T>(m: map<string, T>, ks: seq<string>): (r: seq<T>)
    requires forall i :: 0 <= i < |ks| ==> ks[i] in m
    ensures |r| == |ks|
    ensures forall i :: 0 <= i < |ks| ==> r[i] == m[ks[i]]
  {
    seq(|ks|, i requires 0 <= i < |ks| => m[ks[i]])
  }

  /** `items` applied one after the other: a later write to the same key wins. */
  function Assignments<T>(items: seq<(string, T)>): map<string, T> {
    if items == [] then map[]
    else Assignments(items[..|items| - 1])[items[|items| - 1].0 := items[|items| - 1].1]
  }

  /** The written keys of a batch of `set` operations are exactly the listed ones. */
  lemma {:induction false} AssignmentsKeys<T>(items: seq<(string, T)>)
    ensures Assignments(items).Keys == set i | 0 <= i < |items| :: items[i].0
  {
    if items != [] {
      var init := items[..|items| - 1];
      AssignmentsKeys(init);
      assert (set i | 0 <= i < |items| :: items[i].0)
          == (set i | 0 <= i < |init| :: init[i].0) + {items[|items| - 1].0};
    }
  }

  /** A batch of updates applied in order with `merge`; it only writes keys that exist. */
  function ApplyAll<T, P>(m: map<string, T>, updates: seq<(string, P)>, merge: (T, P) -> T): (r: map<string, T>)
    decreases |updates|
  {
    if updates == [] then m
    else
      var (id, u) := updates[0];
      var next := if id in m then m[id := merge(m[id], u)] else m;
      ApplyAll(next, updates[1..], merge)
  }

  /** A batch update keeps the set of documents and leaves every unlisted document unchanged. */
  lemma {:induction false} ApplyAllUntouched<T, P>(m: map<string, T>, updates: seq<(string, P)>, merge: (T, P) -> T, k: string)
    requires forall i :: 0 <= i < |updates| ==> updates[i].0 != k
    ensures ApplyAll(m, updates, merge).Keys == m.Keys
    ensures k in m ==> ApplyAll(m, updates, merge)[k] == m[k]
    decreases |updates|
  {
    if updates != [] {
      var (id, u) := updates[0];
      var next := if id in m then m[id := merge(m[id], u)] else m;
      ApplyAllUntouched(next, updates[1..], merge, k);
    }
  }

  /** Lists the keys of `keys` in the order the store hands them out. */
  method Enumerate(keys: set<string>) returns (ks: seq<string>)
    ensures Enumerates(ks, keys)
  {
    ks := [];
    var rest := keys;
    while rest != {}
      invariant rest <= keys
      invariant Enumerates(ks, keys - rest)
      decreases rest
    {
      var k :| k in rest;
      ks := ks + [k];
      rest := rest - {k};
    }
  }

  predicate AllHold<T>(conditions: seq<T -> bool>, doc: T) {
    forall i :: 0 <= i < |conditions| ==> conditions[i](doc)
  }

  /**
   * One collection of documents of type T, updated with patches of type P.
   * `merge` is the store's field merge: the patch's fields replace the stored ones.
   */
  class Collection<T, P> {
    var docs: map<string, T>
    const merge: (T, P) -> T

    constructor (merge: (T, P) -> T)
      ensures docs == map[] && this.merge == merge
    {
      docs := map[];
      this.merge := merge;
    }

    /**
     * Stores `data` under `id`, or under a store-generated id when `id` is absent or empty; any
     * document there is replaced. The store generates ids that no document has yet.
     */
    method Create(data: T, id: Option<string>, generatedId: string) returns (key: string)
      requires id.None? || id.value == "" ==> generatedId !in docs
      modifies this
      ensures key == if id.Some? && id.value != "" then id.value else generatedId
      ensures id.None? || id.value == "" ==> key !in old(docs)
      ensures docs == old(docs)[key := data]
    {
      key := if id.Some? && id.value != "" then id.value else generatedId;
      docs := docs[key := data];
    }

    method GetById(id: string) returns (r: Option<T>)
      ensures r.None? <==> id !in docs
      ensures r.Some? ==> r.value == docs[id]
    {
      if id in docs {
        r := Some(docs[id]);
      } else {
        r := None;
      }
    }

    /** Merges `updates` into the stored document and returns the merged document. */
    method Update(id: string, updates: P) returns (r: Result<T, string>)
      modifies this
      ensures id in old(docs) ==> r == Success(merge(old(docs)[id], updates)) && docs == old(docs)[id := r.value]
      ensures id !in old(docs) ==> r == Failure(NoDocument) && docs == old(docs)
    {
      if id in docs {
        var merged := merge(docs[id], updates);
        docs := docs[id := merged];
        r := Success(merged);
      } else {
        r := Failure(NoDocument);
      }
    }

    /** An update whose new field values the store computes from the stored ones (`FieldValue.increment`). */
    method Transform(id: string, f: T -> T) returns (r: Result<(), string>)
      modifies this
      ensures id in old(docs) ==> r.Success? && docs == old(docs)[id := f(old(docs)[id])]
      ensures id !in old(docs) ==> r == Failure(NoDocument) && docs == old(docs)
    {
      if id in docs {
        docs := docs[id := f(docs[id])];
        r := Success(());
      } else {
        r := Failure(NoDocument);
      }
    }

    method Delete(id: string)
      modifies this
      ensures docs == old(docs) - {id}
    {
      docs := docs - {id};
    }

    method GetAll() returns (r: seq<T>)
      ensures exists ks :: Enumerates(ks, docs.Keys) && r == Values(docs, ks)
    {
      var ks := Enumerate(docs.Keys);
      r := Values(docs, ks);
    }

    method GetWhere(condition: T -> bool) returns (r: seq<T>)
      ensures exists ks :: Enumerates(ks, set k | k in docs && condition(docs[k])) && r == Values(docs, ks)
    {
      var ks := Enumerate(set k | k in docs && condition(docs[k]));
      r := Values(docs, ks);
    }

    /** The documents that satisfy every condition; with no conditions, all documents. */
    method GetWhereMultiple(conditions: seq<T -> bool>) returns (r: seq<T>)
      ensures exists ks :: Enumerates(ks, set k | k in docs && AllHold(conditions, docs[k])) && r == Values(docs, ks)
    {
      var selected: set<string> := docs.Keys;
      var i := 0;
      while i < |conditions|
        invariant 0 <= i <= |conditions|
        invariant selected == set k | k in docs && AllHold(conditions[..i], docs[k])
      {
        selected := set k | k in selected && conditions[i](docs[k]);
        i := i + 1;
        assert forall k :: k in docs ==> (AllHold(conditions[..i], docs[k]) <==>
          AllHold(conditions[..i - 1], docs[k]) && conditions[i - 1](docs[k]));
      }
      assert conditions[..i] == conditions;
      var ks := Enumerate(selected);
      r := Values(docs, ks);
    }

    method Exists(id: string) returns (b: bool)
      ensures b <==> id in docs
    {
      b := id in docs;
    }

    method Count() returns (n: nat)
      ensures n == |docs|
    {
      n := |docs|;
    }

    /** Queues one `set` per item and commits them together. */
    method BatchCreate(items: seq<(string, T)>)
      modifies this
      ensures docs == old(docs) + Assignments(items)
    {
      var pending := docs;
      var i := 0;
      while i < |items|
        invariant 0 <= i <= |items|
        invariant pending == old(docs) + Assignments(items[..i])
      {
        pending := pending[items[i].0 := items[i].1];
        i := i + 1;
        assert items[..i][..i - 1] == items[..i - 1];
      }
      assert items[..i] == items;
      docs := pending;
    }

    /** Queues one `update` per item and commits them together; the commit fails as a whole if a document is missing. */
    method BatchUpdate(updates: seq<(string, P)>) returns (r: Result<(), string>)
      modifies this
      ensures (forall i :: 0 <= i < |updates| ==> updates[i].0 in old(docs)) ==>
                r.Success? && docs == ApplyAll(old(docs), updates, merge)
      ensures !(forall i :: 0 <= i < |updates| ==> updates[i].0 in old(docs)) ==>
                r == Failure(NoDocument) && docs == old(docs)
    {
      var i := 0;
      var pending := docs;
      while i < |updates|
        invariant 0 <= i <= |updates|
        invariant pending.Keys == docs.Keys
        invariant ApplyAll(pending, updates[i..], merge) == ApplyAll(docs, updates, merge)
        invariant forall j :: 0 <= j < i ==> updates[j].0 in docs
      {
        var (id, u) := updates[i];
        if id !in pending {
          r := Failure(NoDocument);
          return;
        }
        assert updates[i..][1..] == updates[i + 1..];
        pending := pending[id := merge(pending[id], u)];
        i := i + 1;
      }
      docs := pending;
      r := Success(());
    }

    /** Queues one `delete` per id and commits them together. */
    method BatchDelete(ids: seq<string>)
      modifies this
      ensures docs == old(docs) - (set i | 0 <= i < |ids| :: ids[i])
    {
      var pending := docs;
      var i := 0;
      while i < |ids|
        invariant 0 <= i <= |ids|
        invariant pending == old(docs) - (set j | 0 <= j < i :: ids[j])
      {
        pending := pending - {ids[i]};
        i := i + 1;
        assert (set j | 0 <= j < i :: ids[j]) == (set j | 0 <= j < i - 1 :: ids[j]) + {ids[i - 1]};
      }
      docs := pending;
    }
  }
}
