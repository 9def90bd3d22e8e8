/** An append-only collection of documents, each stamped by the store with a
    logical creation time, and its newest-first listing. Comments and chat
    history are both kept this way; `find().sort({ createdAt: -1 })` becomes
    the reverse of insertion order. */
module Feed {
  import opened Http

  /** One stored document with the creation time the store gave it. */
  datatype Entry<+T> = Entry(doc: T, createdAt: nat)

  /** The store's invariant: entries are kept in insertion order and the
      entry at position i was created at logical time i. */
  predicate Stamped<T>(f: seq<Entry<T>>) {
    forall i :: 0 <= i < |f| ==> f[i].createdAt == i
  }

  /** Strictly newer entries come first. */
  predicate SortedNewestFirst<T>(s: seq<Entry<T>>) {
    forall i, j :: 0 <= i < j < |s| ==> s[i].createdAt > s[j].createdAt
  }

  /** `s` is what sorting the collection `f` by `createdAt`, descending, yields. */
  predicate IsNewestFirstOf<T(==)>(s: seq<Entry<T>>, f: seq<Entry<T>>) {
    multiset(s) == multiset(f) && SortedNewestFirst(s)
  }

  /** Saving a new document: it is appended with the next logical time. */
  function Insert<T>(f: seq<Entry<T>>, doc: T): (g: seq<Entry<T>>)
    ensures |g| == |f| + 1
    ensures g[..|f|] == f
    ensures g[|f|].doc == doc
    ensures Stamped(f) ==> Stamped(g)
  {
    f + [Entry(doc, |f|)]
  }

  /** The listing: every entry, latest insertion first. */
  function NewestFirst<T>(f: seq<Entry<T>>): (r: seq<Entry<T>>)
    ensures |r| == |f|
    ensures forall i :: 0 <= i < |f| ==> r[i] == f[|f| - 1 - i]
  {
    if |f| == 0 then [] else [f[|f| - 1]] + NewestFirst(f[..|f| - 1])
  }

  /** A listing route: every entry, newest first, or 500 when the store read fails. */
  function List<T>(f: seq<Entry<T>>, read: ReadOutcome): (r: Reply<seq<Entry<T>>>)
    ensures r.Success? <==> read == ReadOk
    ensures read == ReadFail ==> r == Failure(SERVER_ERROR, StorageError)
    ensures r.Success? ==> r.status == OK && |r.body| == |f|
    ensures r.Success? && |f| > 0 ==> r.body[0] == f[|f| - 1]
    ensures r.Success? && Stamped(f) ==> IsNewestFirstOf(r.body, f)
  {
    match read
    case ReadFail => Failure(SERVER_ERROR, StorageError)
    case ReadOk =>
      NewestFirstIsSorted(f);
      Success(OK, NewestFirst(f))
  }

  /** Right after an insert, the new entry heads the listing and the earlier
      listing follows it unchanged. */
  lemma InsertedListedFirst<T>(f: seq<Entry<T>>, doc: T)
    ensures List(Insert(f, doc), ReadOk) == Success(OK, [Entry(doc, |f|)] + List(f, ReadOk).body)
  {
  }

  /** The listing holds exactly the stored entries. */
  lemma {:induction false} NewestFirstSameEntries<T>(f: seq<Entry<T>>)
    ensures multiset(NewestFirst(f)) == multiset(f)
  {
    if |f| > 0 {
      var init := f[..|f| - 1];
      NewestFirstSameEntries(init);
      assert f == init + [f[|f| - 1]];
      assert NewestFirst(f) == [f[|f| - 1]] + NewestFirst(init);
    }
  }

  /** On a well-stamped store, the listing is the sort by `createdAt`, descending. */
  lemma NewestFirstIsSorted<T>(f: seq<Entry<T>>)
    ensures Stamped(f) ==> IsNewestFirstOf(NewestFirst(f), f)
  {
    NewestFirstSameEntries(f);
  }

  /** Any strictly descending run of stamps loses at least one per step. */
  lemma {:induction false} DescendingGap<T>(s: seq<Entry<T>>, i: nat, j: nat)
    requires SortedNewestFirst(s)
    requires i <= j < |s|
    ensures s[i].createdAt >= s[j].createdAt + (j - i)
    decreases j - i
  {
    if i < j {
      DescendingGap(s, i + 1, j);
    }
  }

  /** The sort by `createdAt` descending has one result on a well-stamped
      store, and it is the listing: the reverse of insertion order. */
  lemma NewestFirstIsTheOnlySort<T>(f: seq<Entry<T>>, s: seq<Entry<T>>)
    requires Stamped(f)
    requires IsNewestFirstOf(s, f)
    ensures s == NewestFirst(f)
  {
    var n := |f|;
    assert |s| == n by {
      assert |multiset(s)| == |multiset(f)|;
    }
    forall i | 0 <= i < n
      ensures s[i] == f[n - 1 - i]
    {
      assert s[i] in multiset(f) by {
        assert s[i] in multiset(s);
      }
      var k :| 0 <= k < n && f[k] == s[i];
      assert s[i].createdAt == k;
      // the head is a stored entry, so its stamp, the largest, is below n
      assert s[0] in multiset(f) by {
        assert s[0] in multiset(s);
      }
      DescendingGap(s, 0, i);
      DescendingGap(s, i, n - 1);
      assert k == n - 1 - i;
    }
    assert s == NewestFirst(f);
  }
}
