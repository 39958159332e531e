/** The in-memory repository of nodes and runs. */
module Repo {
  import opened Domain

  // The run store: a list with upsert.

  function IndexOf(runs: seq<Run>, id: RunId): (i: nat)
    ensures i <= |runs|
    ensures i < |runs| ==> runs[i].id == id
    ensures forall j :: 0 <= j < i ==> runs[j].id != id
  {
    if runs == [] then 0
    else if runs[0].id == id then 0
    else IndexOf(runs[1..], id) + 1
  }

  function Upsert(runs: seq<Run>, r: Run): seq<Run> {
    var i := IndexOf(runs, r.id);
    if i < |runs| then runs[i := r] else runs + [r]
  }

  function Lookup(runs: seq<Run>, id: RunId): Option<Run> {
    var i := IndexOf(runs, id);
    if i < |runs| then Some(runs[i]) else None
  }

  ghost predicate UniqueIds(runs: seq<Run>) {
    forall i, j :: 0 <= i < j < |runs| ==> runs[i].id != runs[j].id
  }

  lemma IndexIsUnique(runs: seq<Run>, i: nat)
    requires UniqueIds(runs) && i < |runs|
    ensures IndexOf(runs, runs[i].id) == i
  {
  }

  /** Upsert is map update: the new record is found under its id, every other id
      finds what it found before, ids stay unique, and no record moves. */
  lemma UpsertIsMapUpdate(runs: seq<Run>, r: Run, id: RunId)
    ensures Lookup(Upsert(runs, r), id) == if id == r.id then Some(r) else Lookup(runs, id)
    ensures UniqueIds(runs) ==> UniqueIds(Upsert(runs, r))
    ensures |runs| <= |Upsert(runs, r)| <= |runs| + 1
    ensures forall j :: 0 <= j < |runs| ==> Upsert(runs, r)[j].id == runs[j].id
    ensures forall x :: x in Upsert(runs, r) ==> x == r || x in runs
    ensures forall j :: 0 <= j < |runs| && runs[j].id != r.id ==> Upsert(runs, r)[j] == runs[j]
    ensures r in Upsert(runs, r)
  {
    var i := IndexOf(runs, r.id);
    var after := Upsert(runs, r);
    var k := IndexOf(after, id);
    var k0 := IndexOf(runs, id);
    assert after[i] == r;
    assert forall j :: 0 <= j < |runs| && j != i ==> after[j] == runs[j];
    assert forall j :: 0 <= j < |runs| ==> after[j].id == runs[j].id;
    if id == r.id {
      assert k == i;
    } else if k < |after| {
      assert k != i;
      assert k0 == k;
    }
  }

  // Listing: a stable sort, newest first.

  function InsertNewest(r: Run, sorted: seq<Run>): (out: seq<Run>)
    ensures |out| == |sorted| + 1
    ensures forall x :: x in out <==> x == r || x in sorted
  {
    if sorted == [] then [r]
    else if sorted[0].startedAt > r.startedAt then [sorted[0]] + InsertNewest(r, sorted[1..])
    else [r] + sorted
  }

  /** A stable sort by start time, descending: earlier entries of `runs` come first
      among equals. */
  function NewestFirst(runs: seq<Run>): (out: seq<Run>)
    ensures |out| == |runs|
  {
    if runs == [] then [] else InsertNewest(runs[0], NewestFirst(runs[1..]))
  }

  /** `a` is listed before `b`: it started later, or at the same time and was
      inserted into the store first. */
  ghost predicate Before(runs: seq<Run>, a: Run, b: Run) {
    a.startedAt > b.startedAt
    || (a.startedAt == b.startedAt && IndexOf(runs, a.id) < IndexOf(runs, b.id))
  }

  ghost predicate Ordered(runs: seq<Run>, out: seq<Run>) {
    forall i, j :: 0 <= i < j < |out| ==> Before(runs, out[i], out[j])
  }

  /** A listing of the whole store in that order. */
  ghost predicate IsListing(runs: seq<Run>, out: seq<Run>) {
    && multiset(out) == multiset(runs)
    && Ordered(runs, out)
  }

  lemma {:induction false} InsertKeepsElements(r: Run, sorted: seq<Run>)
    ensures multiset(InsertNewest(r, sorted)) == multiset{r} + multiset(sorted)
  {
    if sorted != [] && sorted[0].startedAt > r.startedAt {
      InsertKeepsElements(r, sorted[1..]);
      assert sorted == [sorted[0]] + sorted[1..];
    }
  }

  lemma InMultiset(xs: seq<Run>, ys: seq<Run>)
    requires multiset(xs) == multiset(ys)
    ensures |xs| == |ys|
    ensures forall x :: x in xs <==> x in ys
  {
    assert |multiset(xs)| == |multiset(ys)|;
    forall x
      ensures x in xs <==> x in ys
    {
      assert x in xs <==> x in multiset(xs);
      assert x in ys <==> x in multiset(ys);
    }
  }

  /** The order over a longer store, for entries of its tail. */
  lemma BeforeInTail(runs: seq<Run>, a: Run, b: Run)
    requires UniqueIds(runs) && runs != []
    requires a in runs[1..] && b in runs[1..]
    ensures Before(runs, a, b) <==> Before(runs[1..], a, b)
  {
    var i :| 0 <= i < |runs[1..]| && runs[1..][i] == a;
    var j :| 0 <= j < |runs[1..]| && runs[1..][j] == b;
    assert runs[i + 1] == a && runs[j + 1] == b;
    assert UniqueIds(runs[1..]);
    IndexIsUnique(runs, i + 1);
    IndexIsUnique(runs, j + 1);
    IndexIsUnique(runs[1..], i);
    IndexIsUnique(runs[1..], j);
  }

  lemma HeadBefore(runs: seq<Run>, b: Run)
    requires UniqueIds(runs) && runs != []
    requires b in runs[1..]
    ensures Before(runs, runs[0], b) <==> runs[0].startedAt >= b.startedAt
    ensures Before(runs, b, runs[0]) <==> b.startedAt > runs[0].startedAt
  {
    var j :| 0 <= j < |runs[1..]| && runs[1..][j] == b;
    assert runs[j + 1] == b;
    IndexIsUnique(runs, j + 1);
    IndexIsUnique(runs, 0);
  }

  lemma OrderedCons(runs: seq<Run>, first: Run, rest: seq<Run>)
    requires Ordered(runs, rest)
    requires forall x :: x in rest ==> Before(runs, first, x)
    ensures Ordered(runs, [first] + rest)
  {
    var out := [first] + rest;
    forall i, j | 0 <= i < j < |out|
      ensures Before(runs, out[i], out[j])
    {
      assert rest[j - 1] in rest;
      assert i > 0 ==> Before(runs, rest[i - 1], rest[j - 1]);
    }
  }

  lemma OrderedTail(runs: seq<Run>, out: seq<Run>)
    requires Ordered(runs, out) && out != []
    ensures Ordered(runs, out[1..])
    ensures forall x :: x in out[1..] ==> Before(runs, out[0], x)
  {
    forall x | x in out[1..]
      ensures Before(runs, out[0], x)
    {
      var k :| 0 <= k < |out[1..]| && out[1..][k] == x;
      assert out[k + 1] == x;
    }
  }

  /** Inserting the store's first entry into an ordered part of its tail. */
  lemma {:induction false} InsertKeepsOrder(runs: seq<Run>, sorted: seq<Run>)
    requires UniqueIds(runs) && runs != []
    requires forall x :: x in sorted ==> x in runs[1..]
    requires Ordered(runs, sorted)
    ensures Ordered(runs, InsertNewest(runs[0], sorted))
  {
    var r := runs[0];
    if sorted == [] {
    } else {
      OrderedTail(runs, sorted);
      HeadBefore(runs, sorted[0]);
      if sorted[0].startedAt > r.startedAt {
        InsertKeepsOrder(runs, sorted[1..]);
        OrderedCons(runs, sorted[0], InsertNewest(r, sorted[1..]));
      } else {
        forall x | x in sorted
          ensures Before(runs, r, x)
        {
          HeadBefore(runs, x);
          assert x == sorted[0] || x in sorted[1..];
        }
        OrderedCons(runs, r, sorted);
      }
    }
  }

  lemma {:induction false} NewestFirstIsListing(runs: seq<Run>)
    requires UniqueIds(runs)
    ensures IsListing(runs, NewestFirst(runs))
  {
    if runs != [] {
      var rest := runs[1..];
      assert UniqueIds(rest);
      NewestFirstIsListing(rest);
      var sorted := NewestFirst(rest);
      InMultiset(sorted, rest);
      forall i, j | 0 <= i < j < |sorted|
        ensures Before(runs, sorted[i], sorted[j])
      {
        assert sorted[i] in sorted && sorted[j] in sorted;
        BeforeInTail(runs, sorted[i], sorted[j]);
      }
      InsertKeepsOrder(runs, sorted);
      InsertKeepsElements(runs[0], sorted);
      assert runs == [runs[0]] + rest;
    }
  }

  lemma Asymmetric(runs: seq<Run>, a: Run, b: Run)
    ensures !(Before(runs, a, b) && Before(runs, b, a))
  {
  }

  lemma FirstsAgree(runs: seq<Run>, a: seq<Run>, b: seq<Run>)
    requires multiset(a) == multiset(b) && a != []
    requires Ordered(runs, a) && Ordered(runs, b)
    ensures b != [] && a[0] == b[0]
  {
    InMultiset(a, b);
    assert a[0] in a && b[0] in b;
    var i :| 0 <= i < |b| && b[i] == a[0];
    var j :| 0 <= j < |a| && a[j] == b[0];
    assert i == 0 || Before(runs, b[0], a[0]);
    assert j == 0 || Before(runs, a[0], b[0]);
    Asymmetric(runs, a[0], b[0]);
  }

  lemma TailMultiset(xs: seq<Run>)
    requires xs != []
    ensures multiset(xs[1..]) == multiset(xs) - multiset{xs[0]}
  {
    assert xs == [xs[0]] + xs[1..];
  }

  /** There is only one such listing, so the order shows through any sort that
      keeps ties in insertion order. */
  lemma {:induction false} ListingIsUnique(runs: seq<Run>, a: seq<Run>, b: seq<Run>)
    requires multiset(a) == multiset(b)
    requires Ordered(runs, a) && Ordered(runs, b)
    ensures a == b
  {
    if a == [] {
      InMultiset(a, b);
    } else {
      FirstsAgree(runs, a, b);
      TailMultiset(a);
      TailMultiset(b);
      ListingIsUnique(runs, a[1..], b[1..]);
      assert a == [a[0]] + a[1..] && b == [b[0]] + b[1..];
    }
  }

  /** Listing `limit` runs: the first ones of the unique listing, so that no run
      left out is listed before one that is shown. */
  lemma TopOfListing(runs: seq<Run>, listing: seq<Run>, limit: nat, shown: Run, omitted: Run)
    requires UniqueIds(runs) && IsListing(runs, listing)
    ensures var top := NewestFirst(runs)[..Min(limit, |NewestFirst(runs)|)];
      && top == listing[..Min(limit, |listing|)]
      && (shown in top && omitted in runs && omitted !in top ==>
        Before(runs, shown, omitted) && omitted.startedAt <= shown.startedAt)
  {
    NewestFirstIsListing(runs);
    ListingIsUnique(runs, NewestFirst(runs), listing);
    InMultiset(listing, runs);
    var top := listing[..Min(limit, |runs|)];
    if shown in top && omitted in runs && omitted !in top {
      var i :| 0 <= i < |top| && top[i] == shown;
      assert omitted in listing;
      var j :| 0 <= j < |listing| && listing[j] == omitted;
      assert forall x :: 0 <= x < |top| ==> listing[x] == top[x] && top[x] in top;
      assert listing[i] == shown && i < j;
    }
  }

  lemma BeforeInStore(runs: seq<Run>, a: Run, b: Run)
    requires UniqueIds(runs) && a in runs && b in runs && Before(runs, a, b) && a.startedAt == b.startedAt
    ensures exists p, q :: 0 <= p < q < |runs| && runs[p] == a && runs[q] == b
  {
    var p :| 0 <= p < |runs| && runs[p] == a;
    var q :| 0 <= q < |runs| && runs[q] == b;
    IndexIsUnique(runs, p);
    IndexIsUnique(runs, q);
    assert p < q;
  }

  /** A limited listing read off the store itself: its runs are stored ones, none started
      before a later one of the list, those that started together are in the order of the
      store, and no stored run left out started after one that is shown. */
  lemma ListedInOrder(runs: seq<Run>, limit: nat)
    requires UniqueIds(runs)
    ensures var out := NewestFirst(runs)[..if limit < |runs| then limit else |runs|];
      && (forall x :: x in out ==> x in runs)
      && (forall i, j :: 0 <= i < j < |out| ==> out[i].startedAt >= out[j].startedAt)
      && (forall i, j :: 0 <= i < j < |out| && out[i].startedAt == out[j].startedAt ==>
        exists p, q :: 0 <= p < q < |runs| && runs[p] == out[i] && runs[q] == out[j])
      && (forall x, y :: x in out && y in runs && y !in out ==> y.startedAt <= x.startedAt)
  {
    NewestFirstIsListing(runs);
    var listing := NewestFirst(runs);
    InMultiset(listing, runs);
    var out := listing[..if limit < |runs| then limit else |runs|];
    forall i, j | 0 <= i < j < |out| && out[i].startedAt == out[j].startedAt
      ensures exists p, q :: 0 <= p < q < |runs| && runs[p] == out[i] && runs[q] == out[j]
    {
      assert listing[i] in listing && listing[j] in listing;
      BeforeInStore(runs, listing[i], listing[j]);
    }
    forall x, y | x in out && y in runs && y !in out
      ensures y.startedAt <= x.startedAt
    {
      TopOfListing(runs, listing, limit, x, y);
    }
  }

  /** The repository object. */
  class InMemoryNodeRepository {
    var nodes: map<NodeId, Node>
    var runs: seq<Run>

    ghost predicate Valid()
      reads this
    {
      && UniqueIds(runs)
      && forall id :: id in nodes ==> nodes[id].id == id
    }

    constructor ()
      ensures Valid() && nodes == map[] && runs == []
    {
      nodes, runs := map[], [];
    }

    method SaveNode(n: Node)
      requires Valid()
      modifies this`nodes
      ensures Valid()
      ensures nodes == old(nodes)[n.id := n]
    {
      nodes := nodes[n.id := n];
    }

    method GetNode(id: NodeId) returns (r: Option<Node>)
      ensures r == if id in nodes then Some(nodes[id]) else None
    {
      r := if id in nodes then Some(nodes[id]) else None;
    }

    /** Overwrites the record with this id where it stands, or appends it. */
    method SaveRun(run: Run)
      requires Valid()
      modifies this`runs
      ensures Valid()
      ensures runs == Upsert(old(runs), run)
      ensures forall id :: Lookup(runs, id) == if id == run.id then Some(run) else Lookup(old(runs), id)
    {
      ghost var before := runs;
      forall id
        ensures Lookup(Upsert(before, run), id) == if id == run.id then Some(run) else Lookup(before, id)
        ensures UniqueIds(Upsert(before, run))
      {
        UpsertIsMapUpdate(before, run, id);
      }
      var i := 0;
      while i < |runs| && runs[i].id != run.id
        invariant 0 <= i <= |runs|
        invariant runs == before
        invariant forall j :: 0 <= j < i ==> runs[j].id != run.id
      {
        i := i + 1;
      }
      assert i == IndexOf(before, run.id);
      if i < |runs| {
        runs := runs[i := run];
      } else {
        runs := runs + [run];
      }
    }

    method GetRun(id: RunId) returns (r: Option<Run>)
      ensures r == Lookup(runs, id)
      ensures r.Some? ==> r.value in runs && r.value.id == id
      ensures r.None? ==> forall x :: x in runs ==> x.id != id
    {
      for i := 0 to |runs|
        invariant forall j :: 0 <= j < i ==> runs[j].id != id
      {
        if runs[i].id == id {
          assert i == IndexOf(runs, id);
          return Some(runs[i]);
        }
      }
      r := None;
    }

    /** The newest runs first, ties in insertion order, at most `limit` of them. */
    method ListRuns(limit: nat) returns (out: seq<Run>)
      requires Valid()
      ensures |out| == if limit < |runs| then limit else |runs|
      ensures out == NewestFirst(runs)[..|out|] && IsListing(runs, NewestFirst(runs))
      ensures forall x :: x in out ==> x in runs
      ensures forall i, j :: 0 <= i < j < |out| ==> out[i].startedAt >= out[j].startedAt
      ensures forall i, j :: 0 <= i < j < |out| && out[i].startedAt == out[j].startedAt ==>
        exists p, q :: 0 <= p < q < |runs| && runs[p] == out[i] && runs[q] == out[j]
      ensures forall x, y :: x in out && y in runs && y !in out ==> y.startedAt <= x.startedAt
    {
      NewestFirstIsListing(runs);
      ListedInOrder(runs, limit);
      out := NewestFirst(runs);
      if limit < |out| {
        out := out[..limit];
      }
    }
  }
}
