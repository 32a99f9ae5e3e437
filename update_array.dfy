/**
 * The rebuilding of a stored thanker list in `create_update_array`:
 * records are collapsed by user in order of first occurrence, and every
 * later occurrence of a user bumps the kept record's `ntimes`.
 */
module UpdateArray {
  import opened Wrappers
  import opened Thankers

  /** The `ntimes` a record counts as when it is first kept: its own, or 1 if unset. */
  function Initial(t: Thanker): int
  {
    if t.ntimes.Some? then t.ntimes.value else 1
  }

  /** A record as it is first kept: an unset `ntimes` becomes 1. */
  function Kept(t: Thanker): (r: Thanker)
    ensures r.userId == t.userId && r.ntimes == Some(Initial(t))
    ensures t.ntimes.Some? ==> r == t
  {
    t.(ntimes := Some(Initial(t)))
  }

  /** The kept record after one more occurrence of its user: a count above 1
      grows by one, anything else becomes 2. */
  function Bumped(t: Thanker): (r: Thanker)
    ensures r.userId == t.userId
    ensures r.ntimes.Some? && r.ntimes.value >= 2
    ensures t.ntimes.Some? && t.ntimes.value >= 1 ==> r.ntimes == Some(t.ntimes.value + 1)
    ensures !(t.ntimes.Some? && t.ntimes.value > 1) ==> r.ntimes == Some(2)
  {
    t.(ntimes := Some(if t.ntimes.Some? && t.ntimes.value > 1 then t.ntimes.value + 1 else 2))
  }

  /** One turn of the loop: bump the user's record if it is kept, else keep `item` at the end. */
  function Step(acc: seq<Thanker>, item: Thanker): seq<Thanker>
  {
    var k := Find(acc, item.userId);
    if k < |acc| then acc[k := Bumped(acc[k])] else acc + [Kept(item)]
  }

  /** The deduplicated list: the loop's result after the whole of `s`. */
  function Dedup(s: seq<Thanker>): (r: seq<Thanker>)
    ensures |r| <= |s|
  {
    if s == [] then [] else Step(Dedup(s[..|s| - 1]), s[|s| - 1])
  }

  /** Deduplicating one more record is one more turn of the loop. */
  lemma DedupSnoc(p: seq<Thanker>, x: Thanker)
    ensures Dedup(p + [x]) == Step(Dedup(p), x)
  {
    assert (p + [x])[..|p|] == p;
  }

  /** The `ntimes` the code gives user `u`: the first record's count, and after
      that one more per later record, where a first count below 2 is bumped to 2. */
  function ExpectedTimes(s: seq<Thanker>, u: int): int
    requires Contains(s, u)
  {
    var first := Initial(s[Find(s, u)]);
    var later := Count(s, u) - 1;
    if later == 0 then first else (if first > 1 then first else 1) + later
  }

  /** Every record kept with its own `ntimes` set to 1 if it was unset. */
  function KeptAll(s: seq<Thanker>): (r: seq<Thanker>)
    ensures |r| == |s|
    ensures forall i :: 0 <= i < |s| ==> r[i] == Kept(s[i])
  {
    seq(|s|, i requires 0 <= i < |s| => Kept(s[i]))
  }

  /** No user appears twice in the result. */
  lemma {:induction false} DedupUnique(s: seq<Thanker>)
    ensures UniqueIds(Dedup(s))
  {
    if s != [] {
      var p, x := s[..|s| - 1], s[|s| - 1];
      DedupUnique(p);
      var d := Dedup(p);
      var k := Find(d, x.userId);
      if k == |d| {
        assert forall j :: 0 <= j < |d| ==> d[j].userId != x.userId;
      }
    }
  }

  /** A list holds user `u` when its front does or its last record is `u`'s. */
  lemma ContainsLast(s: seq<Thanker>, u: int)
    requires s != []
    ensures Contains(s, u) <==> Contains(s[..|s| - 1], u) || s[|s| - 1].userId == u
  {
    assert Find(s, u) < |s| <==> Find(s[..|s| - 1], u) < |s| - 1 || s[|s| - 1].userId == u;
  }

  /** One turn of the loop adds the item's user and no other. */
  lemma StepUsers(acc: seq<Thanker>, item: Thanker, u: int)
    ensures Contains(Step(acc, item), u) <==> Contains(acc, u) || item.userId == u
  {
    var k := Find(acc, item.userId);
    var e := Step(acc, item);
    if k < |acc| {
      assert forall j :: 0 <= j < |acc| ==> e[j].userId == acc[j].userId;
    } else {
      assert forall j :: 0 <= j < |acc| ==> e[j].userId == acc[j].userId;
      assert e[|acc|].userId == item.userId;
    }
  }

  /** The result holds exactly the users of the input. */
  lemma {:induction false} DedupUsers(s: seq<Thanker>, u: int)
    ensures Contains(Dedup(s), u) <==> Contains(s, u)
  {
    if s != [] {
      var p, x := s[..|s| - 1], s[|s| - 1];
      DedupUsers(p, u);
      StepUsers(Dedup(p), x, u);
      ContainsLast(s, u);
    }
  }

  /** Every record of the result carries a user of the input. */
  lemma DedupFromInput(s: seq<Thanker>)
    ensures forall i :: 0 <= i < |Dedup(s)| ==> Contains(s, Dedup(s)[i].userId)
  {
    forall i | 0 <= i < |Dedup(s)|
      ensures Contains(s, Dedup(s)[i].userId)
    {
      DedupUsers(s, Dedup(s)[i].userId);
    }
  }

  /** Users appear in the result in the order of their first occurrence in the input. */
  lemma {:induction false} DedupOrder(s: seq<Thanker>)
    ensures forall i, j :: 0 <= i < j < |Dedup(s)| ==>
      Find(s, Dedup(s)[i].userId) < Find(s, Dedup(s)[j].userId)
  {
    DedupFromInput(s);
    if s != [] {
      var p, x := s[..|s| - 1], s[|s| - 1];
      DedupOrder(p);
      DedupFromInput(p);
      DedupUsers(p, x.userId);
      var d := Dedup(p);
      assert forall i :: 0 <= i < |d| ==> Find(s, d[i].userId) == Find(p, d[i].userId);
      var k := Find(d, x.userId);
      if k == |d| {
        assert Find(s, x.userId) == |p|;
      }
    }
  }

  /** Each kept record's `ntimes` is the one `ExpectedTimes` gives its user. */
  lemma {:induction false} DedupTimes(s: seq<Thanker>)
    ensures forall i :: 0 <= i < |Dedup(s)| ==>
      Contains(s, Dedup(s)[i].userId) &&
      Dedup(s)[i].ntimes == Some(ExpectedTimes(s, Dedup(s)[i].userId))
  {
    DedupFromInput(s);
    if s != [] {
      var p, x := s[..|s| - 1], s[|s| - 1];
      DedupTimes(p);
      DedupUnique(p);
      DedupUsers(p, x.userId);
      var d := Dedup(p);
      var k := Find(d, x.userId);
      forall i | 0 <= i < |Dedup(s)|
        ensures Dedup(s)[i].ntimes == Some(ExpectedTimes(s, Dedup(s)[i].userId))
      {
        var u := Dedup(s)[i].userId;
        if i < |d| && d[i].userId != x.userId {
          assert u == d[i].userId;
          assert Find(s, u) == Find(p, u) && s[Find(s, u)] == p[Find(p, u)];
          assert Count(s, u) == Count(p, u);
        } else if i < |d| {
          assert i == k;
          assert Find(s, u) == Find(p, u) && s[Find(s, u)] == p[Find(p, u)];
          assert Count(s, u) == Count(p, u) + 1;
        } else {
          assert i == |d| && k == |d| && u == x.userId;
          assert Find(s, u) == |p|;
          assert Count(s, u) == 1;
        }
      }
    }
  }

  /** When every stored count is set and at least 1, a user's count is the first
      record's count plus one for each later record. */
  lemma DedupTimesFromStored(s: seq<Thanker>)
    requires forall j :: 0 <= j < |s| ==> s[j].ntimes.None? || s[j].ntimes.value >= 1
    ensures forall i :: 0 <= i < |Dedup(s)| ==>
      Contains(s, Dedup(s)[i].userId) &&
      Dedup(s)[i].ntimes == Some(Initial(s[Find(s, Dedup(s)[i].userId)]) + Count(s, Dedup(s)[i].userId) - 1)
  {
    DedupTimes(s);
  }

  /** When no stored record carries a count, each user's count is its number of records. */
  lemma DedupCountsOccurrences(s: seq<Thanker>)
    requires forall j :: 0 <= j < |s| ==> s[j].ntimes.None?
    ensures forall i :: 0 <= i < |Dedup(s)| ==>
      Dedup(s)[i].ntimes == Some(Count(s, Dedup(s)[i].userId))
  {
    DedupTimes(s);
  }

  /** A list without repeated users comes back as it is, with unset counts set to 1. */
  lemma {:induction false} DedupOfUnique(s: seq<Thanker>)
    requires UniqueIds(s)
    ensures Dedup(s) == KeptAll(s)
  {
    if s != [] {
      var p, x := s[..|s| - 1], s[|s| - 1];
      DedupOfUnique(p);
      var d := Dedup(p);
      assert forall j :: 0 <= j < |d| ==> d[j].userId == p[j].userId != x.userId;
      assert Find(d, x.userId) == |d|;
      assert Dedup(s) == d + [Kept(x)];
    }
  }

  /** Deduplicating twice is deduplicating once. */
  lemma DedupIdempotent(s: seq<Thanker>)
    ensures Dedup(Dedup(s)) == Dedup(s)
  {
    DedupUnique(s);
    DedupOfUnique(Dedup(s));
    DedupTimes(s);
  }

  /** The rebuilding loop of `create_update_array`: the keys and values of the
      insertion-ordered `$filtered_thankers` dictionary are `order` and
      `byUser`, and `array_values` lists the values in key order. */
  method FilterThankers(items: seq<Thanker>) returns (filtered: seq<Thanker>)
    ensures filtered == Dedup(items)
  {
    var order: seq<int> := [];
    var byUser: map<int, Thanker> := map[];
    var i := 0;
    while i < |items|
      invariant 0 <= i <= |items|
      invariant |order| == |Dedup(items[..i])|
      invariant forall j :: 0 <= j < |order| ==>
        order[j] == Dedup(items[..i])[j].userId && order[j] in byUser && byUser[order[j]] == Dedup(items[..i])[j]
      invariant forall u :: u in byUser ==> u in order
    {
      var item := items[i];
      ghost var d := Dedup(items[..i]);
      DedupUnique(items[..i]);
      assert items[..i + 1][..i] == items[..i];
      if item.userId in byUser {
        ghost var k := Find(d, item.userId);
        assert k < |d|;
        byUser := byUser[item.userId := Bumped(byUser[item.userId])];
      } else {
        assert Find(d, item.userId) == |d|;
        byUser := byUser[item.userId := Kept(item)];
        order := order + [item.userId];
      }
      i := i + 1;
    }
    assert items[..i] == items;
    filtered := seq(|order|, j requires 0 <= j < |order| => byUser[order[j]]);
  }
}
