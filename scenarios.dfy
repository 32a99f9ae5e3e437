/** Worked examples of the model on small thanker lists. */
module Scenarios {
  import opened Wrappers
  import opened Thankers
  import opened UpdateArray
  import opened InsertArray
  import opened DisplayTitle

  /** The first record of user `u` in `s` is at `k`. */
  lemma FindAt(s: seq<Thanker>, u: int, k: nat)
    requires k < |s| && s[k].userId == u
    requires forall j :: 0 <= j < k ==> s[j].userId != u
    ensures Find(s, u) == k
  {
  }

  /** User `u` has no record in `s`. */
  lemma FindAbsent(s: seq<Thanker>, u: int)
    requires forall j :: 0 <= j < |s| ==> s[j].userId != u
    ensures Find(s, u) == |s|
  {
  }

  /** The prefix A, B of the history. */
  lemma HistoryAB(a: Thanker, b: Thanker)
    requires a.ntimes == None && b.ntimes == None && a.userId != b.userId
    ensures Dedup([a, b]) == [Kept(a), Kept(b)]
  {
    DedupSnoc([], a);
    assert [] + [a] == [a];
    FindAbsent([], a.userId);
    assert Step([], a) == [Kept(a)];
    assert Dedup([a]) == [Kept(a)];
    DedupSnoc([a], b);
    assert [a] + [b] == [a, b];
    FindAbsent([Kept(a)], b.userId);
    assert Step([Kept(a)], b) == [Kept(a)] + [Kept(b)];
  }

  /** The prefix A, B, A of the history. */
  lemma HistoryABA(a: Thanker, b: Thanker)
    requires a.ntimes == None && b.ntimes == None && a.userId != b.userId
    ensures Dedup([a, b, a]) == [a.(ntimes := Some(2)), Kept(b)]
  {
    HistoryAB(a, b);
    DedupSnoc([a, b], a);
    assert [a, b] + [a] == [a, b, a];
    FindAt([Kept(a), Kept(b)], a.userId, 0);
  }

  /** The prefix A, B, A, C of the history. */
  lemma HistoryABAC(a: Thanker, b: Thanker, c: Thanker)
    requires a.ntimes == None && b.ntimes == None && c.ntimes == None
    requires a.userId != b.userId && a.userId != c.userId && b.userId != c.userId
    ensures Dedup([a, b, a, c]) == [a.(ntimes := Some(2)), Kept(b), Kept(c)]
  {
    HistoryABA(a, b);
    DedupSnoc([a, b, a], c);
    assert [a, b, a] + [c] == [a, b, a, c];
    FindAbsent([a.(ntimes := Some(2)), Kept(b)], c.userId);
  }

  /** A history A, B, A, C, A of three users with no stored counts collapses
      to A three times, then B and C once each. */
  lemma DedupHistory(a: Thanker, b: Thanker, c: Thanker)
    requires a.ntimes == None && b.ntimes == None && c.ntimes == None
    requires a.userId != b.userId && a.userId != c.userId && b.userId != c.userId
    ensures Dedup([a, b, a, c, a]) == [a.(ntimes := Some(3)), b.(ntimes := Some(1)), c.(ntimes := Some(1))]
  {
    HistoryABAC(a, b, c);
    DedupSnoc([a, b, a, c], a);
    assert [a, b, a, c] + [a] == [a, b, a, c, a];
    FindAt([a.(ntimes := Some(2)), Kept(b), Kept(c)], a.userId, 0);
  }

  /** Five distinct thankers, the first with a count of 3: the title names the
      first three, the first with its count, adds "2 others", and uses 5 to
      choose the plural. */
  lemma TitleOfFive(username: int -> string)
    ensures var ts := [Thanker(1, Some(3)), Thanker(2, Some(1)), Thanker(3, Some(1)), Thanker(4, Some(1)), Thanker(5, Some(1))];
      TitleOf(Items(ts), username) == Title(LanguageKey,
        [NameTimes(username(1), 3), Name(username(2)), Name(username(3)), XOthers(2)], 5)
  {
  }

  /** Twenty-five thankers: "many others" stands for the 22 left out. */
  lemma TitleOfMany(ts: seq<Thanker>, username: int -> string)
    requires |ts| == 25
    ensures var t := TitleOf(Items(ts), username);
      |t.parts| == 4 && t.parts[3] == ManyOthers && t.count == 25
  {
  }

  /** A repeat thank from a listed user leaves the list alone; a new user goes first. */
  lemma MergeRepeatAndNew()
    ensures Merge(Items([Thanker(7, Some(2)), Thanker(9, Some(1))]), 9)
      == Success([Thanker(7, Some(2)), Thanker(9, Some(1))])
    ensures Merge(Items([Thanker(7, Some(2)), Thanker(9, Some(1))]), 4)
      == Success([Thanker(4, Some(1)), Thanker(7, Some(2)), Thanker(9, Some(1))])
  {
    var items := [Thanker(7, Some(2)), Thanker(9, Some(1))];
    assert items[1].userId == 9;
    assert !Contains(items, 4) by {
      assert forall i :: 0 <= i < |items| ==> items[i].userId != 4;
    }
    assert [NewThanker(4)] + items == [Thanker(4, Some(1)), Thanker(7, Some(2)), Thanker(9, Some(1))];
  }
}
