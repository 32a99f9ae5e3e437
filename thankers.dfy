/**
 * The thanker record stored in a thanks notification's data, and the
 * queries over thanker lists that the notification type performs.
 */
module Thankers {
  import opened Wrappers

  /** One entry of the `thankers` list: who thanked, and how many times
      (`ntimes` may be missing from rows stored by older versions). */
  datatype Thanker = Thanker(userId: int, ntimes: Option<int>)

  /** What `get_data('thankers')` returns: nothing, something that is not
      an array, or a list of thanker records. */
  datatype ThankersField = Unset | NotAList | Items(items: seq<Thanker>)

  /** The list `get_title` works on: anything that is not an array counts as empty. */
  function Listed(field: ThankersField): seq<Thanker>
  {
    if field.Items? then field.items else []
  }

  /** Some record of `s` belongs to user `u`. */
  predicate Contains(s: seq<Thanker>, u: int)
  {
    exists i :: 0 <= i < |s| && s[i].userId == u
  }

  /** No two records of `s` belong to the same user. */
  predicate UniqueIds(s: seq<Thanker>)
  {
    forall i, j :: 0 <= i < j < |s| ==> s[i].userId != s[j].userId
  }

  /** Putting `t` in front adds `t`'s user and no other. */
  lemma ContainsFront(t: Thanker, s: seq<Thanker>, u: int)
    ensures Contains([t] + s, u) <==> t.userId == u || Contains(s, u)
  {
    var e := [t] + s;
    if t.userId == u {
      assert e[0].userId == u;
    }
    if Contains(s, u) {
      var i :| 0 <= i < |s| && s[i].userId == u;
      assert e[i + 1].userId == u;
    }
    if Contains(e, u) && t.userId != u {
      var i :| 0 <= i < |e| && e[i].userId == u;
      assert s[i - 1].userId == u;
    }
  }

  /** The index of the first record of user `u` in `s`, or `|s|` when there is none. */
  function Find(s: seq<Thanker>, u: int): (k: nat)
    ensures k <= |s|
    ensures k < |s| ==> s[k].userId == u
    ensures forall j :: 0 <= j < k ==> s[j].userId != u
    ensures k < |s| <==> Contains(s, u)
  {
    if s == [] then 0
    else
      var k := Find(s[..|s| - 1], u);
      if k < |s| - 1 then k
      else if s[|s| - 1].userId == u then |s| - 1
      else |s|
  }

  /** The number of records of user `u` in `s`. */
  function Count(s: seq<Thanker>, u: int): (n: nat)
    ensures n <= |s|
    ensures n == 0 <==> !Contains(s, u)
  {
    if s == [] then 0
    else
      Count(s[..|s| - 1], u) + (if s[|s| - 1].userId == u then 1 else 0)
  }

  /** `trim_user_ary`: a list of more than 4 users is cut to its first 3;
      a shorter one is returned as it is. */
  function TrimUserAry<T>(users: seq<T>): (r: seq<T>)
    ensures r <= users
    ensures |r| == if |users| > 4 then 3 else |users|
    ensures |r| <= 4
  {
    if |users| > 4 then users[..3] else users
  }

  /** Trimming an already trimmed list changes nothing. */
  lemma TrimUserAryIdempotent<T>(users: seq<T>)
    ensures TrimUserAry(TrimUserAry(users)) == TrimUserAry(users)
  {
  }
}
