/**
 * The title `get_title` assembles. The user names and the "others" markers
 * are kept as a list of parts; joining them into a sentence and looking up
 * the phrase are left to the host, which also receives the number of
 * thankers used to pick the singular or plural phrase.
 */
module DisplayTitle {
  import opened Thankers

  /** The phrase key the title is rendered with. */
  const LanguageKey := "NOTIFICATION_THANKS_GIVE"

  /** Lists longer than this many trimmed users get "many others" instead of a count. */
  const ManyOthersAbove := 20

  /** One entry of `$usernames`: a plain name, a name with its " (N)" suffix,
      the "many others" phrase, or the "N others" phrase. */
  datatype Part = Name(name: string) | NameTimes(name: string, ntimes: int) | ManyOthers | XOthers(others: int)

  /** The arguments of the final `lang` call: the key, the parts to join, and
      the number of thankers that selects the plural form. */
  datatype Title = Title(key: string, parts: seq<Part>, count: int)

  /** The entry for one shown thanker. */
  function PartFor(t: Thanker, username: int -> string): Part
  {
    if t.ntimes.Some? && t.ntimes.value > 1 then NameTimes(username(t.userId), t.ntimes.value)
    else Name(username(t.userId))
  }

  /** The entry that stands for `trimmed` users left out, if any. */
  function OthersPart(trimmed: int): seq<Part>
  {
    if trimmed > ManyOthersAbove then [ManyOthers]
    else if trimmed != 0 then [XOthers(trimmed)]
    else []
  }

  /** How many users `trim_user_ary` leaves out of a list: none up to 4, all
      but 3 above, so never exactly 1. */
  lemma TrimmedCount<T>(users: seq<T>)
    ensures var r := |users| - |TrimUserAry(users)|;
      (r == 0 <==> |users| <= 4) && r != 1 && (|users| > 4 ==> r == |users| - 3)
  {
  }

  /** The title of a notification whose `thankers` entry is `field`. */
  function TitleOf(field: ThankersField, username: int -> string): (t: Title)
    ensures t.key == LanguageKey
    ensures t.count == |Listed(field)|
    ensures var n := |Listed(field)|;
      |t.parts| == |TrimUserAry(Listed(field))| + (if n > 4 then 1 else 0)
    ensures forall i :: 0 <= i < |TrimUserAry(Listed(field))| ==>
      var th := Listed(field)[i];
      (t.parts[i].Name? || t.parts[i].NameTimes?) &&
      t.parts[i].name == username(th.userId) &&
      (t.parts[i].NameTimes? <==> th.ntimes.Some? && th.ntimes.value > 1) &&
      (t.parts[i].NameTimes? ==> t.parts[i].ntimes == th.ntimes.value)
    ensures ManyOthers in t.parts <==> |Listed(field)| > ManyOthersAbove + 3
    ensures forall k :: XOthers(k) in t.parts <==> 4 < |Listed(field)| <= ManyOthersAbove + 3 && k == |Listed(field)| - 3
  {
    var all := Listed(field);
    var shown := TrimUserAry(all);
    var names := seq(|shown|, i requires 0 <= i < |shown| => PartFor(shown[i], username));
    var others := OthersPart(|all| - |shown|);
    assert forall p :: p in names ==> p.Name? || p.NameTimes?;
    Title(LanguageKey, names + others, |all|)
  }
}
