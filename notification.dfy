/**
 * The thanks notification type: the object whose data `create_insert_array`
 * and `create_update_array` fill, and the queries the host makes of it when
 * it displays the notification.
 */
module Notification {
  import opened Wrappers
  import opened Thankers
  import opened UpdateArray
  import opened InsertArray
  import opened DisplayTitle

  /** The host's user loader: user name and avatar of a user id. */
  datatype UserLoader = UserLoader(username: int -> string, avatar: int -> string)

  /** The data a thank hands to the notification type. */
  datatype ThanksData = ThanksData(
    userId: int,
    postId: int,
    topicId: int,
    posterId: int,
    langAct: string,
    postSubject: string,
    thankers: ThankersField)

  /** `get_item_id`: a notification is addressed by the thanked post... */
  function GetItemId(data: ThanksData): int
  {
    data.postId
  }

  /** ...and `get_item_parent_id`: grouped under the post's topic. */
  function GetItemParentId(data: ThanksData): int
  {
    data.topicId
  }

  /** The stored notifications of this type, by item id. */
  type StoredNotifications = map<int, ThankersField>

  /** The query of `create_update_array`: the `thankers` entry of the stored
      notification addressed by the event's item id, if there is one. */
  function StoredRowFor(data: ThanksData, stored: StoredNotifications): Option<ThankersField>
  {
    if GetItemId(data) in stored then Some(stored[GetItemId(data)]) else None
  }

  /** Thanks for the same post, whoever gives them and whatever topic they
      carry, meet the same stored notification. */
  lemma SamePostSameRow(data: ThanksData, other: ThanksData, stored: StoredNotifications)
    requires data.postId == other.postId
    ensures StoredRowFor(data, stored) == StoredRowFor(other, stored)
  {
  }

  /** The thanker list `create_update_array` hands on, given the `thankers`
      entry of the stored notification it found (`None`: no row found). */
  function RebuiltThankers(row: Option<ThankersField>): (r: seq<Thanker>)
    ensures UniqueIds(r)
    ensures forall u :: Contains(r, u) <==> row.Some? && Contains(Listed(row.value), u)
    ensures row.Some? && row.value.Items? ==> r == Dedup(row.value.items)
  {
    if row.Some? && row.value.Items? && row.value.items != [] then
      var s := row.value.items;
      DedupUnique(s);
      forall u ensures Contains(Dedup(s), u) <==> Contains(s, u) { DedupUsers(s, u); }
      Dedup(s)
    else []
  }

  /** The thanker list a notification holds after `create_update_array`. */
  function UpdatedThankers(data: ThanksData, row: Option<ThankersField>): (r: seq<Thanker>)
    ensures UniqueIds(r)
    ensures Contains(r, data.userId)
    ensures forall u :: Contains(r, u) <==> u == data.userId || (row.Some? && Contains(Listed(row.value), u))
    ensures row.None? || Listed(row.value) == [] ==> r == [NewThanker(data.userId)]
  {
    MergeIntoEmpty(Items([]), data.userId);
    Merge(Items(RebuiltThankers(row)), data.userId).value
  }

  /** One thanks notification and the data it stores. */
  class ThanksNotification {
    /** The notification data entries this type sets. */
    var thankers: ThankersField
    var postId: int
    var langAct: string
    var postSubject: string
    var posterId: int
    /** What `get_data('user_id')` reads (line 162). This file never writes that
        entry; the model takes it as a constructor argument and says nothing
        about where it comes from. */
    var userId: int
    /** The item keys the base class records from `get_item_id` and `get_item_parent_id`. */
    var itemId: int
    var itemParentId: int
    /** The user loader injected by the constructor. */
    const userLoader: UserLoader

    constructor (userLoader: UserLoader, userId: int)
      ensures this.userLoader == userLoader && this.userId == userId
      ensures thankers == Unset
    {
      this.userLoader := userLoader;
      this.userId := userId;
      thankers := Unset;
      postId, posterId, itemId, itemParentId := 0, 0, 0, 0;
      langAct, postSubject := "", "";
    }

    /** `create_insert_array`: store the merged thanker list and the latest
        thank's post. A `thankers` entry that is not an array makes the merge
        fail, and nothing is stored. */
    method CreateInsertArray(data: ThanksData) returns (ok: bool)
      modifies this
      ensures ok == Merge(data.thankers, data.userId).Success?
      ensures ok ==> thankers == Items(Merge(data.thankers, data.userId).value)
      ensures ok ==> (postId == data.postId && langAct == data.langAct
        && postSubject == data.postSubject && posterId == data.posterId)
      ensures ok ==> postId == itemId == GetItemId(data) && itemParentId == GetItemParentId(data)
      ensures userId == old(userId)
      ensures !ok ==> unchanged(this)
    {
      var existingYet := false;
      if data.thankers.Items? {
        var items := data.thankers.items;
        var i := 0;
        while i < |items|
          invariant 0 <= i <= |items|
          invariant existingYet ==> Contains(items, data.userId)
          invariant !existingYet ==> forall j :: 0 <= j < i ==> items[j].userId != data.userId
        {
          if items[i].userId == data.userId {
            existingYet := true;
            break;
          }
          i := i + 1;
        }
      }
      var merged: ThankersField;
      if existingYet {
        merged := data.thankers;
      } else {
        match data.thankers
        case Unset =>
          merged := Items([NewThanker(data.userId)]);
        case Items(items) =>
          merged := Items([NewThanker(data.userId)] + items);
        case NotAList =>
          return false;
      }
      thankers := merged;
      postId := data.postId;
      langAct := data.langAct;
      postSubject := data.postSubject;
      posterId := data.posterId;
      itemId := GetItemId(data);
      itemParentId := GetItemParentId(data);
      ok := true;
    }

    /** `create_update_array`: find the stored notification of the event's
        item, rebuild its thanker list and merge the new thank into it. */
    method CreateUpdateArray(data: ThanksData, stored: StoredNotifications)
      modifies this
      ensures thankers == Items(UpdatedThankers(data, StoredRowFor(data, stored)))
      ensures postId == data.postId && langAct == data.langAct
        && postSubject == data.postSubject && posterId == data.posterId
      ensures itemId == GetItemId(data) && itemParentId == GetItemParentId(data)
      ensures userId == old(userId)
    {
      var row := StoredRowFor(data, stored);
      var rebuilt: seq<Thanker> := [];
      if row.Some? {
        if row.value.Items? && row.value.items != [] {
          rebuilt := FilterThankers(row.value.items);
        } else {
          rebuilt := [];
        }
      }
      var ok := CreateInsertArray(data.(thankers := Items(rebuilt)));
    }

    /** `get_title`: one part per shown thanker, then the "others" part. */
    method GetTitle() returns (t: Title)
      ensures t == TitleOf(thankers, userLoader.username)
    {
      var list := if thankers.Items? then thankers.items else [];
      var count := |list|;
      var shown := TrimUserAry(list);
      var trimmed := count - |shown|;
      var username := userLoader.username;
      var usernames: seq<Part> := [];
      for i := 0 to |shown|
        invariant |usernames| == i
        invariant forall j :: 0 <= j < i ==> usernames[j] == PartFor(shown[j], username)
      {
        var name := username(shown[i].userId);
        var part := Name(name);
        if shown[i].ntimes.Some? && shown[i].ntimes.value > 1 {
          part := NameTimes(name, shown[i].ntimes.value);
        }
        usernames := usernames + [part];
      }
      if trimmed > ManyOthersAbove {
        usernames := usernames + [ManyOthers];
      } else if trimmed != 0 {
        usernames := usernames + [XOthers(trimmed)];
      }
      t := Title(LanguageKey, usernames, count);
    }

    /** `users_to_query`: the data's user, then every thanker in list order. */
    method UsersToQuery() returns (users: seq<int>)
      ensures |users| == 1 + |Listed(thankers)|
      ensures users[0] == userId
      ensures forall i :: 0 <= i < |Listed(thankers)| ==> users[i + 1] == Listed(thankers)[i].userId
    {
      users := [userId];
      if thankers.Items? {
        var items := thankers.items;
        for i := 0 to |items|
          invariant |users| == 1 + i && users[0] == userId
          invariant forall j :: 0 <= j < i ==> users[j + 1] == items[j].userId
        {
          users := users + [items[i].userId];
        }
      }
    }

    /** `get_avatar`: only a notification with exactly one thanker shows an
        avatar. The loader test of line 109 always holds for the loader the
        constructor requires. */
    function GetAvatar(): (a: string)
      reads this
      ensures a != "" ==> thankers.Items? && |thankers.items| == 1
      ensures thankers.Items? && |thankers.items| == 1 ==> a == userLoader.avatar(thankers.items[0].userId)
    {
      if thankers.Items? && |thankers.items| == 1 then userLoader.avatar(thankers.items[0].userId)
      else ""
    }
  }
}
