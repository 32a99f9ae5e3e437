# Thanks For Posts: thanker-list handling of the thanks notification

A Dafny model of the one piece of logic in the phpBB "Thanks For Posts"
extension: how the thanks notification type
(`naguissa/thanksforposts/notification/thanks.php`) keeps its list of
thankers. The parts are these:

- `create_update_array` rebuilds the stored list. It collapses records by
  user, keeps first-occurrence order, and counts repeats in `ntimes`.
- `create_insert_array` merges the thanking user into the list it is given.
  A user already listed leaves the list as it is. A new user is put in front
  with `ntimes` 1.
- `trim_user_ary` cuts a list of more than 4 down to its first 3 for display.
- `get_title` builds the title: one part per shown thanker, with a ` (N)`
  count when `ntimes > 1`, then a "many others" or "N others" part. The
  plural form is chosen from the untrimmed count.
- `users_to_query`, `get_avatar`, `get_item_id` and `get_item_parent_id`
  are the small queries around the list.

Files and modules:

- `wrappers.dfy` (`Wrappers`): `Option` and `Result`.
- `thankers.dfy` (`Thankers`): the `Thanker` record (`userId`, and an
  `ntimes` that may be unset), the `thankers` data entry
  (`Unset | NotAList | Items`), user lookup in a list, and `TrimUserAry`.
- `update_array.dfy` (`UpdateArray`): the rebuilding loop of
  `create_update_array`. `Dedup` is its specification, and the lemmas say
  what it computes. `FilterThankers` is the loop itself. It fills an
  insertion-ordered dictionary, represented as the key order `order` plus
  the map `byUser`, and then lists its values.
- `insert_array.dfy` (`InsertArray`): the merge of `create_insert_array`.
- `display_title.dfy` (`DisplayTitle`): the title as a list of parts.
- `notification.dfy` (`Notification`): the notification object. Its fields
  are the data entries that `set_data` writes, the item keys, and the value
  that `get_data('user_id')` reads. Its methods are
  `create_insert_array`, `create_update_array`, `get_title` and
  `users_to_query`, and its function is `get_avatar`.
- `scenarios.dfy` (`Scenarios`): worked examples on small lists.

Foreign host calls are parameters. The user loader is a record of two
functions, for the user name and the avatar. The table that the SQL query of
`create_update_array` reads is its `stored` argument: the `thankers` entries
of this type's stored notifications, by item id. The row is looked up under
`get_item_id` of the event, as on line 300. Of `parent::create_insert_array`,
the model keeps only one effect: it records the item keys that
`get_item_id` and `get_item_parent_id` give.

Notes on what the code does:

- A rebuilt record's `ntimes` is the first stored record's `ntimes` (1 if
  unset), plus one for each later record of that user. A first count below
  2 becomes 2 on the first repeat (line 319). `DedupCountsOccurrences` shows
  that this is the user's number of records when no stored record carries a
  count.
- `create_update_array` has no read flag. It clears `notification_read`
  (line 307) and always rebuilds from the stored row when one is found.
- The 4 and 3 of `trim_user_ary` are constants.
- A thanker record with no `user_id` is not modelled: every record has one.

## Model

| member | source | states |
|---|---|---|
| Thankers.Find | naguissa/thanksforposts/notification/thanks.php:317 | the `isset($filtered_thankers['_' . user_id])` lookup: the index of the first record of a user, or the list length when absent, which happens exactly when the user is not listed |
| Thankers.TrimUserAry | naguissa/thanksforposts/notification/thanks.php:221-228 | the result is a prefix of the input, of length 3 when the input has more than 4 users and the whole input otherwise |
| Thankers.TrimUserAryIdempotent | naguissa/thanksforposts/notification/thanks.php:221-228 | trimming a trimmed list changes nothing |
| UpdateArray.Kept | naguissa/thanksforposts/notification/thanks.php:323-327 | a first occurrence is kept as it is, except that an unset `ntimes` becomes 1 |
| UpdateArray.Bumped | naguissa/thanksforposts/notification/thanks.php:319 | a repeat keeps the user; a count above 1 grows by one, and any other count (unset, 1, or below) becomes exactly 2 |
| UpdateArray.Dedup | naguissa/thanksforposts/notification/thanks.php:314-330 | the rebuilt list is never longer than the stored one |
| UpdateArray.DedupSnoc | naguissa/thanksforposts/notification/thanks.php:315-329 | rebuilding one more record is one more turn of the loop over the list rebuilt so far |
| UpdateArray.DedupUnique | naguissa/thanksforposts/notification/thanks.php:314-330 | no user appears twice in the rebuilt list |
| UpdateArray.DedupUsers | naguissa/thanksforposts/notification/thanks.php:314-330 | the rebuilt list holds exactly the users of the stored list |
| UpdateArray.DedupFromInput | naguissa/thanksforposts/notification/thanks.php:314-330 | every rebuilt record's user occurs in the stored list |
| UpdateArray.DedupOrder | naguissa/thanksforposts/notification/thanks.php:314-330 | users appear in the order of their first occurrence in the stored list |
| UpdateArray.DedupTimes | naguissa/thanksforposts/notification/thanks.php:317-327 | each user's `ntimes` is the first record's count (1 if unset), and each later record adds one; a first count below 2 counts as 1 once there is a repeat |
| UpdateArray.DedupTimesFromStored | naguissa/thanksforposts/notification/thanks.php:317-327 | when stored counts are unset or at least 1, a user's `ntimes` is the first record's count plus the number of later records |
| UpdateArray.DedupCountsOccurrences | naguissa/thanksforposts/notification/thanks.php:317-327 | when no stored record has a count, each user's `ntimes` is that user's number of records |
| UpdateArray.DedupOfUnique | naguissa/thanksforposts/notification/thanks.php:314-330 | a list without repeated users comes back unchanged, except that unset counts become 1 |
| UpdateArray.DedupIdempotent | naguissa/thanksforposts/notification/thanks.php:314-330 | rebuilding a rebuilt list changes nothing |
| UpdateArray.FilterThankers | naguissa/thanksforposts/notification/thanks.php:314-330 | the loop over the insertion-ordered dictionary, followed by `array_values`, yields `Dedup` of the stored list |
| InsertArray.Merge | naguissa/thanksforposts/notification/thanks.php:260-281 | a listed user leaves the list unchanged; a new user is put in front as `{user_id, 1}` ahead of the old list; an unset list becomes that single record; a list that is not an array fails; on success the user is present, the users are the old ones plus the new one, and unique users stay unique |
| InsertArray.MergeIdempotent | naguissa/thanksforposts/notification/thanks.php:260-281 | merging the same user a second time changes nothing |
| InsertArray.MergeIntoEmpty | naguissa/thanksforposts/notification/thanks.php:278 | an unset or empty list becomes `[{user_id, 1}]` |
| DisplayTitle.TrimmedCount | naguissa/thanksforposts/notification/thanks.php:127-129 | the number of trimmed users is 0 exactly when there are at most 4 thankers, and otherwise the length minus 3, so it is never 1 |
| DisplayTitle.TitleOf | naguissa/thanksforposts/notification/thanks.php:117-151 | the plural count is the untrimmed length; there is one name part per shown thanker, in list order, with a ` (N)` part exactly when `ntimes` is set and above 1; "many others" appears exactly when more than 20 are trimmed; "N others" appears exactly when 1 to 20 are trimmed, with N the trimmed count |
| Notification.SamePostSameRow | naguissa/thanksforposts/notification/thanks.php:72-75 | two thanks for the same post meet the same stored notification, whatever their user or topic |
| Notification.RebuiltThankers | naguissa/thanksforposts/notification/thanks.php:303-335 | the list handed to the merge: empty when no row is found or the stored list is empty or not a list, otherwise the rebuilt stored list; its users are unique and are those of the stored list |
| Notification.UpdatedThankers | naguissa/thanksforposts/notification/thanks.php:298-339 | after an update the users are unique and include the thanking user; they are that user plus the stored users; with no row or an empty stored list the result is the single record `[{user_id, 1}]` |
| Notification.ThanksNotification.constructor | naguissa/thanksforposts/notification/thanks.php:24-29 | the injected user loader is kept, the value read as the data's `user_id` is the given argument, and no thanker list is set yet |
| Notification.ThanksNotification.CreateInsertArray | naguissa/thanksforposts/notification/thanks.php:258-289 | the scan with `break` plus the merge store `Merge` of the given list; the post id, language action, subject and poster are overwritten; the item keys are `get_item_id` and `get_item_parent_id` of the event, so the item id is the stored post id; a list that is not an array stores nothing |
| Notification.ThanksNotification.CreateUpdateArray | naguissa/thanksforposts/notification/thanks.php:298-339 | the row is looked up under the event's item id; the stored list becomes `UpdatedThankers` of the event and that row; the post fields and item keys come from the event |
| Notification.ThanksNotification.GetTitle | naguissa/thanksforposts/notification/thanks.php:117-151 | the appending loop yields exactly `TitleOf` the stored list, with names from the injected user loader |
| Notification.ThanksNotification.UsersToQuery | naguissa/thanksforposts/notification/thanks.php:158-174 | the result is the data's `user_id` followed by every thanker's user, in list order, so its length is 1 plus the list length; when the entry is not a list it is only `[user_id]` |
| Notification.ThanksNotification.GetAvatar | naguissa/thanksforposts/notification/thanks.php:106-110 | an avatar is returned only when there is exactly one thanker, and it is then that thanker's avatar |
| Scenarios.HistoryAB | naguissa/thanksforposts/notification/thanks.php:314-330 | two records of different users with no counts are both kept, with count 1 |
| Scenarios.HistoryABA | naguissa/thanksforposts/notification/thanks.php:314-330 | the history A, B, A gives A twice, then B once |
| Scenarios.HistoryABAC | naguissa/thanksforposts/notification/thanks.php:314-330 | the history A, B, A, C gives A twice, then B and C once |
| Scenarios.DedupHistory | naguissa/thanksforposts/notification/thanks.php:314-330 | the history A, B, A, C, A of three users with no counts rebuilds to A three times, then B once and C once |
| Scenarios.TitleOfFive | naguissa/thanksforposts/notification/thanks.php:117-151 | five thankers, the first with count 3, give "U1 (3)", "U2", "U3", "2 others" and plural count 5 |
| Scenarios.TitleOfMany | naguissa/thanksforposts/notification/thanks.php:141-144 | twenty-five thankers give three names and "many others", with plural count 25 |
| Scenarios.MergeRepeatAndNew | naguissa/thanksforposts/notification/thanks.php:260-281 | a repeat thanker leaves the list alone, and a new one goes to the front |

## Left out

- SQL and `update_notification_date`: these are database I/O. The table is the `stored` argument, looked up by item id. `sql_fetchrow`'s choice among several rows is not modelled.
- `set_initial_data`, `get_data(false)`, `get_insert_array` and the rest of `parent::create_insert_array` (all but the item keys), together with the `notification_read`/`notification_time` reset (lines 307-308, `time()`): this is host-framework state. The fields of the object are only the data entries this type writes, the item keys, and the value `users_to_query` reads as the data's `user_id`.
- The `thankers` entry's non-array values: PHP's `count()` on them, and `array_merge` with them (a warning or a `TypeError`, depending on the PHP version). The merge is modelled as failing and storing nothing. `get_avatar` returns no avatar for such a value.
- Notification.ThanksNotification.constructor: the source's constructor (lines 24-29) has no user parameter, and this file never writes a `user_id` data entry, so `get_data('user_id')` at line 162 may well be null. The model takes that value as an unconstrained integer constructor argument and does not model a null.
- The `&& $this->user_loader` test of `get_avatar` (line 109): the constructor's parameter is a non-nullable `\phpbb\user_loader` (line 24), so the test always holds and the model has no missing loader.
- The data `set_initial_data($row)` loads (line 310) is not carried over. In the source it replaces the object's data with the stored row before the merge. The model keeps only the row's `thankers` entry. Everything else the object holds afterwards comes from the event or, for the data's `user_id`, stays as it was. This includes what the base class then records, such as `item_parent_id`.
- UpdateArray.Bumped, UpdateArray.Dedup: PHP integer overflow is not modelled. At `PHP_INT_MAX`, line 319's `ntimes + 1` would become a float, while Dafny's `int` is unbounded. No count gets near that bound in practice.
- Rendering of the title: `phpbb_generate_string_list`, `user->lang` and the decimal text of the ` (N)` suffix are host calls. The title is kept as its parts, the phrase key and the plural count.
- Stored thanker records carry only `user_id` and `ntimes`. Other keys a stored row may hold are not modelled. PHP's loose `==` and the `(int)` casts are modelled as integer equality on integer ids.
- `find_users_for_notification` (its permission check is host logic), `get_type`, `is_available`, `get_url`, `get_redirect_url`, `get_email_template`, `get_reference`, `get_email_template_variables` and `$notification_option`. These are constants or formatting over foreign calls (`append_sid`, `censor_text`, `generate_board_url`, `htmlspecialchars_decode`).
- `language/uk/info_acp_thanks.php` is a static string table, and `migrations/v_3_1_0.php` is a declarative host migration. Neither has logic to model.
