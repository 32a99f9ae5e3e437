/**
 * How `create_insert_array` merges the thanking user into the thanker list
 * it is handed: a user already listed leaves the list as it is, a new one
 * goes in front with a count of 1.
 */
module InsertArray {
  import opened Wrappers
  import opened Thankers

  /** `array_merge` refuses a `thankers` entry that is set but is not an array. */
  datatype MergeError = ThankersNotAnArray

  /** The record a new thanker starts with. */
  function NewThanker(userId: int): Thanker
  {
    Thanker(userId, Some(1))
  }

  /** The thanker list `create_insert_array` stores for user `userId`. */
  function Merge(field: ThankersField, userId: int): (r: Result<seq<Thanker>, MergeError>)
    ensures r.Failure? <==> field.NotAList?
    ensures r.Success? ==> Contains(r.value, userId)
    ensures field.Items? && Contains(field.items, userId) ==> r == Success(field.items)
    ensures field.Items? && !Contains(field.items, userId) ==>
      r.Success? && r.value[0] == NewThanker(userId) && r.value[1..] == field.items
    ensures field.Unset? ==> r == Success([NewThanker(userId)])
    ensures r.Success? ==> forall v :: Contains(r.value, v) <==> v == userId || Contains(Listed(field), v)
    ensures r.Success? && UniqueIds(Listed(field)) ==> UniqueIds(r.value)
  {
    if field.Items? && Contains(field.items, userId) then Success(field.items)
    else match field
      case Unset =>
        assert [NewThanker(userId)][0].userId == userId;
        Success([NewThanker(userId)])
      case Items(items) =>
        forall v { ContainsFront(NewThanker(userId), items, v); }
        Success([NewThanker(userId)] + items)
      case NotAList => Failure(ThankersNotAnArray)
  }

  /** Merging the same user again changes nothing. */
  lemma MergeIdempotent(field: ThankersField, userId: int)
    requires Merge(field, userId).Success?
    ensures Merge(Items(Merge(field, userId).value), userId) == Merge(field, userId)
  {
  }

  /** An empty or missing list becomes the single record of the new user. */
  lemma MergeIntoEmpty(field: ThankersField, userId: int)
    requires field == Unset || field == Items([])
    ensures Merge(field, userId) == Success([NewThanker(userId)])
  {
    assert [NewThanker(userId)] + [] == [NewThanker(userId)];
  }
}
