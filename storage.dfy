/**
 The record `storeToJson` writes for one list: the fetch time and the
 usernames of the list. The clock reading is passed in; turning the record
 into JSON text and writing the file are not modelled.
 */
module Storage {
  import opened Users

  /** `{ fetched_at, data }` as written to one of the five output files. */
  datatype StoredRecord = StoredRecord(fetchedAt: string, data: seq<string>)

  /** The record for `users`, stamped with the time `fetchedAt`. */
  function ToStoredRecord(fetchedAt: string, users: seq<User>): (rec: StoredRecord)
    ensures rec.fetchedAt == fetchedAt
    ensures |rec.data| == |users|
    ensures forall i :: 0 <= i < |users| ==> rec.data[i] == users[i].username
  {
    StoredRecord(fetchedAt, Usernames(users))
  }

  /** The stored usernames are exactly the username set of the list. */
  lemma StoredNames(fetchedAt: string, users: seq<User>)
    ensures forall n :: n in ToStoredRecord(fetchedAt, users).data <==> n in UsernameSet(users)
  {
  }
}
