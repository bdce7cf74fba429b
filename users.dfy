/**
 The user records that the two relationship feeds return. The program
 compares records only by `username`; `pk` stands for the record's other
 fields, so two records can share a username and still differ.
 */
module Users {

  /** One account as returned by the followers or the following feed. */
  datatype User = User(pk: int, username: string)

  /** `users.map(user => user.username)`: the usernames, in order, one per record. */
  function Usernames(users: seq<User>): (names: seq<string>)
    ensures |names| == |users|
    ensures forall i :: 0 <= i < |users| ==> names[i] == users[i].username
  {
    if users == [] then [] else [users[0].username] + Usernames(users[1..])
  }

  /** `new Set(users.map(({ username }) => username))`: the usernames occurring in `users`. */
  function UsernameSet(users: seq<User>): (names: set<string>)
    ensures forall u :: u in users ==> u.username in names
    ensures forall n :: n in names ==> exists u :: u in users && u.username == n
  {
    var listed := Usernames(users);
    assert forall u :: u in users ==> u.username in listed by {
      forall u | u in users ensures u.username in listed {
        var i :| 0 <= i < |users| && users[i] == u;
        assert listed[i] == u.username;
      }
    }
    set n | n in listed
  }
}
