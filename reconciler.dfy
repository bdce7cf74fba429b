/**
 The friendship reconciler: from the followers list and the following list
 it derives who follows back (mutual), who does not follow back, and whom
 the account does not follow back. Membership is decided on the exact
 username string against the username set of the other list; each derived
 list is a filter of one source list, so it keeps that list's order and its
 duplicates.
 */
module Reconciler {
  import opened Users
  import opened Seqs

  /**
   The test `({ username }) => names.has(username)`: it looks at nothing but
   the username, and passes exactly the users whose username is in `names`.
   */
  function HasName(names: set<string>): (test: User -> bool)
    ensures forall u: User, v: User :: u.username == v.username ==> test(u) == test(v)
    ensures forall u: User :: test(u) <==> u.username in names
  {
    (u: User) => u.username in names
  }

  /**
   The test `({ username }) => !names.has(username)`: the exact complement
   of `HasName(names)`, passing the users whose username is not in `names`.
   */
  function LacksName(names: set<string>): (test: User -> bool)
    ensures forall u: User :: test(u) == !HasName(names)(u)
    ensures forall u: User :: test(u) <==> u.username !in names
  {
    (u: User) => u.username !in names
  }

  /** The three derived lists. */
  datatype Friendship = Friendship(
    mutual: seq<User>,
    notFollowbackYou: seq<User>,
    notGetYourFollowback: seq<User>)

  /**
   Builds the username set of each list, then filters: `mutual` and
   `notFollowbackYou` from `following` by the followers' usernames,
   `notGetYourFollowback` from `followers` by the following usernames.
   */
  function Reconcile(followers: seq<User>, following: seq<User>): (r: Friendship)
    ensures forall u :: u in r.mutual <==> u in following && u.username in UsernameSet(followers)
    ensures forall u :: u in r.notFollowbackYou <==> u in following && u.username !in UsernameSet(followers)
    ensures forall u :: u in r.notGetYourFollowback <==> u in followers && u.username !in UsernameSet(following)
  {
    var followerUsers := UsernameSet(followers);
    var followingUsers := UsernameSet(following);
    Friendship(
      Filter(following, HasName(followerUsers)),
      Filter(following, LacksName(followerUsers)),
      Filter(followers, LacksName(followingUsers)))
  }

  /**
   `mutual` is `following` with exactly the entries whose username is a
   follower's kept: `idx` gives their positions in `following`, in order.
   */
  lemma MutualKeepsFollowingOrder(followers: seq<User>, following: seq<User>) returns (idx: seq<int>)
    ensures Selects(following, HasName(UsernameSet(followers)), idx, Reconcile(followers, following).mutual)
  {
    idx := FilterSelects(following, HasName(UsernameSet(followers)));
  }

  /**
   `notFollowbackYou` is `following` with exactly the entries whose username
   is not a follower's kept, in order.
   */
  lemma NotFollowbackYouKeepsFollowingOrder(followers: seq<User>, following: seq<User>) returns (idx: seq<int>)
    ensures Selects(following, LacksName(UsernameSet(followers)), idx, Reconcile(followers, following).notFollowbackYou)
  {
    idx := FilterSelects(following, LacksName(UsernameSet(followers)));
  }

  /**
   `notGetYourFollowback` is `followers` with exactly the entries whose
   username is not among the following kept, in order.
   */
  lemma NotGetYourFollowbackKeepsFollowersOrder(followers: seq<User>, following: seq<User>) returns (idx: seq<int>)
    ensures Selects(followers, LacksName(UsernameSet(following)), idx, Reconcile(followers, following).notGetYourFollowback)
  {
    idx := FilterSelects(followers, LacksName(UsernameSet(following)));
  }

  /**
   Every entry of `following` lands in exactly one of `mutual` and
   `notFollowbackYou`, as often as it occurs in `following`.
   */
  lemma FollowingPartition(followers: seq<User>, following: seq<User>)
    ensures var r := Reconcile(followers, following);
      && multiset(r.mutual) + multiset(r.notFollowbackYou) == multiset(following)
      && |r.mutual| + |r.notFollowbackYou| == |following|
      && (forall u :: u in following ==> (u in r.mutual <==> u !in r.notFollowbackYou))
  {
    var names := UsernameSet(followers);
    FilterComplement(following, HasName(names), LacksName(names));
  }

  /**
   Filtering never collapses duplicates: an entry that passes occurs in a
   derived list exactly as often as in its source list.
   */
  lemma DuplicatesKept(followers: seq<User>, following: seq<User>, u: User)
    ensures var r := Reconcile(followers, following);
      && multiset(r.mutual)[u] == (if u.username in UsernameSet(followers) then multiset(following)[u] else 0)
      && multiset(r.notFollowbackYou)[u] == (if u.username in UsernameSet(followers) then 0 else multiset(following)[u])
      && multiset(r.notGetYourFollowback)[u] == (if u.username in UsernameSet(following) then 0 else multiset(followers)[u])
  {
    FilterMultiplicity(following, HasName(UsernameSet(followers)), u);
    FilterMultiplicity(following, LacksName(UsernameSet(followers)), u);
    FilterMultiplicity(followers, LacksName(UsernameSet(following)), u);
  }

  /** A username appears in `mutual` if and only if it occurs in both lists. */
  lemma MutualNames(followers: seq<User>, following: seq<User>)
    ensures UsernameSet(Reconcile(followers, following).mutual) == UsernameSet(following) * UsernameSet(followers)
  {
  }

  /** The usernames of `notFollowbackYou` are those followed but not following back. */
  lemma NotFollowbackYouNames(followers: seq<User>, following: seq<User>)
    ensures UsernameSet(Reconcile(followers, following).notFollowbackYou) == UsernameSet(following) - UsernameSet(followers)
  {
  }

  /** The usernames of `notGetYourFollowback` are the followers' not followed back. */
  lemma NotGetYourFollowbackNames(followers: seq<User>, following: seq<User>)
    ensures UsernameSet(Reconcile(followers, following).notGetYourFollowback) == UsernameSet(followers) - UsernameSet(following)
  {
  }

  /**
   The three tests are pairwise exclusive on usernames: no username is in
   two of the three derived lists.
   */
  lemma DerivedNamesDisjoint(followers: seq<User>, following: seq<User>)
    ensures var r := Reconcile(followers, following);
      && UsernameSet(r.mutual) !! UsernameSet(r.notFollowbackYou)
      && UsernameSet(r.mutual) !! UsernameSet(r.notGetYourFollowback)
      && UsernameSet(r.notFollowbackYou) !! UsernameSet(r.notGetYourFollowback)
  {
    NotFollowbackYouNames(followers, following);
    NotGetYourFollowbackNames(followers, following);
  }

  /**
   Followers a, b and following b, c, with three distinct usernames: b is
   mutual, c does not follow back, a is not followed back.
   */
  lemma SmallScenario(a: User, b: User, c: User)
    requires a.username != b.username && b.username != c.username && a.username != c.username
    ensures Reconcile([a, b], [b, c]) == Friendship([b], [c], [a])
  {
    PairNames(a, b);
    PairNames(b, c);
    FilterPair(b, c, HasName(UsernameSet([a, b])));
    FilterPair(b, c, LacksName(UsernameSet([a, b])));
    FilterPair(a, b, LacksName(UsernameSet([b, c])));
  }

  /** The username set of a two-entry list. */
  lemma PairNames(x: User, y: User)
    ensures UsernameSet([x, y]) == {x.username, y.username}
  {
    assert [x, y][1..] == [y];
    assert Usernames([x, y]) == [x.username, y.username];
  }
}
