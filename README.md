# ig-friendship, modelled in Dafny

The program logs in to an Instagram account, fetches its followers and the
accounts it follows, and works out three lists: `mutual` (followed accounts
that follow back), `notFollowbackYou` (followed accounts that do not follow
back) and `notGetYourFollowback` (followers the account does not follow
back). It then writes each list to a JSON file as its usernames plus a fetch
timestamp.

This project models the three parts of `index.ts` that are logic rather than
glue:

- `users.dfy` (module `Users`): the user record and the username
  projection `users.map(u => u.username)` with the username set built from
  it.
- `seqs.dfy` (module `Seqs`): `Array.prototype.filter` as `Filter`, with an
  independent description of its result (`Selects`: the strictly increasing
  list of exactly the positions that pass, and the elements there).
- `reconciler.dfy` (module `Reconciler`): the friendship reconciler, its
  three filters and the facts about them: order, partition, multiplicities,
  and username-level set identities.
- `feeds.dfy` (module `Feeds`): the paginated feed as a class with a page
  cursor, and `getAllFeedItems` as a do-while loop over it, proved to return
  the concatenation of the remaining pages.
- `storage.dfy` (module `Storage`): the `{ fetched_at, data }` record that
  `storeToJson` builds.

The feed holds a finite sequence of pages: that is the model's premise. The
program has no bound of its own and stops only when the server stops
announcing more pages. The wall-clock timestamp is a parameter of
`ToStoredRecord`.

## Model

| member | source | states |
|---|---|---|
| Users.Usernames | index.ts:17 | one username per user, same length, element `i` is the username of user `i` |
| Users.UsernameSet | index.ts:82-83 | a username is in the set exactly when some user of the list has it |
| Seqs.Filter | index.ts:86-94 | the result is no longer than the input and holds exactly the input's elements that pass the test |
| Seqs.FilterSelects | index.ts:86-94 | the filtered list consists of the elements at exactly the passing positions, in increasing position order |
| Seqs.FilterMultiplicity | index.ts:86-94 | a passing value occurs in the result as often as in the input; a failing one does not occur |
| Seqs.FilterComplement | index.ts:86-91 | filtering by a test and by its negation gives two lists whose multisets add up to the input's, and whose lengths add up to its length |
| Reconciler.HasName | index.ts:86-88 | the callback `({ username }) => followerUsers.has(username)`: depends only on the username and passes exactly the users whose username is in the set |
| Reconciler.LacksName | index.ts:89-94 | the negated callbacks `({ username }) => !set.has(username)`: the exact complement of `HasName` on the same set, passing exactly the users whose username is not in it |
| Reconciler.Reconcile | index.ts:82-94 | an entry is in `mutual` iff it is in `following` and its username is a follower's; in `notFollowbackYou` iff it is in `following` and its username is not a follower's; in `notGetYourFollowback` iff it is in `followers` and its username is not among the following |
| Reconciler.MutualKeepsFollowingOrder | index.ts:86-88 | `mutual` is the entries of `following` at exactly the positions whose username is a follower's, in `following` order |
| Reconciler.NotFollowbackYouKeepsFollowingOrder | index.ts:89-91 | `notFollowbackYou` is the entries of `following` at exactly the positions whose username is not a follower's, in `following` order |
| Reconciler.NotGetYourFollowbackKeepsFollowersOrder | index.ts:92-94 | `notGetYourFollowback` is the entries of `followers` at exactly the positions whose username is not among the following, in `followers` order |
| Reconciler.FollowingPartition | index.ts:86-91 | `mutual` and `notFollowbackYou` together are `following` as a multiset, their lengths add up to its length, and every entry of `following` is in exactly one of them |
| Reconciler.DuplicatesKept | index.ts:82-94 | each derived list keeps every occurrence of a passing entry and none of a failing one |
| Reconciler.MutualNames | index.ts:82-88 | a username appears in `mutual` iff it occurs in both `following` and `followers` |
| Reconciler.NotFollowbackYouNames | index.ts:82-91 | the usernames of `notFollowbackYou` are the following usernames minus the follower usernames |
| Reconciler.NotGetYourFollowbackNames | index.ts:82-94 | the usernames of `notGetYourFollowback` are the follower usernames minus the following usernames |
| Reconciler.DerivedNamesDisjoint | index.ts:86-94 | the three derived lists have pairwise disjoint username sets: no username is in two of them |
| Reconciler.SmallScenario | index.ts:82-94 | for any three users with distinct usernames, followers a, b and following b, c give mutual [b], notFollowbackYou [c], notGetYourFollowback [a] |
| Feeds.ConcatAppend | index.ts:30 | appending a fetched page to the accumulator gives the concatenation of the pages fetched so far |
| Feeds.ConcatMembers | index.ts:25-34 | an item is in the drained result iff it occurs on some page |
| Feeds.ConcatLength | index.ts:25-34 | the drained result has as many items as the pages together |
| Feeds.Feed.constructor | index.ts:72-73 | a new feed stands before its first page and has served no request |
| Feeds.Feed.IsMoreAvailable | index.ts:31 | `feed.isMoreAvailable()`, the do-while's condition: true exactly while some page remains to be requested |
| Feeds.Feed.Items | index.ts:29 | one request: returns the next page and moves past it, or an empty page when none is left |
| Feeds.GetAllFeedItems | index.ts:25-34 | returns the remaining pages concatenated in fetch order, stops exactly when no page is left, and makes one request per remaining page, at least one |
| Feeds.DrainTwoPages | index.ts:25-34 | a feed serving [a, b] then [c] drains to [a, b, c] in two requests |
| Storage.ToStoredRecord | index.ts:17-20 | the record carries the given timestamp, and its `data` has one entry per user with entry `i` the username of user `i` |
| Storage.StoredNames | index.ts:17-20 | the stored usernames are exactly the username set of the list |

## Left out

- The credential prompt and the `prompt.message` setting (index.ts:8-9, 51-63): terminal I/O.
- Device generation, the pre-login flow, login and the construction of the two feeds by the API client (index.ts:65-73): a foreign library and network calls. Only the feed's two operations are modelled, over a fixed finite list of pages.
- `Promise.all` for fetching and for storing (index.ts:76-79, 97-103): the calls are treated as sequential; each drain and each write touches only its own state.
- `JSON.stringify` formatting, `fs.writeFile` and `new Date().toISOString()` (index.ts:19, 22): library serialisation, file I/O and the clock. The timestamp is a parameter of `ToStoredRecord`.
- `consoleInfo`, the count printouts and the catch-all `console.log(error)` (index.ts:36-46, 105-114): console output and error plumbing. The counts are the lengths of the lists, which `FollowingPartition` relates.
- A rejected `items()` request (network error mid-drain): the model's feed never fails, because the failure only propagates to the top-level catch.
- Feeds.Feed.Items: what the API client does when asked for a page after the last one is not visible here; the model answers with an empty page, which is also the answer to the first request for an empty list.
