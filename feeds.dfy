/**
 Draining a paginated feed. The feed is the API client's object: each call
 to `items()` requests the next page and moves the feed's position on, and
 `isMoreAvailable()` says whether the last response announced another page.
 Here the pages the server would serve are fixed up front, which makes the
 feed finite; the program itself has no bound and relies on the server to
 stop announcing pages.
 */
module Feeds {

  /** The pages joined end to end, in order. */
  function Concat<T>(pages: seq<seq<T>>): seq<T>
  {
    if pages == [] then [] else pages[0] + Concat(pages[1..])
  }

  /** Fetching one more page appends exactly that page to the accumulated items. */
  lemma {:induction false} ConcatAppend<T>(pages: seq<seq<T>>, page: seq<T>)
    ensures Concat(pages + [page]) == Concat(pages) + page
  {
    if pages != [] {
      assert (pages + [page])[1..] == pages[1..] + [page];
      ConcatAppend(pages[1..], page);
    }
  }

  /** An item is accumulated if and only if it occurs on some page. */
  lemma {:induction false} ConcatMembers<T>(pages: seq<seq<T>>, x: T)
    ensures x in Concat(pages) <==> exists i :: 0 <= i < |pages| && x in pages[i]
  {
    if pages != [] {
      ConcatMembers(pages[1..], x);
      if x in Concat(pages[1..]) {
        var i :| 0 <= i < |pages[1..]| && x in pages[1..][i];
        assert x in pages[i + 1];
      }
      if exists i :: 0 <= i < |pages| && x in pages[i] {
        var i :| 0 <= i < |pages| && x in pages[i];
        if i > 0 {
          assert x in pages[1..][i - 1];
        }
      }
    }
  }

  /** The sum of the page sizes. */
  function TotalSize<T>(pages: seq<seq<T>>): nat
  {
    if pages == [] then 0 else |pages[0]| + TotalSize(pages[1..])
  }

  /** The number of accumulated items is the total of the page sizes. */
  lemma {:induction false} ConcatLength<T>(pages: seq<seq<T>>)
    ensures |Concat(pages)| == TotalSize(pages)
  {
    if pages != [] {
      ConcatLength(pages[1..]);
    }
  }

  /**
   A relationship feed. `pages` are the pages the server serves, in order;
   `cursor` is the index of the next page to request. `requests` counts the
   calls to `Items`.
   */
  class Feed<T> {
    const pages: seq<seq<T>>
    var cursor: nat
    ghost var requests: nat

    ghost predicate Valid()
      reads this
    {
      cursor <= |pages|
    }

    constructor (pages: seq<seq<T>>)
      ensures Valid()
      ensures this.pages == pages && cursor == 0 && requests == 0
    {
      this.pages := pages;
      cursor := 0;
      requests := 0;
    }

    /**
     `isMoreAvailable()`, the condition of the drain loop: true exactly
     while some page remains to be requested.
     */
    function IsMoreAvailable(): (more: bool)
      reads this
      requires Valid()
      ensures more <==> pages[cursor..] != []
    {
      cursor < |pages|
    }

    /**
     `items()`: requests the next page and moves past it. A feed with no
     page left answers with an empty page and stays where it is (this is
     what the first request of an empty relationship list returns).
     */
    method Items() returns (page: seq<T>)
      requires Valid()
      modifies this
      ensures Valid() && requests == old(requests) + 1
      ensures old(cursor) < |pages| ==> page == pages[old(cursor)] && cursor == old(cursor) + 1
      ensures old(cursor) == |pages| ==> page == [] && cursor == old(cursor)
    {
      requests := requests + 1;
      if cursor < |pages| {
        page := pages[cursor];
        cursor := cursor + 1;
      } else {
        page := [];
      }
    }
  }

  /**
   `getAllFeedItems`: requests a page, appends it, and repeats while the feed
   announces more. The first request is made unconditionally, so at least one
   request is made; the loop stops exactly when no page remains, and the
   result is every page from the starting position on, in fetch order.
   */
  method GetAllFeedItems<T>(feed: Feed<T>) returns (items: seq<T>)
    requires feed.Valid()
    modifies feed
    ensures feed.Valid() && !feed.IsMoreAvailable()
    ensures items == Concat(feed.pages[old(feed.cursor)..])
    ensures feed.requests == old(feed.requests) +
      (if old(feed.cursor) < |feed.pages| then |feed.pages| - old(feed.cursor) else 1)
  {
    ghost var start := feed.cursor;
    items := [];
    var more := true;
    while more
      invariant feed.Valid() && start <= feed.cursor
      invariant items == Concat(feed.pages[start..feed.cursor])
      invariant !more ==> feed.cursor == |feed.pages|
      invariant more ==> feed.cursor < |feed.pages| || feed.requests == old(feed.requests)
      invariant feed.requests == old(feed.requests) ==> more && feed.cursor == start
      invariant feed.requests == old(feed.requests) + (feed.cursor - start)
        || (start == feed.cursor == |feed.pages| && feed.requests == old(feed.requests) + 1)
      decreases |feed.pages| - feed.cursor, if more then 1 else 0
    {
      ghost var before := feed.cursor;
      var page := feed.Items();
      if before < feed.cursor {
        assert feed.pages[start..feed.cursor] == feed.pages[start..before] + [page];
        ConcatAppend(feed.pages[start..before], page);
      }
      items := items + page;
      more := feed.IsMoreAvailable();
    }
    assert feed.pages[start..feed.cursor] == feed.pages[start..];
  }

  /**
   A feed serving the pages [a, b] and [c]: draining it yields a, b, c in
   that order after exactly two requests.
   */
  method DrainTwoPages<T>(a: T, b: T, c: T) returns (items: seq<T>, ghost requests: nat)
    ensures items == [a, b, c] && requests == 2
  {
    var feed := new Feed([[a, b], [c]]);
    items := GetAllFeedItems(feed);
    requests := feed.requests;
    assert feed.pages[0..] == [[a, b], [c]];
    assert Concat([[a, b], [c]]) == [a, b] + Concat([[c]]);
  }
}
