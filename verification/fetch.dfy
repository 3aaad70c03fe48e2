/**
 * `getLogs`: ask Auth0 for a page of logs from the checkpoint, keep the page,
 * move the checkpoint to the page's last `_id`, and ask again, until a page is
 * empty or has no positive `length`, or a request fails, or a non-empty string
 * body makes `result.forEach` throw.
 */
module Fetch {
  import opened Wrappers
  import opened JsText
  import opened LogRecords

  /**
   * What one `getLogsFromAuth0` call hands back: an error; a JSON array of logs;
   * a string, which is what `request` with `json: true` leaves of a body that is
   * not JSON (an HTML error page, say); or any other JSON value (null, an object,
   * a number, a boolean), none of which has a positive `length`.
   */
  datatype Page = FetchError(error: string) | Logs(records: seq<LogRecord>) | Body(text: string) | NotAnArray

  /** The TypeError `result.forEach(...)` raises when `result` is a string. */
  const ForEachTypeError := "TypeError: result.forEach is not a function"

  /** The Auth0 logs endpoint, answering a request by its `take` and `from` query parameters. */
  type Feed = (JsInt, Cursor) -> Page

  /**
   * How `getLogs` ends: every log fetched and the checkpoint reached; or the
   * error of a failed request alone; or an exception thrown out of the callback.
   */
  datatype FetchResult =
    | Fetched(logs: seq<LogRecord>, checkpointId: Cursor)
    | FetchFailed(error: string)
    | FetchThrew(exception: string)

  /** `result && result.length > 0` is false: the end of the logs. */
  predicate IsLastPage(p: Page) {
    p.NotAnArray? || (p.Logs? && p.records == []) || (p.Body? && p.text == [])
  }

  /** `result && result.length > 0` holds but `result` has no `forEach`: a non-empty string. */
  predicate Throws(p: Page) {
    p.Body? && p.text != []
  }

  /** `result[result.length - 1]._id`, the cursor of the next request. */
  function LastId(page: seq<LogRecord>): Cursor
    requires page != []
  {
    Some(page[|page| - 1].id)
  }

  function Prepend(page: seq<LogRecord>, r: Option<FetchResult>): Option<FetchResult> {
    match r
    case Some(Fetched(rest, cp)) => Some(Fetched(page + rest, cp))
    case _ => r
  }

  /** Appending two pages in turn is appending them together. */
  lemma PrependTwice(before: seq<LogRecord>, page: seq<LogRecord>, r: Option<FetchResult>)
    ensures Prepend(before, Prepend(page, r)) == Prepend(before + page, r)
  {
    if r.Some? && r.value.Fetched? {
      assert before + (page + r.value.logs) == before + page + r.value.logs;
    }
  }

  /**
   * What `getLogs(from, callback)` calls back with, if the feed reaches its end
   * or an error within `fuel` requests; None if it does not.
   */
  function Paginate(feed: Feed, take: JsInt, from: Cursor, fuel: nat): Option<FetchResult>
    decreases fuel
  {
    if fuel == 0 then None
    else match feed(take, from)
      case FetchError(e) => Some(FetchFailed(e))
      case NotAnArray => Some(Fetched([], from))
      case Body(text) => if text == [] then Some(Fetched([], from)) else Some(FetchThrew(ForEachTypeError))
      case Logs(page) =>
        if page == [] then Some(Fetched([], from))
        else Prepend(page, Paginate(feed, take, LastId(page), fuel - 1))
  }

  /** The cursor of request `i` when the non-empty pages before it were `pages[..i]`. */
  function CursorAt(start: Cursor, pages: seq<seq<LogRecord>>, i: nat): Cursor
    requires i <= |pages|
    requires i == 0 || pages[i - 1] != []
  {
    if i == 0 then start else LastId(pages[i - 1])
  }

  /** Page `i` of `pages` is the feed's answer at the cursor of request `i`. */
  ghost predicate PageAt(feed: Feed, take: JsInt, start: Cursor, pages: seq<seq<LogRecord>>, i: nat)
    requires i < |pages|
  {
    (i == 0 || pages[i - 1] != []) && feed(take, CursorAt(start, pages, i)) == Logs(pages[i])
  }

  /**
   * Reference reading of the request sequence: `pages` are non-empty, the first
   * is the feed's answer at `start`, and each later one is its answer at the last
   * `_id` of the page before.
   */
  ghost predicate IsChain(feed: Feed, take: JsInt, start: Cursor, pages: seq<seq<LogRecord>>) {
    && (forall i :: 0 <= i < |pages| ==> pages[i] != [])
    && (forall i :: 0 <= i < |pages| ==> PageAt(feed, take, start, pages, i))
  }

  /** The chain is followed by a last page. */
  ghost predicate EndsChain(feed: Feed, take: JsInt, start: Cursor, pages: seq<seq<LogRecord>>) {
    IsChain(feed, take, start, pages) && IsLastPage(feed(take, CursorAt(start, pages, |pages|)))
  }

  /** The chain is followed by a failed request. */
  ghost predicate FailsChain(feed: Feed, take: JsInt, start: Cursor, pages: seq<seq<LogRecord>>, e: string) {
    IsChain(feed, take, start, pages) && feed(take, CursorAt(start, pages, |pages|)) == FetchError(e)
  }

  /** The chain is followed by a string body that makes `forEach` throw. */
  ghost predicate ThrowsChain(feed: Feed, take: JsInt, start: Cursor, pages: seq<seq<LogRecord>>) {
    IsChain(feed, take, start, pages) && Throws(feed(take, CursorAt(start, pages, |pages|)))
  }

  function Flatten(pages: seq<seq<LogRecord>>): seq<LogRecord> {
    if pages == [] then [] else pages[0] + Flatten(pages[1..])
  }

  /** A chain seen from its second request on. */
  lemma ChainTail(feed: Feed, take: JsInt, start: Cursor, pages: seq<seq<LogRecord>>)
    requires IsChain(feed, take, start, pages) && pages != []
    ensures IsChain(feed, take, LastId(pages[0]), pages[1..])
    ensures CursorAt(LastId(pages[0]), pages[1..], |pages| - 1) == CursorAt(start, pages, |pages|)
  {
    var next := LastId(pages[0]);
    var rest := pages[1..];
    forall i | 0 <= i < |rest|
      ensures PageAt(feed, take, next, rest, i)
    {
      assert PageAt(feed, take, start, pages, i + 1);
      assert rest[i] == pages[i + 1];
      assert CursorAt(next, rest, i) == CursorAt(start, pages, i + 1) by {
        if i > 0 { assert rest[i - 1] == pages[i]; }
      }
    }
    if |pages| > 1 {
      assert PageAt(feed, take, start, pages, |pages| - 1);
      assert rest[|rest| - 1] == pages[|pages| - 1];
    }
  }

  /** A page in front of a chain from its last `_id`. */
  lemma ChainCons(feed: Feed, take: JsInt, start: Cursor, page: seq<LogRecord>, pages: seq<seq<LogRecord>>)
    requires page != [] && feed(take, start) == Logs(page)
    requires IsChain(feed, take, LastId(page), pages)
    ensures IsChain(feed, take, start, [page] + pages)
    ensures CursorAt(start, [page] + pages, |pages| + 1) == CursorAt(LastId(page), pages, |pages|)
  {
    var all := [page] + pages;
    forall i | 0 <= i < |all|
      ensures PageAt(feed, take, start, all, i)
    {
      if i > 0 {
        assert PageAt(feed, take, LastId(page), pages, i - 1);
        assert all[i] == pages[i - 1];
        assert all[i - 1] == if i == 1 then page else pages[i - 2];
        assert CursorAt(start, all, i) == CursorAt(LastId(page), pages, i - 1);
      }
    }
    if pages != [] {
      assert PageAt(feed, take, LastId(page), pages, |pages| - 1);
      assert all[|pages|] == pages[|pages| - 1];
    }
  }

  /** A chain extended by the feed's non-empty answer at the cursor it reached. */
  lemma ChainSnoc(feed: Feed, take: JsInt, start: Cursor, pages: seq<seq<LogRecord>>, page: seq<LogRecord>)
    requires IsChain(feed, take, start, pages)
    requires page != [] && feed(take, CursorAt(start, pages, |pages|)) == Logs(page)
    ensures IsChain(feed, take, start, pages + [page])
    ensures CursorAt(start, pages + [page], |pages| + 1) == LastId(page)
  {
    var all := pages + [page];
    forall i | 0 <= i < |all|
      ensures PageAt(feed, take, start, all, i)
    {
      if i < |pages| {
        assert PageAt(feed, take, start, pages, i);
        assert all[i] == pages[i];
        if i > 0 { assert all[i - 1] == pages[i - 1]; }
        assert CursorAt(start, all, i) == CursorAt(start, pages, i);
      } else if i > 0 {
        assert all[i - 1] == pages[i - 1];
      }
    }
  }

  /** The logs of a chain grown by one page are the old logs followed by that page. */
  lemma {:induction false} FlattenSnoc(pages: seq<seq<LogRecord>>, page: seq<LogRecord>)
    ensures Flatten(pages + [page]) == Flatten(pages) + page
    decreases pages
  {
    if pages == [] {
      assert [] + [page] == [page];
      assert Flatten([page]) == page + Flatten([page][1..]);
    } else {
      assert (pages + [page])[1..] == pages[1..] + [page];
      FlattenSnoc(pages[1..], page);
    }
  }

  /**
   * A successful fetch followed a chain of non-empty pages to a last page; the
   * logs are those pages in request order and the checkpoint is the cursor of
   * the last request.
   */
  lemma {:induction false} PaginateFollowsChain(feed: Feed, take: JsInt, start: Cursor, fuel: nat)
    returns (pages: seq<seq<LogRecord>>)
    requires Paginate(feed, take, start, fuel).Some? && Paginate(feed, take, start, fuel).value.Fetched?
    ensures EndsChain(feed, take, start, pages)
    ensures Paginate(feed, take, start, fuel).value.logs == Flatten(pages)
    ensures Paginate(feed, take, start, fuel).value.checkpointId == CursorAt(start, pages, |pages|)
    decreases fuel
  {
    match feed(take, start)
    case NotAnArray => pages := [];
    case Body(_) => pages := [];
    case Logs(page) =>
      if page == [] {
        pages := [];
      } else {
        var rest := PaginateFollowsChain(feed, take, LastId(page), fuel - 1);
        ChainCons(feed, take, start, page, rest);
        pages := [page] + rest;
        assert pages[1..] == rest;
      }
  }

  /** A failed fetch followed a chain of non-empty pages to the failing request; none of those logs is kept. */
  lemma {:induction false} PaginateFailsAfterChain(feed: Feed, take: JsInt, start: Cursor, fuel: nat)
    returns (pages: seq<seq<LogRecord>>)
    requires Paginate(feed, take, start, fuel).Some? && Paginate(feed, take, start, fuel).value.FetchFailed?
    ensures FailsChain(feed, take, start, pages, Paginate(feed, take, start, fuel).value.error)
    decreases fuel
  {
    match feed(take, start)
    case FetchError(e) => pages := [];
    case Logs(page) =>
      var rest := PaginateFailsAfterChain(feed, take, LastId(page), fuel - 1);
      ChainCons(feed, take, start, page, rest);
      pages := [page] + rest;
  }

  /**
   * A fetch that threw followed a chain of non-empty pages to a non-empty string
   * body; the exception is the TypeError of `forEach`, and no log is handed on.
   */
  lemma {:induction false} PaginateThrowsAfterChain(feed: Feed, take: JsInt, start: Cursor, fuel: nat)
    returns (pages: seq<seq<LogRecord>>)
    requires Paginate(feed, take, start, fuel).Some? && Paginate(feed, take, start, fuel).value.FetchThrew?
    ensures ThrowsChain(feed, take, start, pages)
    ensures Paginate(feed, take, start, fuel).value.exception == ForEachTypeError
    decreases fuel
  {
    match feed(take, start)
    case Body(_) => pages := [];
    case Logs(page) =>
      var rest := PaginateThrowsAfterChain(feed, take, LastId(page), fuel - 1);
      ChainCons(feed, take, start, page, rest);
      pages := [page] + rest;
  }

  /** Conversely, a chain ending in a last page is fetched in full, in order, within one request per page and one more. */
  lemma {:induction false} ChainIsFetched(feed: Feed, take: JsInt, start: Cursor, pages: seq<seq<LogRecord>>)
    requires EndsChain(feed, take, start, pages)
    ensures Paginate(feed, take, start, |pages| + 1) == Some(Fetched(Flatten(pages), CursorAt(start, pages, |pages|)))
    decreases pages
  {
    if pages != [] {
      ChainTail(feed, take, start, pages);
      ChainIsFetched(feed, take, LastId(pages[0]), pages[1..]);
      assert PageAt(feed, take, start, pages, 0);
    }
  }

  /** And a chain ending in a failed request fails the whole fetch, whatever pages came before. */
  lemma {:induction false} ChainThenErrorFails(feed: Feed, take: JsInt, start: Cursor, pages: seq<seq<LogRecord>>, e: string)
    requires FailsChain(feed, take, start, pages, e)
    ensures Paginate(feed, take, start, |pages| + 1) == Some(FetchFailed(e))
    decreases pages
  {
    if pages != [] {
      ChainTail(feed, take, start, pages);
      ChainThenErrorFails(feed, take, LastId(pages[0]), pages[1..], e);
      assert PageAt(feed, take, start, pages, 0);
    }
  }

  /** And a chain ending in a non-empty string body throws, whatever pages came before. */
  lemma {:induction false} ChainThenStringThrows(feed: Feed, take: JsInt, start: Cursor, pages: seq<seq<LogRecord>>)
    requires ThrowsChain(feed, take, start, pages)
    ensures Paginate(feed, take, start, |pages| + 1) == Some(FetchThrew(ForEachTypeError))
    decreases pages
  {
    if pages != [] {
      ChainTail(feed, take, start, pages);
      ChainThenStringThrows(feed, take, LastId(pages[0]), pages[1..]);
      assert PageAt(feed, take, start, pages, 0);
    }
  }

  /** Once the feed ends within `fuel` requests, more fuel gives the same result. */
  lemma {:induction false} PaginateFuelIrrelevant(feed: Feed, take: JsInt, start: Cursor, fuel: nat, more: nat)
    requires Paginate(feed, take, start, fuel).Some? && fuel <= more
    ensures Paginate(feed, take, start, more) == Paginate(feed, take, start, fuel)
    decreases fuel
  {
    match feed(take, start)
    case Logs(page) =>
      if page != [] {
        PaginateFuelIrrelevant(feed, take, LastId(page), fuel - 1, more - 1);
      }
    case _ =>
  }

  /** The checkpoint reached is the `_id` of the last log fetched, or the starting cursor when nothing was fetched. */
  lemma {:induction false} PaginateCheckpoint(feed: Feed, take: JsInt, start: Cursor, fuel: nat)
    requires Paginate(feed, take, start, fuel).Some? && Paginate(feed, take, start, fuel).value.Fetched?
    ensures var r := Paginate(feed, take, start, fuel).value;
      r.checkpointId == if r.logs == [] then start else Some(r.logs[|r.logs| - 1].id)
    decreases fuel
  {
    match feed(take, start)
    case Logs(page) =>
      if page != [] {
        PaginateCheckpoint(feed, take, LastId(page), fuel - 1);
      }
    case _ =>
  }
}
