/**
 * The driver of scripts/fetch-events.js: the paginated query of the
 * database (fetchAllPages) and main, which checks the credentials, runs the
 * pipeline over the rows and writes the feed.
 *
 * The network is a sequence of responses: the k-th request sent is answered
 * by the k-th response, and a request with no response left is one whose
 * fetch rejects. The file written and the exit code form the outcome of a run.
 */
module Fetch {
  import opened Js
  import opened NotionProps
  import opened Events

  const PageSize := 100
  const RowCap := 500

  /** The parts of a query response body the loop reads. */
  datatype Payload = Payload(results: Option<seq<Row>>, hasMore: bool, nextCursor: Option<string>)

  /** An answer to one query: a body, a non-2xx status, or a body that is not JSON. */
  datatype Response = Ok(payload: Payload) | NotOk(status: int) | Unreadable

  /** The body of one query: `{ page_size, start_cursor? }`. */
  datatype Request = Request(pageSize: int, startCursor: Option<string>)

  /** Why fetchAllPages throws. */
  datatype FetchError = HttpError(status: int) | BadBody | NoResponse

  /** What fetchAllPages resolves to, with the requests it sent. */
  datatype Fetched = Fetched(rows: seq<Row>, requests: seq<Request>)

  /** The rows of a page of results; a page without a result list has none. */
  function PageRows(p: Payload): seq<Row> {
    if p.results.Some? then p.results.value else []
  }

  /** The cursor of the next page, when the page says more follow; otherwise none. */
  function NextCursor(p: Payload): Option<string> {
    if p.hasMore then p.nextCursor else None
  }

  /** The body sent with a cursor: start_cursor only when the cursor is truthy. */
  function RequestFor(cursor: Option<string>): Request {
    Request(PageSize, if Truthy(cursor) then cursor else None)
  }

  // ---------------------------------------------------------------------
  // The loop as a function

  /** The loop from the request for `responses[k]` on, with `rows` pulled so far. */
  function Pull(responses: seq<Response>, k: nat, cursor: Option<string>, rows: seq<Row>, sent: seq<Request>)
    : (r: Result<Fetched, FetchError>)
    requires k <= |responses|
    ensures r.Success? ==> |sent| < |r.value.requests| && r.value.requests[..|sent|] == sent
    ensures r.Success? ==> |rows| <= |r.value.rows| && r.value.rows[..|rows|] == rows
    ensures r.Success? ==> k < |responses| && r.value.requests[|sent|] == RequestFor(cursor)
    ensures r.Success? ==> |r.value.requests| - |sent| <= |responses| - k
    decreases |responses| - k
  {
    var sent' := sent + [RequestFor(cursor)];
    if k == |responses| then Failure(NoResponse)
    else match responses[k]
      case NotOk(status) => Failure(HttpError(status))
      case Unreadable => Failure(BadBody)
      case Ok(p) =>
        var rows' := rows + PageRows(p);
        if Truthy(NextCursor(p)) && |rows'| < RowCap then
          var r := Pull(responses, k + 1, NextCursor(p), rows', sent');
          assert r.Success? ==> r.value.requests[..|sent'|][..|sent|] == r.value.requests[..|sent|];
          assert r.Success? ==> r.value.rows[..|rows'|][..|rows|] == r.value.rows[..|rows|];
          r
        else Success(Fetched(rows', sent'))
  }

  /** fetchAllPages: on success, at least one request was sent, the first without a cursor. */
  function FetchAll(responses: seq<Response>): (r: Result<Fetched, FetchError>)
    ensures r.Success? ==> 1 <= |r.value.requests| <= |responses| && r.value.requests[0] == Request(PageSize, None)
  {
    Pull(responses, 0, None, [], [])
  }

  // ---------------------------------------------------------------------
  // A reference description, page by page

  predicate AllOk(responses: seq<Response>, n: nat) {
    n <= |responses| && forall k :: 0 <= k < n ==> responses[k].Ok?
  }

  /** The results of the first `n` pages, concatenated in page order. */
  function RowsUpTo(responses: seq<Response>, n: nat): seq<Row>
    requires AllOk(responses, n)
  {
    if n == 0 then [] else RowsUpTo(responses, n - 1) + PageRows(responses[n - 1].payload)
  }

  /** The cursor the request for page `k` is built from. */
  function CursorBefore(responses: seq<Response>, k: nat): Option<string>
    requires AllOk(responses, k)
  {
    if k == 0 then None else NextCursor(responses[k - 1].payload)
  }

  /** The requests for the first `n` pages: the k-th carries the cursor left by page k - 1. */
  function RequestsUpTo(responses: seq<Response>, n: nat): (r: seq<Request>)
    requires AllOk(responses, n)
    ensures |r| == n
    ensures forall k :: 0 <= k < n ==> r[k] == RequestFor(CursorBefore(responses, k))
  {
    if n == 0 then [] else RequestsUpTo(responses, n - 1) + [RequestFor(CursorBefore(responses, n - 1))]
  }

  /** Page `k` answers with a body, leaves a truthy cursor and the total under the cap. */
  predicate Continues(responses: seq<Response>, k: nat) {
    AllOk(responses, k + 1)
    && Truthy(NextCursor(responses[k].payload)) && |RowsUpTo(responses, k + 1)| < RowCap
  }

  /** Every page before `n` answered with a body and asked for another one. */
  predicate ContinuesBefore(responses: seq<Response>, n: nat) {
    AllOk(responses, n) && forall k :: 0 <= k < n ==> Continues(responses, k)
  }

  /** The loop state after `k` pages that all continue. */
  function PullAt(responses: seq<Response>, k: nat): Result<Fetched, FetchError>
    requires AllOk(responses, k)
  {
    Pull(responses, k, CursorBefore(responses, k), RowsUpTo(responses, k), RequestsUpTo(responses, k))
  }

  /** After `k` pages that all continue, the loop is at page `k` with their rows and requests. */
  lemma {:induction false} PullAfter(responses: seq<Response>, k: nat)
    requires ContinuesBefore(responses, k)
    ensures FetchAll(responses) == PullAt(responses, k)
  {
    if k > 0 {
      assert Continues(responses, k - 1);
      assert ContinuesBefore(responses, k - 1);
      PullAfter(responses, k - 1);
    }
  }

  /** Page `n - 1` is where the loop leaves: the pages before it continued, it did not. */
  predicate StopsAt(responses: seq<Response>, n: nat) {
    1 <= n && ContinuesBefore(responses, n - 1) && AllOk(responses, n) && !Continues(responses, n - 1)
  }

  lemma {:induction false} PullSucceeds(responses: seq<Response>, k: nat) returns (n: nat)
    requires ContinuesBefore(responses, k) && PullAt(responses, k).Success?
    ensures StopsAt(responses, n) && PullAt(responses, k).value == Fetched(RowsUpTo(responses, n), RequestsUpTo(responses, n))
    decreases |responses| - k
  {
    assert AllOk(responses, k + 1);
    if Continues(responses, k) {
      assert ContinuesBefore(responses, k + 1);
      n := PullSucceeds(responses, k + 1);
    } else {
      n := k + 1;
    }
  }

  /** A fetch that succeeds sent one request per page up to the page that stops the loop,
      and returns those pages' rows concatenated in order. */
  lemma FetchAllSucceeds(responses: seq<Response>)
    requires FetchAll(responses).Success?
    ensures var f := FetchAll(responses).value;
            && StopsAt(responses, |f.requests|)
            && f.rows == RowsUpTo(responses, |f.requests|)
            && f.requests == RequestsUpTo(responses, |f.requests|)
  {
    var n := PullSucceeds(responses, 0);
  }

  /** Conversely, the pages up to the first that stops the loop are exactly what is fetched. */
  lemma FetchAllStopsAt(responses: seq<Response>, n: nat)
    requires StopsAt(responses, n)
    ensures FetchAll(responses) == Success(Fetched(RowsUpTo(responses, n), RequestsUpTo(responses, n)))
  {
    PullAfter(responses, n - 1);
  }

  /** The loop leaves at the first page that reaches the cap: the rows before the last
      page number fewer than RowCap, so the total exceeds it by less than one page. */
  lemma FetchAllCap(responses: seq<Response>)
    requires FetchAll(responses).Success?
    ensures var f := FetchAll(responses).value;
            && 1 <= |f.requests| && AllOk(responses, |f.requests|)
            && f.requests[0] == Request(PageSize, None)
            && |f.rows| < RowCap + |PageRows(responses[|f.requests| - 1].payload)|
  {
    FetchAllSucceeds(responses);
    var n := |FetchAll(responses).value.requests|;
    if n > 1 {
      assert Continues(responses, n - 2);
    }
  }

  lemma {:induction false} PullFails(responses: seq<Response>, k: nat) returns (n: nat)
    requires ContinuesBefore(responses, k) && PullAt(responses, k).Failure?
    ensures k <= n <= |responses| && ContinuesBefore(responses, n)
    ensures n == |responses| ==> PullAt(responses, k).error == NoResponse
    ensures n < |responses| ==> match responses[n]
                                case NotOk(status) => PullAt(responses, k).error == HttpError(status)
                                case Unreadable => PullAt(responses, k).error == BadBody
                                case Ok(_) => false
    decreases |responses| - k
  {
    if k == |responses| || !responses[k].Ok? {
      n := k;
    } else {
      assert AllOk(responses, k + 1);
      assert Continues(responses, k);
      assert ContinuesBefore(responses, k + 1);
      n := PullFails(responses, k + 1);
    }
  }

  /** A fetch fails at the first page that is not a body, or when the server stops answering. */
  lemma FetchAllFails(responses: seq<Response>) returns (n: nat)
    requires FetchAll(responses).Failure?
    ensures n <= |responses| && ContinuesBefore(responses, n)
    ensures n == |responses| ==> FetchAll(responses).error == NoResponse
    ensures n < |responses| ==> match responses[n]
                                case NotOk(status) => FetchAll(responses).error == HttpError(status)
                                case Unreadable => FetchAll(responses).error == BadBody
                                case Ok(_) => false
  {
    n := PullFails(responses, 0);
  }

  // ---------------------------------------------------------------------
  // The loop

  /** fetchAllPages: a do-while loop that sends a query, appends its results and moves
      the cursor, until no cursor is left or RowCap rows are in. */
  method FetchAllPages(responses: seq<Response>) returns (r: Result<Fetched, FetchError>)
    ensures r == FetchAll(responses)
  {
    var results: seq<Row> := [];
    var sent: seq<Request> := [];
    var startCursor: Option<string> := None;
    var k := 0;
    while true
      invariant k <= |responses|
      invariant FetchAll(responses) == Pull(responses, k, startCursor, results, sent)
      decreases |responses| - k
    {
      var body := Request(PageSize, None);
      if Truthy(startCursor) {
        body := body.(startCursor := startCursor);
      }
      sent := sent + [body];
      if k == |responses| {
        return Failure(NoResponse);
      }
      var response := responses[k];
      k := k + 1;
      if response.NotOk? {
        return Failure(HttpError(response.status));
      }
      if response.Unreadable? {
        return Failure(BadBody);
      }
      var payload := response.payload;
      results := results + PageRows(payload);
      startCursor := if payload.hasMore then payload.nextCursor else None;
      if !(Truthy(startCursor) && |results| < RowCap) {
        return Success(Fetched(results, sent));
      }
    }
  }

  // ---------------------------------------------------------------------
  // main

  /** What a run leaves behind: the events written to the feed file and the exit code. */
  datatype Outcome = Outcome(written: seq<Event>, exitCode: int)

  /** main, with its catch: missing credentials or a failed fetch write an empty feed
      and exit with 1; otherwise the pipeline's events are written and the exit code stays 0. */
  function Run(token: Option<string>, databaseId: Option<string>, overrides: Overrides,
               responses: seq<Response>, cal: Calendar, now: int): (out: Outcome)
    ensures out.exitCode == 0 || out.exitCode == 1
    ensures out.exitCode == 1 ==> out.written == []
    ensures |out.written| <= MaxEvents
  {
    if !Truthy(token) || !Truthy(databaseId) then Outcome([], 1)
    else match FetchAll(responses)
      case Failure(_) => Outcome([], 1)
      case Success(f) => Outcome(Pipeline(f.rows, PropertyGuesses(overrides), cal, now), 0)
  }

  /** A run fails exactly when a credential is missing or the fetch throws, and then writes
      nothing; a run that succeeds writes the feed the pipeline promises. */
  lemma RunProperties(token: Option<string>, databaseId: Option<string>, overrides: Overrides,
                      responses: seq<Response>, cal: Calendar, now: int)
    ensures var out := Run(token, databaseId, overrides, responses, cal, now);
            && (out.exitCode == 1 <==> !Truthy(token) || !Truthy(databaseId) || FetchAll(responses).Failure?)
            && (out.exitCode != 1 ==> out.exitCode == 0)
            && (out.exitCode == 1 ==> out.written == [])
    ensures var out := Run(token, databaseId, overrides, responses, cal, now);
            out.exitCode == 0 ==>
              var rows := FetchAll(responses).value.rows;
              var kept := FilterEvents(Normalize(rows, PropertyGuesses(overrides)), cal, now);
              && out.written == Pipeline(rows, PropertyGuesses(overrides), cal, now)
              && |out.written| == Min(|kept|, MaxEvents)
              && AllTimed(out.written, cal) && SortedByStart(out.written, cal)
              && AllTimed(kept, cal) && Earliest(out.written, kept, cal)
              && (forall i :: 0 <= i < |out.written| ==>
                    WellFormed(out.written[i]) && Keep(out.written[i], cal, now))
              && multiset(out.written) <= multiset(Normalize(rows, PropertyGuesses(overrides)))
  {
    if Truthy(token) && Truthy(databaseId) && FetchAll(responses).Success? {
      PipelineProperties(FetchAll(responses).value.rows, PropertyGuesses(overrides), cal, now);
    }
  }

  /** main as the script runs it: the credentials check and the paginated fetch, then
      the feed built from the rows. */
  method RunFetch(token: Option<string>, databaseId: Option<string>, overrides: Overrides,
                  responses: seq<Response>, cal: Calendar, now: int) returns (out: Outcome)
    ensures out == Run(token, databaseId, overrides, responses, cal, now)
  {
    if !Truthy(token) || !Truthy(databaseId) {
      return Outcome([], 1);
    }
    var fetched := FetchAllPages(responses);
    if fetched.Failure? {
      return Outcome([], 1);
    }
    var top := BuildFeed(fetched.value.rows, PropertyGuesses(overrides), cal, now);
    return Outcome(top, 0);
  }

  /** The body of main after the fetch: the normalising map and the filter, then the
      in-place sort and slice of the filtered array. */
  method BuildFeed(results: seq<Row>, g: Guesses, cal: Calendar, now: int) returns (top: seq<Event>)
    ensures top == Pipeline(results, g, cal, now)
  {
    var events := Normalize(results, g);
    var kept := FilterEvents(events, cal, now);
    FilteredAreTimed(events, cal, now);
    top := SortAndSlice(kept, cal);
  }

  /** `entries.sort(...).slice(0, MAX_EVENTS)` on a fresh array holding the events. */
  method SortAndSlice(kept: seq<Event>, cal: Calendar) returns (top: seq<Event>)
    requires AllTimed(kept, cal)
    ensures top == Prioritize(kept, cal)
  {
    var a := new Event[|kept|](i requires 0 <= i < |kept| => kept[i]);
    assert a[..] == kept;
    top := PrioritizeEvents(a, cal);
  }
}
