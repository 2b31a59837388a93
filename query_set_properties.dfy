/**
 * What the query set promises: the effect of one next() in each of its cases, that the
 * end of iteration is sticky, what iterating to the end yields, and what count() returns.
 */
module QuerySetProperties {
  import opened Wrappers
  import opened Json
  import opened Gateway
  import opened Models
  import opened QuerySets

  /** Every record next() returns has the query set's own kind. */
  lemma YieldHasCursorKind(kind: Kind, client: Client, s: CursorState)
    ensures Advance(kind, client, s).step.Yield? ==> Advance(kind, client, s).step.record.kind == kind
  {
  }

  /** The page number never goes back, and one call requests at most two pages. */
  lemma PageNumberAdvancesByRequests(kind: Kind, client: Client, s: CursorState)
    ensures s.currentPage <= Advance(kind, client, s).after.currentPage <= s.currentPage + 2
  {
  }

  /** The index never points more than one past the end of the buffer. */
  lemma IndexStaysInRange(kind: Kind, client: Client, s: CursorState)
    requires s.currentRecord <= |s.results|
    ensures Advance(kind, client, s).after.currentRecord <= |Advance(kind, client, s).after.results|
  {
  }

  /** Signalling the end never touches the buffer, nor, once a page is held, the index. */
  lemma StopKeepsBuffer(kind: Kind, client: Client, s: CursorState)
    ensures Advance(kind, client, s).step.Stop? ==> Advance(kind, client, s).after.results == s.results
    ensures Advance(kind, client, s).step.Stop? && s.results != [] ==>
              Advance(kind, client, s).after.currentRecord == s.currentRecord
  {
  }

  /** While the buffer has an entry at currentRecord, next() returns that entry as a
      record and only moves currentRecord on by one. */
  lemma NextWithinPage(kind: Kind, client: Client, s: CursorState)
    requires s.currentRecord < |s.results|
    ensures Advance(kind, client, s)
         == Transition(Yield(Construct(kind, s.results[s.currentRecord])), s.(currentRecord := s.currentRecord + 1))
  {
  }

  /** With the buffer used up, a successful request of the following page replaces the
      buffer and the reported metadata, moves to that page, and returns its first entry. */
  lemma NextFetchesFollowingPage(kind: Kind, client: Client, s: CursorState, page: Page)
    requires Exhausted(s)
    requires FetchPage(EndpointFor(client, kind), s.currentPage + 1) == Some(page)
    requires page.results != []
    ensures Advance(kind, client, s)
         == Transition(Yield(Construct(kind, page.results[0])),
                       CursorState(page.results, 1, s.currentPage + 1, Some(page.count), page.next, page.previous))
  {
  }

  /** With the buffer used up, a client error on the following page ends the iteration;
      only the page number moves, so the cursor stays used up. */
  lemma NextStopsOnFailedFetch(kind: Kind, client: Client, s: CursorState)
    requires Exhausted(s)
    requires FetchPage(EndpointFor(client, kind), s.currentPage + 1) == None
    ensures Advance(kind, client, s) == Transition(Stop, s.(currentPage := s.currentPage + 1))
    ensures Exhausted(Advance(kind, client, s).after)
  {
  }

  /** With the buffer used up, an empty following page is indexed anyway and fails. */
  lemma NextOnEmptyFollowingPage(kind: Kind, client: Client, s: CursorState, page: Page)
    requires Exhausted(s)
    requires FetchPage(EndpointFor(client, kind), s.currentPage + 1) == Some(page)
    requires page.results == []
    ensures Advance(kind, client, s).step == Fail(IndexError)
    ensures Advance(kind, client, s).after
         == CursorState([], 0, s.currentPage + 1, Some(page.count), page.next, page.previous)
  {
  }

  /** With an empty buffer (a new query set), a client error on the request is not
      caught; the page number has already moved on. */
  lemma FirstFetchErrorPropagates(kind: Kind, client: Client, s: CursorState)
    requires s.results == []
    requires FetchPage(EndpointFor(client, kind), s.currentPage + 1) == None
    ensures Advance(kind, client, s) == Transition(Fail(ClientError), s.(currentPage := s.currentPage + 1))
  {
  }

  /** With an empty buffer (a new query set), an answered page with entries becomes the
      buffer and its first entry is returned. */
  lemma NextFromEmptyBuffer(kind: Kind, client: Client, s: CursorState, page: Page)
    requires s.results == []
    requires FetchPage(EndpointFor(client, kind), s.currentPage + 1) == Some(page)
    requires page.results != []
    ensures Advance(kind, client, s)
         == Transition(Yield(Construct(kind, page.results[0])),
                       CursorState(page.results, 1, s.currentPage + 1, Some(page.count), page.next, page.previous))
  {
  }

  /** An empty first page is no error: it falls through to the following page, and a
      client error there ends the iteration cleanly. */
  lemma EmptyFirstPageThenEnd(kind: Kind, client: Client, s: CursorState, page: Page)
    requires s.results == []
    requires FetchPage(EndpointFor(client, kind), s.currentPage + 1) == Some(page)
    requires page.results == []
    requires FetchPage(EndpointFor(client, kind), s.currentPage + 2) == None
    ensures Advance(kind, client, s).step == Stop
    ensures Advance(kind, client, s).after.currentPage == s.currentPage + 2
  {
  }

  /** An empty first page falls through to the following page when that one is answered
      too: its first entry is returned, with the page number up by two, or, when it is
      empty as well, it is indexed anyway and raises IndexError. */
  lemma EmptyFirstPageThenFollowing(kind: Kind, client: Client, s: CursorState, page: Page, following: Page)
    requires s.results == []
    requires FetchPage(EndpointFor(client, kind), s.currentPage + 1) == Some(page)
    requires page.results == []
    requires FetchPage(EndpointFor(client, kind), s.currentPage + 2) == Some(following)
    ensures following.results != [] ==>
              (Advance(kind, client, s)
               == Transition(Yield(Construct(kind, following.results[0])),
                             CursorState(following.results, 1, s.currentPage + 2, Some(following.count),
                                         following.next, following.previous)))
    ensures following.results == [] ==>
              (Advance(kind, client, s)
               == Transition(Fail(IndexError),
                             CursorState([], 0, s.currentPage + 2, Some(following.count),
                                         following.next, following.previous)))
  {
  }

  /** Once used up, the cursor signals the end on every further call for as long as the
      pages after it keep failing. */
  lemma {:induction false} StopIsSticky(kind: Kind, client: Client, s: CursorState, k: nat)
    requires Exhausted(s)
    requires forall n: nat :: n > s.currentPage ==> FetchPage(EndpointFor(client, kind), n) == None
    ensures forall i :: 0 <= i < k ==> Repeat(kind, client, s, k)[i] == Stop
    decreases k
  {
    if k > 0 {
      var t := Advance(kind, client, s);
      NextStopsOnFailedFetch(kind, client, s);
      StopIsSticky(kind, client, t.after, k - 1);
    }
  }

  /** Building records distributes over concatenation. */
  lemma {:induction false} RecordsAppend(kind: Kind, a: seq<JsonObject>, b: seq<JsonObject>)
    ensures Records(kind, a + b) == Records(kind, a) + Records(kind, b)
  {
    if a != [] {
      assert (a + b)[1..] == a[1..] + b;
      RecordsAppend(kind, a[1..], b);
    } else {
      assert a + b == b;
    }
  }

  /** A call that returns a record puts it in front of what the rest of the iteration yields. */
  lemma DrainAfterYield(kind: Kind, client: Client, s: CursorState)
    requires Advance(kind, client, s).step.Yield?
    ensures var t := Advance(kind, client, s);
            var rest := Drain(kind, client, t.after);
            Drain(kind, client, s) == Drained([t.step.record] + rest.records, rest.end, rest.final)
  {
  }

  /** An answered page puts its entries in front of the following pages. */
  lemma StreamAt(e: Endpoint, p: nat, page: Page)
    requires FetchPage(e, p) == Some(page)
    ensures Stream(e, p) == page.results + Stream(e, p + 1)
    ensures NonEmptyUntilEnd(e, p) <==> page.results != [] && NonEmptyUntilEnd(e, p + 1)
  {
  }

  /** The records of an entry followed by more entries. */
  lemma RecordsCons(kind: Kind, objs: seq<JsonObject>, i: nat, tail: seq<JsonObject>)
    requires i < |objs|
    ensures Records(kind, objs[i..] + tail) == [Construct(kind, objs[i])] + Records(kind, objs[i + 1..] + tail)
  {
    assert objs[i..] + tail == [objs[i]] + (objs[i + 1..] + tail);
    RecordsAppend(kind, [objs[i]], objs[i + 1..] + tail);
  }

  /** From a buffer holding a page, iterating to the end yields the rest of the buffer
      and then every following page in order, and ends with Stop on a used-up cursor,
      provided no answered page is empty. */
  lemma {:induction false} DrainFromPage(kind: Kind, client: Client, s: CursorState)
    requires s.results != [] && s.currentRecord <= |s.results|
    requires NonEmptyUntilEnd(EndpointFor(client, kind), s.currentPage + 1)
    ensures Drain(kind, client, s).records
         == Records(kind, s.results[s.currentRecord..] + Stream(EndpointFor(client, kind), s.currentPage + 1))
    ensures Drain(kind, client, s).end == Stop
    ensures Exhausted(Drain(kind, client, s).final)
    decreases |EndpointFor(client, kind).pages| + 1 - s.currentPage, |s.results| - s.currentRecord, 2
  {
    if s.currentRecord < |s.results| {
      DrainWithinPage(kind, client, s);
    } else {
      DrainAtPageEnd(kind, client, s);
    }
  }

  /** DrainFromPage while the buffer still has an entry. */
  lemma {:induction false} DrainWithinPage(kind: Kind, client: Client, s: CursorState)
    requires s.currentRecord < |s.results|
    requires NonEmptyUntilEnd(EndpointFor(client, kind), s.currentPage + 1)
    ensures Drain(kind, client, s).records
         == Records(kind, s.results[s.currentRecord..] + Stream(EndpointFor(client, kind), s.currentPage + 1))
    ensures Drain(kind, client, s).end == Stop
    ensures Exhausted(Drain(kind, client, s).final)
    decreases |EndpointFor(client, kind).pages| + 1 - s.currentPage, |s.results| - s.currentRecord, 0
  {
    var t := s.(currentRecord := s.currentRecord + 1);
    NextWithinPage(kind, client, s);
    DrainAfterYield(kind, client, s);
    DrainFromPage(kind, client, t);
    RecordsCons(kind, s.results, s.currentRecord, Stream(EndpointFor(client, kind), s.currentPage + 1));
  }

  /** DrainFromPage once the buffer is used up. */
  lemma {:induction false} DrainAtPageEnd(kind: Kind, client: Client, s: CursorState)
    requires Exhausted(s) && s.currentRecord == |s.results|
    requires NonEmptyUntilEnd(EndpointFor(client, kind), s.currentPage + 1)
    ensures Drain(kind, client, s).records
         == Records(kind, s.results[s.currentRecord..] + Stream(EndpointFor(client, kind), s.currentPage + 1))
    ensures Drain(kind, client, s).end == Stop
    ensures Exhausted(Drain(kind, client, s).final)
    decreases |EndpointFor(client, kind).pages| + 1 - s.currentPage, |s.results| - s.currentRecord, 1
  {
    var e := EndpointFor(client, kind);
    var p := s.currentPage + 1;
    assert s.results[s.currentRecord..] == [];
    match FetchPage(e, p)
    case None =>
      NextStopsOnFailedFetch(kind, client, s);
      assert Stream(e, p) == [];
    case Some(page) =>
      DrainIntoFollowingPage(kind, client, s, page);
      assert s.results[s.currentRecord..] + Stream(e, p) == Stream(e, p);
  }

  /** With the buffer empty or used up and the following page answered, iterating to the
      end yields that page and every page after it. */
  lemma {:induction false} DrainIntoFollowingPage(kind: Kind, client: Client, s: CursorState, page: Page)
    requires s.results == [] || s.currentRecord >= |s.results|
    requires FetchPage(EndpointFor(client, kind), s.currentPage + 1) == Some(page)
    requires NonEmptyUntilEnd(EndpointFor(client, kind), s.currentPage + 1)
    ensures Drain(kind, client, s).records
         == Records(kind, Stream(EndpointFor(client, kind), s.currentPage + 1))
    ensures Drain(kind, client, s).end == Stop
    ensures Exhausted(Drain(kind, client, s).final)
    decreases |EndpointFor(client, kind).pages| + 1 - s.currentPage, 0, 0
  {
    var e := EndpointFor(client, kind);
    var p := s.currentPage + 1;
    var t := CursorState(page.results, 1, p, Some(page.count), page.next, page.previous);
    assert NonEmptyUntilEnd(e, p + 1) && page.results != [] by {
      StreamAt(e, p, page);
    }
    assert Drain(kind, client, s).records == [Construct(kind, page.results[0])] + Drain(kind, client, t).records
        && Drain(kind, client, s).end == Drain(kind, client, t).end
        && Drain(kind, client, s).final == Drain(kind, client, t).final by {
      if s.results == [] {
        NextFromEmptyBuffer(kind, client, s, page);
      } else {
        NextFetchesFollowingPage(kind, client, s, page);
      }
      DrainAfterYield(kind, client, s);
    }
    DrainFromPage(kind, client, t);
    assert Records(kind, Stream(e, p))
        == [Construct(kind, page.results[0])] + Records(kind, page.results[1..] + Stream(e, p + 1)) by {
      StreamAt(e, p, page);
      RecordsCons(kind, page.results, 0, Stream(e, p + 1));
      assert page.results[0..] == page.results;
    }
  }

  /** A new query set whose first page is answered yields every page of the listing in
      order, page after page and entry after entry, then signals the end. */
  lemma FreshCursorYieldsAllPages(kind: Kind, client: Client)
    requires FetchPage(EndpointFor(client, kind), 1).Some?
    requires NonEmptyUntilEnd(EndpointFor(client, kind), 1)
    ensures Drain(kind, client, Fresh).records == Records(kind, Stream(EndpointFor(client, kind), 1))
    ensures Drain(kind, client, Fresh).end == Stop
    ensures Exhausted(Drain(kind, client, Fresh).final)
  {
    DrainIntoFollowingPage(kind, client, Fresh, FetchPage(EndpointFor(client, kind), 1).value);
  }

  /** A new query set whose first request fails yields nothing and raises the error. */
  lemma FreshCursorFirstPageFails(kind: Kind, client: Client)
    requires FetchPage(EndpointFor(client, kind), 1).None?
    ensures Drain(kind, client, Fresh) == Drained([], Fail(ClientError), Fresh.(currentPage := 1))
  {
  }

  /** The listing of the source's tests: ten entries on page 1, five on page 2, and no
      page 3. Iteration yields fifteen records, the first built from page 1's first
      entry, and then the end; count() as written returns 15 on the new query set. */
  lemma TwoPageListing(kind: Kind, client: Client)
    requires |EndpointFor(client, kind).pages| == 2
    requires EndpointFor(client, kind).pages[0].Some? && |EndpointFor(client, kind).pages[0].value.results| == 10
    requires EndpointFor(client, kind).pages[1].Some? && |EndpointFor(client, kind).pages[1].value.results| == 5
    ensures |Drain(kind, client, Fresh).records| == 15
    ensures Drain(kind, client, Fresh).records[0] == Construct(kind, EndpointFor(client, kind).pages[0].value.results[0])
    ensures Drain(kind, client, Fresh).end == Stop
    ensures CountAsWritten(kind, client, Fresh) == Ok(15)
  {
    var e := EndpointFor(client, kind);
    var p1, p2 := e.pages[0].value, e.pages[1].value;
    RecordsAt(kind, p1.results + p2.results, 0);
    assert FetchPage(e, 3) == None;
    assert Stream(e, 3) == [];
    assert Stream(e, 1) == p1.results + (p2.results + []);
    assert NonEmptyUntilEnd(e, 3);
    assert NonEmptyUntilEnd(e, 1);
    FreshCursorYieldsAllPages(kind, client);
  }

  /** count() on a new query set over that listing returns 15. */
  method CountTwoPageListing(kind: Kind, client: Client) returns (n: Result<nat, Failure>)
    requires |EndpointFor(client, kind).pages| == 2
    requires EndpointFor(client, kind).pages[0].Some? && |EndpointFor(client, kind).pages[0].value.results| == 10
    requires EndpointFor(client, kind).pages[1].Some? && |EndpointFor(client, kind).pages[1].value.results| == 5
    ensures n == Ok(15)
  {
    var qs := All(client, kind);
    TwoPageListing(kind, client);
    n := qs.Count();
  }

  /** The code as written: after one next() on that listing, count() fails, because
      the stored total now hides the method; the remaining records number fourteen. */
  lemma CountShadowedAfterNext(kind: Kind, client: Client)
    requires |EndpointFor(client, kind).pages| == 2
    requires EndpointFor(client, kind).pages[0].Some? && |EndpointFor(client, kind).pages[0].value.results| == 10
    requires EndpointFor(client, kind).pages[1].Some? && |EndpointFor(client, kind).pages[1].value.results| == 5
    ensures CountAsWritten(kind, client, Advance(kind, client, Fresh).after) == Err(NotCallable)
    ensures |Drain(kind, client, Advance(kind, client, Fresh).after).records| == 14
  {
    TwoPageListing(kind, client);
  }

  /** Every page the client answers reports the same total. */
  predicate ReportsTotal(e: Endpoint, total: nat)
  {
    forall i :: 0 <= i < |e.pages| && e.pages[i].Some? ==> e.pages[i].value.count == total
  }

  /** Once a page reporting the total has been stored, every later call keeps that total. */
  lemma {:induction false} TotalStaysReported(kind: Kind, client: Client, s: CursorState, total: nat, k: nat)
    requires ReportsTotal(EndpointFor(client, kind), total)
    requires s.reportedCount == Some(total)
    ensures After(kind, client, s, k).reportedCount == Some(total)
    decreases k
  {
    if k > 0 {
      TotalStaysReported(kind, client, Advance(kind, client, s).after, total, k - 1);
    }
  }

  /** When every answered page reports the same total, count() as documented returns
      that total on a new query set and after any number of calls of next(). */
  lemma DocumentedCountIsTotal(kind: Kind, client: Client, total: nat, k: nat)
    requires FetchPage(EndpointFor(client, kind), 1).Some?
    requires ReportsTotal(EndpointFor(client, kind), total)
    ensures DocumentedCount(kind, client, After(kind, client, Fresh, k)) == Ok(total)
  {
    var e := EndpointFor(client, kind);
    var page := FetchPage(e, 1).value;
    if k > 0 {
      if page.results == [] {
        EmptyFirstPageStored(kind, client, page);
      } else {
        NextFromEmptyBuffer(kind, client, Fresh, page);
      }
      TotalStaysReported(kind, client, Advance(kind, client, Fresh).after, total, k - 1);
    }
  }

  /** A first page without entries is stored, with its total, before the following
      page is requested. */
  lemma EmptyFirstPageStored(kind: Kind, client: Client, page: Page)
    requires FetchPage(EndpointFor(client, kind), 1) == Some(page)
    requires page.results == []
    ensures Advance(kind, client, Fresh).after.reportedCount.Some?
    ensures ReportsTotal(EndpointFor(client, kind), page.count) ==>
              Advance(kind, client, Fresh).after.reportedCount == Some(page.count)
  {
  }

  /** On a listing whose pages report the number of entries it holds, count() as
      documented agrees with the number of records iteration yields, at any point. */
  lemma DocumentedCountMatchesIteration(kind: Kind, client: Client, k: nat)
    requires FetchPage(EndpointFor(client, kind), 1).Some?
    requires NonEmptyUntilEnd(EndpointFor(client, kind), 1)
    requires ReportsTotal(EndpointFor(client, kind), |Stream(EndpointFor(client, kind), 1)|)
    ensures DocumentedCount(kind, client, After(kind, client, Fresh, k)) == Ok(|Drain(kind, client, Fresh).records|)
  {
    FreshCursorYieldsAllPages(kind, client);
    DocumentedCountIsTotal(kind, client, |Stream(EndpointFor(client, kind), 1)|, k);
  }

  /** count() as written, on a new query set, returns the number of entries the listing
      holds up to its first failing page. */
  lemma CountAsWrittenOnFreshCursor(kind: Kind, client: Client)
    requires FetchPage(EndpointFor(client, kind), 1).Some?
    requires NonEmptyUntilEnd(EndpointFor(client, kind), 1)
    ensures CountAsWritten(kind, client, Fresh) == Ok(|Stream(EndpointFor(client, kind), 1)|)
  {
    FreshCursorYieldsAllPages(kind, client);
  }

  /** An end reached with an empty buffer is not sticky: after an empty first page and a
      failing second page, the next call takes the unguarded request again and raises
      the client error. */
  lemma EmptyBufferEndNotSticky(kind: Kind, client: Client, page: Page)
    requires |EndpointFor(client, kind).pages| == 1
    requires EndpointFor(client, kind).pages[0] == Some(page)
    requires page.results == []
    ensures Advance(kind, client, Fresh).step == Stop
    ensures Advance(kind, client, Advance(kind, client, Fresh).after).step == Fail(ClientError)
  {
    EmptyFirstPageThenEnd(kind, client, Fresh, page);
  }

  /** On the two-page listing whose pages report 15, count() as documented returns 15
      after one next(), where the code as written fails. */
  lemma DocumentedCountAfterNext(kind: Kind, client: Client)
    requires |EndpointFor(client, kind).pages| == 2
    requires EndpointFor(client, kind).pages[0].Some? && |EndpointFor(client, kind).pages[0].value.results| == 10
    requires EndpointFor(client, kind).pages[1].Some? && |EndpointFor(client, kind).pages[1].value.results| == 5
    requires EndpointFor(client, kind).pages[0].value.count == 15
    ensures DocumentedCount(kind, client, After(kind, client, Fresh, 1)) == Ok(15)
    ensures CountAsWritten(kind, client, After(kind, client, Fresh, 1)) == Err(NotCallable)
  {
    var page := EndpointFor(client, kind).pages[0].value;
    NextFromEmptyBuffer(kind, client, Fresh, page);
  }
}
