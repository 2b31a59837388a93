/**
 * The paginated query set (BaseQuerySet and its People/Films subclasses): a cursor
 * that walks a listing page by page and yields one record per call.
 *
 * Advance is the cursor's step as a function of its fields; the class QuerySet holds
 * those fields and its methods are proved to take exactly that step.
 */
module QuerySets {
  import opened Wrappers
  import opened Json
  import opened Gateway
  import opened Models

  /** The fields of a query set: the buffer of the current page, the index of the next
      entry in it, the last page number requested, and what the last successful page
      reported (the total is None until a page has been fetched). */
  datatype CursorState = CursorState(
    results: seq<JsonObject>,
    currentRecord: nat,
    currentPage: nat,
    reportedCount: Option<nat>,
    nextPage: Option<string>,
    previousPage: Option<string>)

  /** The state a new query set starts in. */
  const Fresh: CursorState := CursorState([], 0, 0, None, None, None)

  /** What one call of next() does: return a record, raise StopIteration, or raise an error. */
  datatype Step = Yield(record: Record) | Stop | Fail(failure: Failure)

  /** A step together with the fields it leaves behind. */
  datatype Transition = Transition(step: Step, after: CursorState)

  /** The assignments fetch_data makes once the client has answered with a page. */
  function Store(s: CursorState, page: Page): (t: CursorState)
    ensures t.results == page.results && t.reportedCount == Some(page.count)
    ensures t.nextPage == page.next && t.previousPage == page.previous
    ensures t.currentRecord == s.currentRecord && t.currentPage == s.currentPage
  {
    s.(reportedCount := Some(page.count), nextPage := page.next,
       previousPage := page.previous, results := page.results)
  }

  /** The second half of next(): read the entry at currentRecord, or, when the buffer
      is used up, request the following page; a client error there ends the iteration,
      and an empty page there is indexed anyway. */
  function Lookup(kind: Kind, e: Endpoint, s: CursorState): (r: Transition)
    ensures r.step.Fail? ==> r.step.failure == IndexError && r.after.results == []
    ensures s.currentRecord >= |s.results| && FetchPage(e, s.currentPage + 1).None? ==>
              r == Transition(Stop, s.(currentPage := s.currentPage + 1))
  {
    if s.currentRecord < |s.results| then
      Transition(Yield(Construct(kind, s.results[s.currentRecord])), s.(currentRecord := s.currentRecord + 1))
    else
      var p := s.currentPage + 1;
      match FetchPage(e, p)
      case None => Transition(Stop, s.(currentPage := p))
      case Some(page) =>
        var t := Store(s.(currentPage := p), page).(currentRecord := 0);
        if |t.results| == 0 then Transition(Fail(IndexError), t)
        else Transition(Yield(Construct(kind, t.results[0])), t.(currentRecord := 1))
  }

  /** One call of next(): an empty buffer first requests the following page, where a
      client error is not caught; then the entry is looked up. */
  function Advance(kind: Kind, client: Client, s: CursorState): (r: Transition)
    ensures r.step == Fail(ClientError) ==> s.results == [] && r.after == s.(currentPage := s.currentPage + 1)
  {
    var e := EndpointFor(client, kind);
    if s.results == [] then
      var p := s.currentPage + 1;
      match FetchPage(e, p)
      case None => Transition(Fail(ClientError), s.(currentPage := p))
      case Some(page) => Lookup(kind, e, Store(s.(currentPage := p), page).(currentRecord := 0))
    else
      Lookup(kind, e, s)
  }

  /** The records built from a sequence of entries, in order. */
  function Records(kind: Kind, objs: seq<JsonObject>): (r: seq<Record>)
    ensures |r| == |objs|
  {
    if objs == [] then [] else [Construct(kind, objs[0])] + Records(kind, objs[1..])
  }

  /** The i-th record is built from the i-th entry. */
  lemma {:induction false} RecordsAt(kind: Kind, objs: seq<JsonObject>, i: nat)
    requires i < |objs|
    ensures Records(kind, objs)[i] == Construct(kind, objs[i])
  {
    if i > 0 {
      RecordsAt(kind, objs[1..], i - 1);
    }
  }

  /** What iterating to the end yields: the records, the step that ended it (Stop or an
      error), and the fields left behind. */
  datatype Drained = Drained(records: seq<Record>, end: Step, final: CursorState)

  /** Calling next() until it no longer returns a record. */
  function Drain(kind: Kind, client: Client, s: CursorState): (d: Drained)
    ensures !d.end.Yield?
    ensures forall i :: 0 <= i < |d.records| ==> d.records[i].kind == kind
    decreases |EndpointFor(client, kind).pages| + 1 - s.currentPage, |s.results| - s.currentRecord
  {
    var t := Advance(kind, client, s);
    if t.step.Yield? then
      var rest := Drain(kind, client, t.after);
      Drained([t.step.record] + rest.records, rest.end, rest.final)
    else
      Drained([], t.step, t.after)
  }

  /** The entries of the listing from page p on, page after page, up to the first page
      whose request fails. */
  function Stream(e: Endpoint, p: nat): seq<JsonObject>
    decreases |e.pages| + 1 - p
  {
    match FetchPage(e, p)
    case None => []
    case Some(page) => page.results + Stream(e, p + 1)
  }

  /** Every page from p on that the client answers, up to the first that fails, has at
      least one entry. */
  predicate NonEmptyUntilEnd(e: Endpoint, p: nat)
    decreases |e.pages| + 1 - p
  {
    match FetchPage(e, p)
    case None => true
    case Some(page) => page.results != [] && NonEmptyUntilEnd(e, p + 1)
  }

  /** The buffer holds a page and every entry of it has been returned. */
  predicate Exhausted(s: CursorState)
  {
    s.results != [] && s.currentRecord >= |s.results|
  }

  /** k successive calls of next(), and what each returned. */
  function Repeat(kind: Kind, client: Client, s: CursorState, k: nat): (steps: seq<Step>)
    ensures |steps| == k
    decreases k
  {
    if k == 0 then []
    else
      var t := Advance(kind, client, s);
      [t.step] + Repeat(kind, client, t.after, k - 1)
  }

  /** count() of the code as written: once a page has been fetched, fetch_data has
      assigned the total to self.count, so the name no longer refers to the method and
      calling it fails; before that it counts what iteration yields. */
  function CountAsWritten(kind: Kind, client: Client, s: CursorState): (r: Result<nat, Failure>)
    ensures s.reportedCount.Some? ==> r == Err(NotCallable)
    ensures s.reportedCount.None? ==>
              var d := Drain(kind, client, s);
              r == (if d.end.Stop? then Ok(|d.records|) else Err(d.end.failure))
  {
    if s.reportedCount.Some? then Err(NotCallable)
    else
      var d := Drain(kind, client, s);
      if d.end.Stop? then Ok(|d.records|) else Err(d.end.failure)
  }

  /** count() as its documentation describes it: the total the last fetched page
      reported when one is held, and otherwise the total reported by a new request,
      which fetch_data makes for page 1 by default. Page 1's total is read without
      storing the page: the buffer, links, stored total and page number are untouched. */
  function DocumentedCount(kind: Kind, client: Client, s: CursorState): (r: Result<nat, Failure>)
    ensures s.reportedCount.Some? ==> r == Ok(s.reportedCount.value)
    ensures s.reportedCount.None? && FetchPage(EndpointFor(client, kind), 1).Some? ==>
              r == Ok(FetchPage(EndpointFor(client, kind), 1).value.count)
    ensures r.Err? <==> s.reportedCount.None? && FetchPage(EndpointFor(client, kind), 1).None?
    ensures r.Err? ==> r.error == ClientError
  {
    match s.reportedCount
    case Some(c) => Ok(c)
    case None =>
      match FetchPage(EndpointFor(client, kind), 1)
      case Some(page) => Ok(page.count)
      case None => Err(ClientError)
  }

  /** The fields after k successive calls of next(). */
  function After(kind: Kind, client: Client, s: CursorState, k: nat): CursorState
    decreases k
  {
    if k == 0 then s else After(kind, client, Advance(kind, client, s).after, k - 1)
  }

  /** A query set of one resource kind, reading pages through a client. */
  class QuerySet {
    const kind: Kind
    const client: Client
    var results: seq<JsonObject>
    var currentRecord: nat
    var currentPage: nat
    var reportedCount: Option<nat>
    var nextPage: Option<string>
    var previousPage: Option<string>

    /** The fields as a value. */
    function State(): CursorState
      reads this
    {
      CursorState(results, currentRecord, currentPage, reportedCount, nextPage, previousPage)
    }

    /** A new query set: nothing fetched, no page requested. */
    constructor (kind: Kind, client: Client)
      ensures this.kind == kind && this.client == client
      ensures results == [] && currentRecord == 0 && currentPage == 0
      ensures nextPage == None && previousPage == None && reportedCount == None
      ensures State() == Fresh
    {
      this.kind := kind;
      this.client := client;
      nextPage := None;
      previousPage := None;
      results := [];
      currentRecord := 0;
      currentPage := 0;
      reportedCount := None;
    }

    /** Request a page of this kind; on an answer store its total, links and entries,
        on a client error change nothing and report false. */
    method FetchData(pageNumber: nat) returns (fetched: bool)
      modifies this
      ensures fetched == FetchPage(EndpointFor(client, kind), pageNumber).Some?
      ensures fetched ==> State() == Store(old(State()), FetchPage(EndpointFor(client, kind), pageNumber).value)
      ensures !fetched ==> State() == old(State())
    {
      var json := FetchPage(EndpointFor(client, kind), pageNumber);
      if json.None? {
        return false;
      }
      reportedCount := Some(json.value.count);
      nextPage := json.value.next;
      previousPage := json.value.previous;
      results := json.value.results;
      fetched := true;
    }

    /** next(): the step Advance describes, taken on the fields in place. */
    method Next() returns (step: Step)
      modifies this
      ensures Transition(step, State()) == Advance(kind, client, old(State()))
    {
      if results == [] {
        currentPage := currentPage + 1;
        var fetched := FetchData(currentPage);
        if !fetched {
          return Fail(ClientError);
        }
        currentRecord := 0;
      }
      var data: JsonObject;
      if currentRecord < |results| {
        data := results[currentRecord];
      } else {
        currentPage := currentPage + 1;
        var fetched := FetchData(currentPage);
        if !fetched {
          return Stop;
        }
        currentRecord := 0;
        if |results| == 0 {
          return Fail(IndexError);
        }
        data := results[currentRecord];
      }
      currentRecord := currentRecord + 1;
      step := Yield(Construct(kind, data));
    }

    /** count(): iterate from the current position to the end and count the records;
        an error raised by next() is returned instead. */
    method Count() returns (r: Result<nat, Failure>)
      modifies this
      ensures var d := Drain(kind, client, old(State()));
              State() == d.final && r == (if d.end.Stop? then Ok(|d.records|) else Err(d.end.failure))
    {
      ghost var d := Drain(kind, client, State());
      var total: nat := 0;
      while true
        invariant Drain(kind, client, State()).end == d.end
        invariant Drain(kind, client, State()).final == d.final
        invariant total + |Drain(kind, client, State()).records| == |d.records|
        decreases |EndpointFor(client, kind).pages| + 1 - currentPage, |results| - currentRecord
      {
        var step := Next();
        if !step.Yield? {
          r := if step.Stop? then Ok(total) else Err(step.failure);
          break;
        }
        total := total + 1;
      }
    }
  }

  /** all(): a new query set of the kind. */
  method All(client: Client, kind: Kind) returns (qs: QuerySet)
    ensures fresh(qs) && qs.kind == kind && qs.client == client && qs.State() == Fresh
  {
    qs := new QuerySet(kind, client);
  }
}
