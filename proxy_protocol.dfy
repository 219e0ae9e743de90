/**
 * The values the sync proxy works with and the pure parts of its protocol:
 * the three response bands, the cursor-exhausted test, the bodies of the
 * search requests (with the reading a server gives them), and the effect of
 * one step of draining the pending-submission queue.
 */
module ProxyProtocol {
  import opened Questions

  const HttpErrorThreshold := 500
  const HttpErrorIntermediateThreshold := 400
  const StatusOk := 200
  const StatusNotFound := 404

  /** The opening of both search bodies. */
  const QueryKey := "{ \"query\": \""
  /** What separates the query from the cursor in a follow-up search body. */
  const FromKey := "\", \"from\": \""
  const SearchUrl := "https://sweng-quiz.appspot.com/search"
  const ContentTypeJson := ("Content-type", "application/json")

  /** The proxy's state: random questions, a search to start, a search to continue. */
  datatype Mode = Normal | Search | Next

  /** The three ways a status code is read. */
  datatype Band = Success | ClientError | ServerError

  /** An outgoing request: target URL, headers in the order added, body. */
  datatype Request = Request(url: string, headers: seq<(string, string)>, entity: string)

  /**
   * A response body, already decoded: none (`null`), plain text, one
   * question, a page of search results with its cursor (the JSON `null`
   * cursor reads as the text "null"), or something that is not JSON of
   * the expected shape.
   */
  datatype Entity =
    | NoBody
    | TextBody(text: string)
    | QuestionBody(question: Question)
    | PageBody(questions: seq<Question>, next: string)
    | Unreadable

  /** A server response: body and status code. */
  datatype Reply = Reply(entity: Entity, status: int)

  /** A submission waiting to be posted: the request and the event that carries its reply. */
  datatype Submission = Submission(request: Request, event: nat)

  datatype ConnectionKind = AddOrRetrieveQuestion | CommunicationSuccess | CommunicationError

  /** The unchecked exceptions that escape a handler. */
  datatype Crash = NullEntity | InvalidQuestionJson | EmptyResults

  /**
   * What the proxy emits, in order: connection-state events, requests handed
   * to the server (with the event that will carry the reply; `None` for an
   * event the proxy creates itself), question and submission outcomes, and a
   * crash when an exception escapes.
   */
  datatype Outcome =
    | Connection(kind: ConnectionKind)
    | SwitchSuccessful
    | SentGet(request: Request, event: nat)
    | SentPost(request: Request, replyEvent: Option<nat>)
    | Received(reply: Option<Reply>)
    | ReceivedWithError(errorReply: Reply)
    | Posted(postReply: Option<Reply>)
    | PostFailed
    | Crashed(crash: Crash)

  /** A parsed search query: its text and the tag predicate it compiles to, over joined (id, tag) rows. */
  datatype Query = Query(text: string, matches: (int, string) -> bool)

  /** Status codes from 500 up mean the server cannot be used, 400 to 499 are an answer without a result, the rest succeed. */
  function Classify(status: int): (b: Band)
    ensures b == ServerError <==> status >= HttpErrorThreshold
    ensures b == ClientError <==> HttpErrorIntermediateThreshold <= status < HttpErrorThreshold
    ensures b == Success <==> status < HttpErrorIntermediateThreshold
  {
    if status >= HttpErrorThreshold then ServerError
    else if status >= HttpErrorIntermediateThreshold then ClientError
    else Success
  }

  /** No further page: the cursor is absent, empty or the text "null". */
  predicate CursorExhausted(next: Option<string>) {
    next == None || next == Some("") || next == Some("null")
  }

  /** The cursor as string concatenation writes it (`null` becomes "null"). */
  function CursorText(next: Option<string>): string {
    if next.Some? then next.value else "null"
  }

  /** The mode after a search page was taken in: back to random questions only when nothing is left. */
  function ModeAfterPage(next: Option<string>, results: seq<Question>): Mode {
    if CursorExhausted(next) && results == [] then Normal else Next
  }

  /** The body of the first request of a search. */
  function SearchBody(query: string): string {
    QueryKey + query + "\" }"
  }

  /** The body of a follow-up request that continues a search from a cursor. */
  function NextBody(query: string, cursor: string): string {
    QueryKey + query + FromKey + cursor + "\"}"
  }

  /** The caller's request turned into the first search request. */
  function SearchRequest(req: Request, query: string): Request {
    req.(url := SearchUrl, headers := req.headers + [ContentTypeJson], entity := SearchBody(query))
  }

  /** The caller's request turned into a follow-up search request. */
  function NextRequest(req: Request, query: string, next: Option<string>): Request {
    req.(url := SearchUrl, headers := req.headers + [ContentTypeJson], entity := NextBody(query, CursorText(next)))
  }

  /** The header the proxy puts on the request it creates for a follow-up search. */
  function AuthorizationHeader(sessionId: string): (string, string) {
    ("Authorization", "Tequila " + sessionId)
  }

  // ---------------------------------------------------------------------
  // Reading the search bodies back: the reader only splits on double
  // quotes and decodes no JSON escapes, so for a query holding a backslash
  // it reads the raw text, where a JSON reader would decode the escape
  // ---------------------------------------------------------------------

  predicate NoQuote(s: string) {
    forall i | 0 <= i < |s| :: s[i] != '"'
  }

  /** The position of the first double quote in `s`, or |s| when there is none. */
  function IndexOfQuote(s: string): (k: nat)
    ensures k <= |s|
    ensures forall i | 0 <= i < k :: s[i] != '"'
    ensures k < |s| ==> s[k] == '"'
  {
    if s == [] then 0
    else if s[0] == '"' then 0
    else 1 + IndexOfQuote(s[1..])
  }

  /** The query of a first search body, if `body` is one. */
  function ParseSearchBody(body: string): Option<string> {
    if |body| >= |QueryKey| && body[..|QueryKey|] == QueryKey then
      var rest := body[|QueryKey|..];
      var k := IndexOfQuote(rest);
      if rest[k..] == "\" }" then Some(rest[..k]) else None
    else
      None
  }

  /** The query and the cursor of a follow-up search body, if `body` is one. */
  function ParseNextBody(body: string): Option<(string, string)> {
    if |body| >= |QueryKey| && body[..|QueryKey|] == QueryKey then
      var rest := body[|QueryKey|..];
      var k := IndexOfQuote(rest);
      var tail := rest[k..];
      if |tail| >= |FromKey| && tail[..|FromKey|] == FromKey then
        var rest2 := tail[|FromKey|..];
        var k2 := IndexOfQuote(rest2);
        if rest2[k2..] == "\"}" then Some((rest[..k], rest2[..k2])) else None
      else
        None
    else
      None
  }

  /** The first quote of `a + b` is the first character of `b` when `a` has none. */
  lemma {:induction false} IndexOfQuoteAfter(a: string, b: string)
    requires NoQuote(a)
    requires b != [] && b[0] == '"'
    ensures IndexOfQuote(a + b) == |a|
  {
    if a != [] {
      assert (a + b)[1..] == a[1..] + b;
      IndexOfQuoteAfter(a[1..], b);
    }
  }

  /** A first search body gives its query back, when the query holds no double quote. */
  lemma SearchBodyRoundTrip(query: string)
    requires NoQuote(query)
    ensures ParseSearchBody(SearchBody(query)) == Some(query)
  {
    var body := SearchBody(query);
    assert body[..|QueryKey|] == QueryKey;
    var rest := body[|QueryKey|..];
    assert rest == query + "\" }";
    IndexOfQuoteAfter(query, "\" }");
    assert rest[|query|..] == "\" }";
    assert rest[..|query|] == query;
  }

  /** A follow-up body gives its query and cursor back, when neither holds a double quote. */
  lemma NextBodyRoundTrip(query: string, cursor: string)
    requires NoQuote(query) && NoQuote(cursor)
    ensures ParseNextBody(NextBody(query, cursor)) == Some((query, cursor))
  {
    var body := NextBody(query, cursor);
    assert body[..|QueryKey|] == QueryKey;
    var rest := body[|QueryKey|..];
    assert rest == query + (FromKey + cursor + "\"}");
    IndexOfQuoteAfter(query, FromKey + cursor + "\"}");
    var tail := rest[|query|..];
    assert tail == FromKey + cursor + "\"}";
    assert tail[..|FromKey|] == FromKey;
    var rest2 := tail[|FromKey|..];
    assert rest2 == cursor + "\"}";
    IndexOfQuoteAfter(cursor, "\"}");
    assert rest2[|cursor|..] == "\"}";
    assert rest2[..|cursor|] == cursor;
    assert rest[..|query|] == query;
  }

  /** A follow-up body is never read as a first search body, so the server can tell the two apart. */
  lemma NextBodyIsNotSearchBody(query: string, cursor: string)
    requires NoQuote(query)
    ensures ParseSearchBody(NextBody(query, cursor)) == None
  {
    var body := NextBody(query, cursor);
    assert body[..|QueryKey|] == QueryKey;
    var rest := body[|QueryKey|..];
    assert rest == query + (FromKey + cursor + "\"}");
    IndexOfQuoteAfter(query, FromKey + cursor + "\"}");
    assert rest[|query|..] == FromKey + cursor + "\"}";
    assert rest[|query|..][1] == ',';
  }

  // ---------------------------------------------------------------------
  // Draining the pending-submission queue
  // ---------------------------------------------------------------------

  /**
   * The queue after one drain step: the head leaves; when the resubmission
   * finds the device offline it is queued again at the tail.
   */
  function DrainQueue(loaded: seq<Submission>, online: bool): seq<Submission> {
    if loaded == [] then []
    else if online then loaded[1..]
    else loaded[1..] + [loaded[0]]
  }

  /** What posting `s` emits: a request to the server when online, a local acceptance carrying the body when offline. */
  function PostOutcomes(s: Submission, online: bool): seq<Outcome> {
    if online then [Connection(AddOrRetrieveQuestion), SentPost(s.request, Some(s.event))]
    else [Posted(Some(Reply(TextBody(s.request.entity), StatusOk)))]
  }

  /** What one drain step emits: the head's resubmission, or the switch and success events when nothing is queued. */
  function DrainOutcomes(loaded: seq<Submission>, online: bool): seq<Outcome> {
    if loaded == [] then [SwitchSuccessful, Connection(CommunicationSuccess)]
    else PostOutcomes(loaded[0], online)
  }

  /** The submissions `k` successful online drain steps resubmit, and the queue they leave. */
  function DrainTimes(queue: seq<Submission>, k: nat): (seq<Submission>, seq<Submission>)
    decreases k
  {
    if k == 0 || queue == [] then ([], queue)
    else
      var (sent, left) := DrainTimes(DrainQueue(queue, true), k - 1);
      ([queue[0]] + sent, left)
  }

  /** Draining is first in, first out: k steps resubmit the first k submissions in order and leave the rest. */
  lemma {:induction false} DrainIsFifo(queue: seq<Submission>, k: nat)
    requires k <= |queue|
    ensures DrainTimes(queue, k) == (queue[..k], queue[k..])
    decreases k
  {
    if k > 0 {
      DrainIsFifo(queue[1..], k - 1);
      assert queue[1..][..k - 1] == queue[1..k];
      assert queue[1..][k - 1..] == queue[k..];
      assert [queue[0]] + queue[1..k] == queue[..k];
    }
  }

  /** A drain step never loses a submission: what leaves when offline comes back at the tail, what leaves when online is the head. */
  lemma DrainKeepsSubmissions(loaded: seq<Submission>, online: bool)
    requires loaded != []
    ensures online ==> [loaded[0]] + DrainQueue(loaded, online) == loaded
    ensures !online ==> multiset(DrainQueue(loaded, online)) == multiset(loaded)
  {
    assert loaded == [loaded[0]] + loaded[1..];
  }
}
