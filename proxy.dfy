/**
 * The proxy that sits between the activities and the server: it forwards
 * requests while online, answers from the question store while offline,
 * keeps the buffered results of a search, and queues the submissions made
 * offline until the connection comes back.
 *
 * The event bus is the `log` field: every event the proxy emits is appended
 * to it, in order, and an unchecked exception that escapes a handler is
 * appended as `Crashed`. Whether the device is online, whether the app is in
 * its server-sync state and whether the backup file could be read are
 * parameters of the handlers that ask.
 */
module Proxy {
  import opened Questions
  import opened ProxyProtocol
  import SQLiteCache

  /** A reply the store can give for a random question: not found exactly when it is empty, else one of its questions, read back whole. */
  ghost predicate RandomReply(t: SQLiteCache.Tables, r: Reply) {
    if t.questions == map[] then r == Reply(NoBody, StatusNotFound)
    else
      && r.status == StatusOk
      && r.entity.QuestionBody?
      && r.entity.question.id in t.questions
      && r.entity.question == SQLiteCache.QuestionAt(t, r.entity.question.id)
  }

  /** What handing out the questions `qs` one by one emits. */
  function Receipts(qs: seq<Question>): (r: seq<Outcome>)
    ensures |r| == |qs|
    ensures forall i | 0 <= i < |qs| :: r[i] == Received(Some(Reply(QuestionBody(qs[i]), StatusOk)))
  {
    if qs == [] then [] else [Received(Some(Reply(QuestionBody(qs[0]), StatusOk)))] + Receipts(qs[1..])
  }

  /** Handing out two runs of questions emits the receipts of the first run, then those of the second. */
  lemma {:induction false} ReceiptsAppend(a: seq<Question>, b: seq<Question>)
    ensures Receipts(a + b) == Receipts(a) + Receipts(b)
  {
    if a != [] {
      assert (a + b)[1..] == a[1..] + b;
      ReceiptsAppend(a[1..], b);
    }
  }

  /** A store holding a single question answers every random request with exactly that question. */
  lemma RandomReplyOfOnlyQuestion(q: Question, r: Reply)
    ensures RandomReply(SQLiteCache.Cached(SQLiteCache.Empty, q), r) <==> r == Reply(QuestionBody(q), StatusOk)
  {
    SQLiteCache.OnlyQuestion(q);
  }

  class SyncProxy {
    /** Which kind of question the next get asks for. */
    var mode: Mode
    /** The search given last; present whenever the mode is not `Normal`. */
    var query: Option<Query>
    /** Search results not yet handed out. */
    var results: seq<Question>
    /** The cursor of the last search page, `None` before the first page. */
    var next: Option<string>
    /** Submissions waiting for the connection, in memory. */
    var pending: seq<Submission>
    /** The same queue as last written to the backup file. */
    var persisted: seq<Submission>
    /** The submission posted last, put back at the head of the queue when its post fails. */
    var questionToSubmit: Option<Submission>
    /** Every event emitted so far, in order. */
    var log: seq<Outcome>
    /** The question store answering while offline. */
    const cache: SQLiteCache.Store

    ghost predicate Valid()
      reads this`mode, this`query, cache
    {
      cache.Valid() && (mode != Normal ==> query.Some?)
    }

    /** A proxy over `cache`, with `backup` the queue found in the backup file. */
    constructor (cache: SQLiteCache.Store, backup: seq<Submission>)
      requires cache.Valid()
      ensures Valid() && this.cache == cache
      ensures mode == Normal && query == None && results == [] && next == None
      ensures pending == [] && persisted == backup && questionToSubmit == None && log == []
    {
      this.cache := cache;
      mode, query, results, next := Normal, None, [], None;
      pending, persisted, questionToSubmit, log := [], backup, None, [];
    }

    // -------------------------------------------------------------------
    // Effects shared by a handler and the dispatch that calls it
    // -------------------------------------------------------------------

    /** The first buffered result is handed out and the mode becomes `m`. */
    twostate predicate HandedOutHead(m: Mode)
      reads this
    {
      && old(results) != []
      && results == old(results)[1..]
      && mode == m
      && log == old(log) + [Received(Some(Reply(QuestionBody(old(results)[0]), StatusOk)))]
    }

    /** The next page of the search for `text` is requested, with `req` as the base request. */
    twostate predicate RequestedNextPage(req: Request, text: string, event: Option<nat>)
      reads this
    {
      && results == old(results)
      && mode == old(mode)
      && log == old(log) + [Connection(AddOrRetrieveQuestion), SentPost(NextRequest(req, text, next), event)]
    }

    /**
     * The questions `found` are appended to the buffer in some order and the
     * first buffered result is handed out; the mode says whether any is left.
     */
    twostate predicate BufferedAndHandedOut(found: set<Question>)
      reads this
    {
      exists order: seq<Question> | multiset(order) == multiset(found) ::
        && old(results) + order != []
        && results == (old(results) + order)[1..]
        && mode == (if results == [] then Normal else Next)
        && log == old(log) + [Received(Some(Reply(QuestionBody((old(results) + order)[0]), StatusOk)))]
    }

    /**
     * One drain step of the submission queue, after the events `first`: the
     * queue is reloaded from the backup file when it could be read, then its
     * head is posted again and the rest is written back; an empty queue
     * reports the switch to online.
     */
    twostate predicate Drained(readOk: bool, online: bool, first: seq<Outcome>)
      reads this
    {
      var loaded := if readOk then old(persisted) else old(pending);
      && pending == DrainQueue(loaded, online)
      && (loaded == [] ==> persisted == old(persisted) && questionToSubmit == old(questionToSubmit))
      && (loaded != [] ==> persisted == pending && questionToSubmit == Some(loaded[0]))
      && log == old(log) + first + DrainOutcomes(loaded, online)
    }

    // -------------------------------------------------------------------
    // Query state
    // -------------------------------------------------------------------

    /** Starts a search: the next get asks for questions matching `newQuery`. */
    method GiveQuery(newQuery: Query)
      requires Valid()
      modifies this`mode, this`query
      ensures Valid()
      ensures mode == Search && query == Some(newQuery)
    {
      mode := Search;
      query := Some(newQuery);
    }

    /** Back to random questions, with an empty submission queue written to the backup file. */
    method ResetState()
      requires Valid()
      modifies this`mode, this`pending, this`persisted
      ensures Valid()
      ensures mode == Normal && pending == [] && persisted == []
    {
      mode := Normal;
      pending := [];
      persisted := pending;
    }

    // -------------------------------------------------------------------
    // Getting questions
    // -------------------------------------------------------------------

    /** Dispatches a get on connectivity and mode. */
    method DoHttpGet(req: Request, event: nat, online: bool)
      requires Valid()
      modifies this`mode, this`results, this`log
      ensures Valid()
      ensures online && old(mode) == Normal ==>
        mode == old(mode) && results == old(results) &&
        log == old(log) + [Connection(AddOrRetrieveQuestion), SentGet(req, event)]
      ensures online && old(mode) == Search ==>
        mode == old(mode) && results == old(results) &&
        log == old(log) + [Connection(AddOrRetrieveQuestion), SentPost(SearchRequest(req, query.value.text), Some(event))]
      ensures online && old(mode) == Next && old(results) == [] ==>
        RequestedNextPage(req, query.value.text, Some(event))
      ensures online && old(mode) == Next && old(results) != [] ==>
        HandedOutHead(ModeAfterPage(next, results))
      ensures !online && old(mode) == Normal ==>
        mode == old(mode) && results == old(results) &&
        exists r :: RandomReply(cache.Contents(), r) && log == old(log) + [Received(Some(r))]
      ensures !online && old(mode) == Search ==>
        var found := SQLiteCache.Matching(cache.Contents(), query.value.matches);
        && (found == {} ==> mode == Normal && results == old(results) && log == old(log))
        && (found != {} ==> BufferedAndHandedOut(found))
      ensures !online && old(mode) == Next && old(results) == [] ==>
        mode == old(mode) && results == old(results) && log == old(log) + [Crashed(EmptyResults)]
      ensures !online && old(mode) == Next && old(results) != [] ==>
        HandedOutHead(if results == [] then Normal else Next)
    {
      if online {
        match mode
        case Search => SearchOnServer(req, event);
        case Next => ContinueSearchingOnServer(req, event);
        case Normal => RetrieveQuestionFromServer(req, event);
      } else {
        match mode
        case Search => SearchInCache();
        case Next => ContinueSearchingInCache();
        case Normal => RetrieveQuestionFromCache();
      }
    }

    /** Asks the server for a random question. */
    method RetrieveQuestionFromServer(req: Request, event: nat)
      modifies this`log
      ensures log == old(log) + [Connection(AddOrRetrieveQuestion), SentGet(req, event)]
    {
      log := log + [Connection(AddOrRetrieveQuestion), SentGet(req, event)];
    }

    /** Posts the first request of the current search. */
    method SearchOnServer(req: Request, event: nat)
      requires query.Some?
      modifies this`log
      ensures log == old(log) + [Connection(AddOrRetrieveQuestion), SentPost(SearchRequest(req, query.value.text), Some(event))]
    {
      log := log + [Connection(AddOrRetrieveQuestion), SentPost(SearchRequest(req, query.value.text), Some(event))];
    }

    /** Posts a follow-up request for the page after the current cursor. */
    method GetNextResultFromServer(req: Request, event: Option<nat>)
      requires query.Some?
      modifies this`log
      ensures log == old(log) + [Connection(AddOrRetrieveQuestion), SentPost(NextRequest(req, query.value.text, next), event)]
    {
      log := log + [Connection(AddOrRetrieveQuestion), SentPost(NextRequest(req, query.value.text, next), event)];
    }

    /**
     * Online continuation of a search: a buffered result when there is one
     * (leaving the search once the buffer and the cursor are both used up),
     * the next page otherwise.
     */
    method ContinueSearchingOnServer(req: Request, event: nat)
      requires Valid() && mode == Next
      modifies this`results, this`mode, this`log
      ensures Valid()
      ensures old(results) == [] ==> RequestedNextPage(req, query.value.text, Some(event))
      ensures old(results) != [] ==> HandedOutHead(ModeAfterPage(next, results))
    {
      if results == [] {
        GetNextResultFromServer(req, Some(event));
      } else {
        var head := results[0];
        results := results[1..];
        if CursorExhausted(next) && results == [] {
          mode := Normal;
        }
        log := log + [Received(Some(Reply(QuestionBody(head), StatusOk)))];
      }
    }

    /**
     * Offline continuation of a search: hands out the first buffered result.
     * With nothing buffered the removal fails and the handler stops.
     */
    method ContinueSearchingInCache()
      requires Valid() && mode == Next
      modifies this`results, this`mode, this`log
      ensures Valid()
      ensures old(results) == [] ==> mode == old(mode) && results == old(results) && log == old(log) + [Crashed(EmptyResults)]
      ensures old(results) != [] ==> HandedOutHead(if results == [] then Normal else Next)
    {
      if results == [] {
        log := log + [Crashed(EmptyResults)];
      } else {
        var head := results[0];
        results := results[1..];
        mode := if results == [] then Normal else Next;
        log := log + [Received(Some(Reply(QuestionBody(head), StatusOk)))];
      }
    }

    /**
     * Offline start of a search: every stored question matching the query is
     * appended to the buffer, in the order the store's set yields them, and
     * the first buffered result is handed out. When nothing matches the
     * proxy goes back to random questions and emits nothing.
     */
    method SearchInCache()
      requires Valid() && query.Some?
      modifies this`results, this`mode, this`log
      ensures Valid()
      ensures
        var found := SQLiteCache.Matching(cache.Contents(), query.value.matches);
        && (found == {} ==> mode == Normal && results == old(results) && log == old(log))
        && (found != {} ==> BufferedAndHandedOut(found))
    {
      var found := cache.GetQuestionSetByTag(query.value.matches);
      if found == {} {
        mode := Normal;
      } else {
        ghost var order := BufferEach(found);
        assert multiset(order) == multiset(found);
        assert order != [] by {
          var q :| q in found;
          assert q in multiset(order);
        }
        var all := results;
        var head := results[0];
        results := results[1..];
        mode := if results == [] then Normal else Next;
        log := log + [Received(Some(Reply(QuestionBody(head), StatusOk)))];
        assert all == old(results) + order;
      }
    }

    /** Appends the questions of `found` to the buffer, one at a time, in an order the set leaves open. */
    method BufferEach(found: set<Question>) returns (ghost order: seq<Question>)
      modifies this`results
      ensures multiset(order) == multiset(found)
      ensures results == old(results) + order
    {
      order := [];
      var remaining := found;
      while remaining != {}
        invariant remaining <= found
        invariant multiset(order) + multiset(remaining) == multiset(found)
        invariant results == old(results) + order
        decreases |remaining|
      {
        var q :| q in remaining;
        assert multiset(remaining) == multiset(remaining - {q}) + multiset{q};
        results := results + [q];
        order := order + [q];
        remaining := remaining - {q};
      }
    }

    /** Offline random question: the store's answer. */
    method RetrieveQuestionFromCache()
      requires Valid()
      modifies this`log
      ensures exists r :: RandomReply(cache.Contents(), r) && log == old(log) + [Received(Some(r))]
    {
      var r := OfflineRandomQuestion();
      log := log + [Received(Some(r))];
    }

    /** A random stored question as a reply, or not found when the store is empty. */
    method OfflineRandomQuestion() returns (r: Reply)
      requires Valid()
      ensures RandomReply(cache.Contents(), r)
      ensures r.status == StatusNotFound <==> cache.questions == map[]
    {
      var q := cache.GetRandomQuestion();
      if q.None? {
        r := Reply(NoBody, StatusNotFound);
      } else {
        r := Reply(QuestionBody(q.value), StatusOk);
      }
    }

    /** The server cannot be reached for a get: report the error, with a stored question as the fallback answer. */
    method OnGetConnectionError()
      requires Valid()
      modifies this`log
      ensures exists r :: RandomReply(cache.Contents(), r) && log == old(log) + [Connection(CommunicationError), ReceivedWithError(r)]
    {
      log := log + [Connection(CommunicationError)];
      var r := OfflineRandomQuestion();
      log := log + [ReceivedWithError(r)];
    }

    /**
     * A reply to a get or a search arrives. A client error is passed on without
     * a body, a server error is handled as a lost connection and then passed on,
     * and a success is stored and passed on: a single question outside a
     * search, the first question of a page during one, with the rest of the
     * page buffered and stored and the cursor kept.
     */
    method OnReceivedQuestion(reply: Reply, sessionId: string)
      requires Valid()
      modifies this`mode, this`results, this`next, this`log, cache
      ensures Valid()
      ensures Classify(reply.status) != Success ==>
        mode == old(mode) && results == old(results) && next == old(next) &&
        cache.Contents() == old(cache.Contents())
      ensures Classify(reply.status) == ClientError ==>
        log == old(log) + [Connection(CommunicationSuccess), Received(None)]
      ensures Classify(reply.status) == ServerError ==>
        exists r :: RandomReply(cache.Contents(), r) &&
          log == old(log) + [Connection(CommunicationError), ReceivedWithError(r), Received(Some(reply))]
      ensures Classify(reply.status) == Success && old(mode) == Normal ==>
        && mode == old(mode) && results == old(results) && next == old(next)
        && (reply.entity.QuestionBody? ==>
              && cache.Contents() == SQLiteCache.Cached(old(cache.Contents()), reply.entity.question)
              && log == old(log) + [Connection(CommunicationSuccess), Received(Some(Reply(reply.entity, StatusOk)))])
        && (reply.entity.NoBody? ==>
              cache.Contents() == old(cache.Contents()) && log == old(log) + [Crashed(NullEntity)])
        && (!reply.entity.QuestionBody? && !reply.entity.NoBody? ==>
              cache.Contents() == old(cache.Contents()) && log == old(log) + [Crashed(InvalidQuestionJson)])
      ensures Classify(reply.status) == Success && old(mode) != Normal && reply.entity.NoBody? ==>
        && mode == old(mode) && results == old(results) && next == old(next)
        && cache.Contents() == old(cache.Contents())
        && log == old(log) + [Crashed(NullEntity)]
      ensures Classify(reply.status) == Success && old(mode) != Normal &&
              reply.entity.PageBody? && reply.entity.questions != [] ==>
        var qs := reply.entity.questions;
        && results == old(results) + qs[1..]
        && next == Some(reply.entity.next)
        && mode == ModeAfterPage(next, results)
        && cache.Contents() == SQLiteCache.Cached(SQLiteCache.CachedAll(old(cache.Contents()), qs[1..]), qs[0])
        && log == old(log) + [Connection(CommunicationSuccess), Received(Some(Reply(QuestionBody(qs[0]), StatusOk)))]
      ensures Classify(reply.status) == Success && old(mode) != Normal &&
              reply.entity.PageBody? && reply.entity.questions == [] ==>
        && results == old(results) && next == old(next)
        && cache.Contents() == old(cache.Contents())
        && mode == ModeAfterPage(next, results)
        && log == old(log) +
             (if mode == Next then
                [Connection(AddOrRetrieveQuestion),
                 SentPost(NextRequest(Request("", [AuthorizationHeader(sessionId)], ""), query.value.text, next), None),
                 Connection(CommunicationSuccess), Received(Some(reply))]
              else
                [Connection(CommunicationSuccess), Received(Some(Reply(NoBody, StatusNotFound)))])
      ensures Classify(reply.status) == Success && old(mode) != Normal &&
              !reply.entity.NoBody? && !reply.entity.PageBody? ==>
        && results == old(results) && next == Some("")
        && cache.Contents() == old(cache.Contents())
        && mode == ModeAfterPage(next, results)
        && log == old(log) + [Crashed(InvalidQuestionJson)]
    {
      var band := Classify(reply.status);
      if band == ClientError {
        log := log + [Connection(CommunicationSuccess), Received(None)];
      } else if band == ServerError {
        OnGetConnectionError();
        log := log + [Received(Some(reply))];
      } else if mode == Normal {
        match reply.entity
        case QuestionBody(q) =>
          cache.CacheQuestion(q);
          log := log + [Connection(CommunicationSuccess), Received(Some(Reply(QuestionBody(q), StatusOk)))];
        case NoBody =>
          log := log + [Crashed(NullEntity)];
        case _ =>
          log := log + [Crashed(InvalidQuestionJson)];
      } else {
        match reply.entity
        case NoBody =>
          log := log + [Crashed(NullEntity)];
        case PageBody(qs, cursor) =>
          if qs != [] {
            TakePage(qs);
            next := Some(cursor);
            mode := ModeAfterPage(next, results);
            cache.CacheQuestion(qs[0]);
            log := log + [Connection(CommunicationSuccess), Received(Some(Reply(QuestionBody(qs[0]), StatusOk)))];
          } else {
            mode := ModeAfterPage(next, results);
            if mode == Next {
              var followUp := Request("", [AuthorizationHeader(sessionId)], "");
              GetNextResultFromServer(followUp, None);
              log := log + [Connection(CommunicationSuccess), Received(Some(reply))];
            } else {
              log := log + [Connection(CommunicationSuccess), Received(Some(Reply(NoBody, StatusNotFound)))];
            }
          }
        case _ =>
          next := Some("");
          mode := ModeAfterPage(next, results);
          log := log + [Crashed(InvalidQuestionJson)];
      }
    }

    /** Buffers and stores every question of a page but the first, in page order. */
    method TakePage(qs: seq<Question>)
      requires cache.Valid() && qs != []
      modifies this`results, cache
      ensures cache.Valid()
      ensures results == old(results) + qs[1..]
      ensures cache.Contents() == SQLiteCache.CachedAll(old(cache.Contents()), qs[1..])
    {
      ghost var start := cache.Contents();
      var rest := qs[1..];
      var i := 0;
      while i < |rest|
        invariant 0 <= i <= |rest|
        invariant results == old(results) + rest[..i]
        invariant cache.Valid()
        invariant cache.Contents() == SQLiteCache.CachedAll(start, rest[..i])
      {
        assert rest[..i + 1] == rest[..i] + [rest[i]];
        StoreNext(start, rest[..i], rest[i], rest[..i + 1]);
        results := results + [rest[i]];
        i := i + 1;
      }
      assert rest[..i] == rest;
    }

    /** One step of the page loop: stores `q` after the questions `done`, which makes `done'` stored. */
    method StoreNext(ghost start: SQLiteCache.Tables, ghost done: seq<Question>, q: Question, ghost done': seq<Question>)
      requires cache.Valid()
      requires cache.Contents() == SQLiteCache.CachedAll(start, done)
      requires done' == done + [q]
      modifies cache
      ensures cache.Valid()
      ensures cache.Contents() == SQLiteCache.CachedAll(start, done')
    {
      cache.CacheQuestion(q);
      SQLiteCache.CachedAllSnoc(start, done, q);
    }

    // -------------------------------------------------------------------
    // Posting questions
    // -------------------------------------------------------------------

    /**
     * Posts a submission: to the server when online; otherwise it is queued,
     * the queue is written to the backup file and the submission is reported
     * as accepted with its own body.
     */
    method DoHttpPost(req: Request, event: nat, online: bool)
      modifies this`questionToSubmit, this`pending, this`persisted, this`log
      ensures questionToSubmit == Some(Submission(req, event))
      ensures online ==> pending == old(pending) && persisted == old(persisted)
      ensures !online ==> pending == old(pending) + [Submission(req, event)] && persisted == pending
      ensures log == old(log) + PostOutcomes(Submission(req, event), online)
    {
      var submission := Submission(req, event);
      questionToSubmit := Some(submission);
      if online {
        log := log + [Connection(AddOrRetrieveQuestion), SentPost(req, Some(event))];
      } else {
        pending := pending + [submission];
        persisted := pending;
        log := log + [Posted(Some(Reply(TextBody(req.entity), StatusOk)))];
      }
    }

    /** The connection is back: one drain step of the submission queue. */
    method OnOnline(readOk: bool, online: bool)
      modifies this`pending, this`questionToSubmit, this`persisted, this`log
      ensures Drained(readOk, online, [])
    {
      if readOk {
        pending := persisted;
      }
      if pending != [] {
        var head := pending[0];
        pending := pending[1..];
        persisted := pending;
        DoHttpPost(head.request, head.event, online);
      } else {
        log := log + [SwitchSuccessful, Connection(CommunicationSuccess)];
      }
    }

    /**
     * A reply to a post arrives. A server error puts the submission back at
     * the head of the queue. Otherwise a successful reply carrying a question
     * stores it, the reply is passed on (without a body for a client error),
     * and the next queued submission is posted while the app is syncing.
     */
    method OnPostedQuestion(reply: Reply, syncing: bool, readOk: bool, online: bool)
      requires Valid()
      // A server-error reply is taken to answer a submission sent by DoHttpPost, which sets questionToSubmit.
      requires Classify(reply.status) == ServerError ==> questionToSubmit.Some?
      modifies this`pending, this`persisted, this`questionToSubmit, this`log, cache
      ensures Valid()
      ensures Classify(reply.status) == ServerError ==>
        && cache.Contents() == old(cache.Contents())
        && questionToSubmit == old(questionToSubmit)
        && pending == [old(questionToSubmit).value] + old(pending) && persisted == pending
        && log == old(log) + [Connection(CommunicationError), PostFailed]
      ensures Classify(reply.status) != ServerError ==>
        var posted := Posted(if Classify(reply.status) == ClientError then None else Some(reply));
        && cache.Contents() ==
             (if Classify(reply.status) == Success && reply.entity.QuestionBody?
              then SQLiteCache.Cached(old(cache.Contents()), reply.entity.question)
              else old(cache.Contents()))
        && (syncing ==> Drained(readOk, online, [posted]))
        && (!syncing ==>
              && pending == old(pending) && persisted == old(persisted)
              && questionToSubmit == old(questionToSubmit)
              && log == old(log) + [posted, Connection(CommunicationSuccess)])
    {
      var band := Classify(reply.status);
      if band == ServerError {
        OnPostConnectionError();
      } else {
        StorePosted(reply);
        var posted := Posted(if band == ClientError then None else Some(reply));
        log := log + [posted];
        if syncing {
          label beforeDrain:
          OnOnline(readOk, online);
          assert Drained@beforeDrain(readOk, online, []);
        } else {
          log := log + [Connection(CommunicationSuccess)];
        }
      }
    }

    /** A successful post reply carrying a question stores that question; any other reply leaves the store as it is. */
    method StorePosted(reply: Reply)
      requires cache.Valid()
      modifies cache
      ensures cache.Valid()
      ensures cache.Contents() ==
        (if Classify(reply.status) == Success && reply.entity.QuestionBody?
         then SQLiteCache.Cached(old(cache.Contents()), reply.entity.question)
         else old(cache.Contents()))
    {
      if Classify(reply.status) == Success && reply.entity.QuestionBody? {
        cache.CacheQuestion(reply.entity.question);
      }
    }

    /** A post could not reach the server: the submission goes back to the head of the queue. */
    method OnPostConnectionError()
      // A post connection error is taken to follow a submission sent by DoHttpPost, which sets questionToSubmit.
      requires questionToSubmit.Some?
      modifies this`pending, this`persisted, this`log
      ensures pending == [questionToSubmit.value] + old(pending) && persisted == pending
      ensures log == old(log) + [Connection(CommunicationError), PostFailed]
    {
      pending := [questionToSubmit.value] + pending;
      persisted := pending;
      log := log + [Connection(CommunicationError), PostFailed];
    }
  }
}
