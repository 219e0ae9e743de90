/**
 * Runs of the proxy through several handlers, as the activities and the
 * server drive it, with what each run ends in stated and proved.
 */
module ProxyScenarios {
  import opened Questions
  import opened ProxyProtocol
  import SQLiteCache
  import opened Proxy

  /**
   * Offline, the user asks for questions until the search is over:
   * the buffered results come out in buffer order, each exactly once, and
   * the proxy ends up back on random questions.
   */
  method BrowseOfflineResults(p: SyncProxy, req: Request, event: nat)
    requires p.Valid() && p.mode == Next && p.results != []
    modifies p`mode, p`results, p`log
    ensures p.Valid()
    ensures p.mode == Normal && p.results == []
    ensures p.log == old(p.log) + Receipts(old(p.results))
  {
    ghost var all := p.results;
    ghost var k := 0;
    while p.mode == Next
      invariant p.Valid()
      invariant 0 <= k <= |all|
      invariant p.results == all[k..]
      invariant p.log == old(p.log) + Receipts(all[..k])
      invariant p.mode == Next ==> p.results != []
      invariant p.mode == Normal ==> p.results == []
      invariant p.mode != Search
      decreases |p.results|
    {
      p.DoHttpGet(req, event, false);
      ReceiptsAppend(all[..k], [all[k]]);
      assert all[..k + 1] == all[..k] + [all[k]];
      k := k + 1;
    }
    assert all[..k] == all;
  }

  /**
   * A queued submission whose resubmission hits a server error goes back to
   * the head of the queue: the queue and the backup file end as they began,
   * nothing lost and nothing reordered.
   */
  method FailedResubmissionKeepsQueue(p: SyncProxy, failure: Reply)
    requires p.Valid()
    requires p.pending != [] && p.persisted == p.pending
    requires Classify(failure.status) == ServerError
    modifies p`pending, p`persisted, p`questionToSubmit, p`log, p.cache
    ensures p.Valid()
    ensures p.pending == old(p.pending) && p.persisted == old(p.persisted)
    ensures p.cache.Contents() == old(p.cache.Contents())
  {
    ghost var queue := p.pending;
    p.OnOnline(true, true);
    p.OnPostedQuestion(failure, true, true, true);
    DrainKeepsSubmissions(queue, true);
  }

  /**
   * A question submitted offline is accepted locally and queued; when the
   * connection comes back it is the one posted to the server, and the queue
   * is empty again.
   */
  method OfflineSubmissionIsPostedWhenOnline(p: SyncProxy, req: Request, event: nat)
    requires p.pending == [] && p.persisted == []
    modifies p`pending, p`persisted, p`questionToSubmit, p`log
    ensures p.pending == [] && p.persisted == []
    ensures p.questionToSubmit == Some(Submission(req, event))
    ensures p.log == old(p.log) +
      [Posted(Some(Reply(TextBody(req.entity), StatusOk))),
       Connection(AddOrRetrieveQuestion), SentPost(req, Some(event))]
  {
    p.DoHttpPost(req, event, false);
    p.OnOnline(true, true);
  }

  /**
   * The backup file is read only on reconnect, so a submission made offline
   * right after start-up overwrites the backup left by an earlier run: on
   * reconnect only the new submission is posted, and the earlier queue is
   * gone from memory and from the backup.
   */
  method OfflinePostAfterStartupDropsOldBackup(store: SQLiteCache.Store, backup: seq<Submission>,
                                               req: Request, event: nat) returns (p: SyncProxy)
    requires store.Valid()
    ensures p.pending == [] && p.persisted == []
    ensures forall s | s in backup :: s !in p.pending && s !in p.persisted
    ensures p.log ==
      [Posted(Some(Reply(TextBody(req.entity), StatusOk))),
       Connection(AddOrRetrieveQuestion), SentPost(req, Some(event))]
  {
    p := new SyncProxy(store, backup);
    p.DoHttpPost(req, event, false);
    p.OnOnline(true, true);
  }

  /**
   * Online search with a single page of two questions and no further page:
   * the search request goes out, the first question is shown, the second
   * comes from the buffer without another request, both are stored, and the
   * proxy is back on random questions.
   */
  method OnlineSearchOfOnePage(p: SyncProxy, query: Query, q0: Question, q1: Question,
                               req: Request, event: nat, sessionId: string)
    requires p.Valid() && p.results == []
    modifies p`mode, p`query, p`results, p`next, p`log, p.cache
    ensures p.Valid()
    ensures p.mode == Normal && p.results == [] && p.next == Some("null")
    ensures p.cache.Contents() == SQLiteCache.Cached(SQLiteCache.Cached(old(p.cache.Contents()), q1), q0)
    ensures p.log == old(p.log) +
      [Connection(AddOrRetrieveQuestion), SentPost(SearchRequest(req, query.text), Some(event)),
       Connection(CommunicationSuccess), Received(Some(Reply(QuestionBody(q0), StatusOk))),
       Received(Some(Reply(QuestionBody(q1), StatusOk)))]
  {
    StartOnlineSearch(p, query, req, event);
    ReceiveTwoQuestionPage(p, q0, q1, sessionId);
    HandOutLastResult(p, q1, req, event);
  }

  /** The last buffered result of an exhausted search is handed out without a request, ending the search. */
  method HandOutLastResult(p: SyncProxy, q: Question, req: Request, event: nat)
    requires p.Valid() && p.mode == Next && p.results == [q] && p.next == Some("null")
    modifies p`mode, p`results, p`log
    ensures p.Valid()
    ensures p.mode == Normal && p.results == []
    ensures p.log == old(p.log) + [Received(Some(Reply(QuestionBody(q), StatusOk)))]
  {
    p.DoHttpGet(req, event, true);
  }

  /** A page of two questions with no further page: the first is shown, the second is buffered, both are stored. */
  method ReceiveTwoQuestionPage(p: SyncProxy, q0: Question, q1: Question, sessionId: string)
    requires p.Valid() && p.mode == Search && p.results == []
    modifies p`mode, p`results, p`next, p`log, p.cache
    ensures p.Valid()
    ensures p.mode == Next && p.results == [q1] && p.next == Some("null")
    ensures p.cache.Contents() == SQLiteCache.Cached(SQLiteCache.Cached(old(p.cache.Contents()), q1), q0)
    ensures p.log == old(p.log) +
      [Connection(CommunicationSuccess), Received(Some(Reply(QuestionBody(q0), StatusOk)))]
  {
    p.OnReceivedQuestion(Reply(PageBody([q0, q1], "null"), StatusOk), sessionId);
    assert [q0, q1][1..] == [q1];
    assert SQLiteCache.CachedAll(old(p.cache.Contents()), [q1]) == SQLiteCache.Cached(old(p.cache.Contents()), q1) by {
      assert [q1] == [] + [q1];
      SQLiteCache.CachedAllSnoc(old(p.cache.Contents()), [], q1);
    }
  }

  /** Giving a query and asking for a question while online sends the first search request. */
  method StartOnlineSearch(p: SyncProxy, query: Query, req: Request, event: nat)
    requires p.Valid()
    modifies p`mode, p`query, p`results, p`log
    ensures p.Valid()
    ensures p.mode == Search && p.query == Some(query) && p.results == old(p.results)
    ensures p.log == old(p.log) + [Connection(AddOrRetrieveQuestion), SentPost(SearchRequest(req, query.text), Some(event))]
  {
    p.GiveQuery(query);
    p.DoHttpGet(req, event, true);
  }

  /**
   * An online page holding one question and a further cursor leaves the
   * proxy continuing the search with nothing buffered; if the connection is
   * lost at that point, asking for the next question fails on the empty
   * buffer.
   */
  method OfflineAfterSingleQuestionPage(p: SyncProxy, q0: Question, cursor: string,
                                        req: Request, event: nat, sessionId: string)
    requires p.Valid() && p.mode == Search && p.results == []
    requires !CursorExhausted(Some(cursor))
    modifies p`mode, p`results, p`next, p`log, p.cache
    ensures p.mode == Next && p.results == []
    ensures p.log == old(p.log) +
      [Connection(CommunicationSuccess), Received(Some(Reply(QuestionBody(q0), StatusOk))),
       Crashed(EmptyResults)]
  {
    p.OnReceivedQuestion(Reply(PageBody([q0], cursor), StatusOk), sessionId);
    assert [q0][1..] == [];
    p.DoHttpGet(req, event, false);
  }

  /** Offline with an empty store, a random question is answered with not found. */
  method OfflineEmptyStore(p: SyncProxy, req: Request, event: nat)
    requires p.Valid() && p.mode == Normal && p.cache.questions == map[]
    modifies p`mode, p`results, p`log
    ensures p.mode == Normal
    ensures p.log == old(p.log) + [Received(Some(Reply(NoBody, StatusNotFound)))]
  {
    p.DoHttpGet(req, event, false);
  }
}
