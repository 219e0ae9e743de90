# Offline question layer of SwEng2013QuizApp, modelled in Dafny

This project models the part of the quiz app that keeps working without a
connection. It has three pieces:

- **The sync proxy** (`Proxy`). It sits between the activities and the
  quiz server. Depending on a mode (`Normal` random questions, `Search` to
  start a search, `Next` to continue one) and on connectivity, it shapes and
  sends server requests or answers from the local store. It reads replies in
  three status bands (below 400, 400-499, 500 and up). It buffers the rest of
  a search page and keeps the page cursor. Questions submitted offline go on
  a FIFO queue that is written to a backup file after every change and
  drained head-first when the connection returns.
- **The relational question store** (`SQLiteCache`). It has three tables:
  questions by id, tags by (tag, id), and answers by (id, index). Writes are
  upserts keyed on those primary keys. A question is rebuilt from its rows.
  The store can also pick a random question, select the questions a tag
  predicate matches, and be cleared or reset.
- **The two-tier wrapper** (`RAMCache`). It is a memory-bounded map keyed
  by the question's hash code, in front of a persistent cache. Every write
  goes to both layers. A read tries memory first. Clearing empties memory
  only.

Files:

- `questions.dfy`: the `Question` value and `Option`.
- `sqlite_cache.dfy`: the tables as a value `Tables` with the functions that
  state what a write does and what a read returns (`Cached`, `QuestionAt`,
  `AnswersOf`, `TagsOf`, `Matching`), lemmas about them, and the class `Store`.
  The store's fields are the three tables. Its methods run the loops of
  `SQLiteCache.java` and are proved against those functions.
- `ram_cache.dfy`: the class `Cache` with the map, its running byte count
  and the log of writes sent to the persistent layer.
- `proxy_protocol.dfy`: the pure parts of the proxy:
  - the bands and the cursor-exhausted test;
  - the two search bodies, with a reading of them that gives query and
    cursor back;
  - one drain step of the submission queue, with its FIFO property.
- `proxy.dfy`: the class `SyncProxy`. Its fields are the mode, query, result
  buffer, cursor, queue, backup snapshot, last submission and the log of
  emitted events. It holds one method per handler.
- `proxy_scenarios.dfy`: runs through several handlers:
  - browsing offline search results to the end;
  - a failed resubmission;
  - an offline submission posted on reconnect;
  - a one-page online search;
  - a lost connection in mid-search;
  - an empty store.

Inputs the proxy cannot see are parameters of the handlers that ask:

- whether the device is online;
- whether the app is in its server-sync state;
- whether the backup file could be read;
- the session id;
- the server's reply, already decoded.

Emitted events are appended to `log`. An unchecked exception that escapes a
handler is appended as `Crashed` and ends that handler. Three cases do this:

- a `null` reply body;
- a body that is not a question where one is stored;
- taking a result from an empty buffer.

Some behaviour the model makes explicit:

- Search results left over from an earlier search stay in the buffer ahead
  of the new ones.
- An online page with a single question and a further cursor leaves the
  proxy in `Next` with an empty buffer. If the connection drops then, the
  next get fails on the empty buffer (`ProxyScenarios.OfflineAfterSingleQuestionPage`).
- When the backup file cannot be read on reconnect, the in-memory queue is
  kept; it is not reset to empty.
- The in-memory queue starts empty and the backup file is read only on
  reconnect. So a queue write before the first reconnect (an offline post or
  a post connection error) overwrites a backup left by an earlier run, and
  that earlier queue is lost (`ProxyScenarios.OfflinePostAfterStartupDropsOldBackup`).
- The query and the cursor are spliced into the search bodies without
  escaping. A query or cursor holding a double quote gives a body that does
  not carry it back, which is why the round-trip lemmas require none.
- No question is validated before it is stored.
- A failed write of the backup file is only logged.

## Model

| member | source | states |
|---|---|---|
| SQLiteCache.Store.CacheQuestion | SwEng2013QuizApp/src/epfl/sweng/cache/SQLiteCache.java:96-130 | the tables become `Cached(old, q)`: the question row under its id is replaced, tag and answer rows are added by key, and the well-formedness invariant is kept |
| SQLiteCache.Store.constructor | SwEng2013QuizApp/src/epfl/sweng/cache/SQLiteCache.java:66-83 | opening the database gives a store whose tables are exactly the well-formed tables found on disk |
| SQLiteCache.Store.InsertTagRows | SwEng2013QuizApp/src/epfl/sweng/cache/SQLiteCache.java:107-113 | the tag table gains exactly the (tag, id) rows of the question's tags; duplicates collapse into one row by key |
| SQLiteCache.Store.InsertAnswerRows | SwEng2013QuizApp/src/epfl/sweng/cache/SQLiteCache.java:117-126 | the answer table gains the rows (id, 0) .. (id, n-1) holding the answers in list order, replacing rows with those keys |
| SQLiteCache.CachedWellFormed | SwEng2013QuizApp/src/epfl/sweng/cache/SQLiteCache.java:96-130 | a write keeps every tag and answer row attached to a stored question and each question's answer indices dense from 0 |
| SQLiteCache.CachedTags | SwEng2013QuizApp/src/epfl/sweng/cache/SQLiteCache.java:107-113 | after a write the question's tag set is its old tag rows plus its new tags: old tag rows are never removed |
| SQLiteCache.CachedAnswers | SwEng2013QuizApp/src/epfl/sweng/cache/SQLiteCache.java:117-126 | after a write the answer list is as long as the longer of the old and new lists; the first n entries are the new answers and rows beyond them keep the old answers |
| SQLiteCache.CachedAnswerRow | SwEng2013QuizApp/src/epfl/sweng/cache/SQLiteCache.java:117-126 | an answer row for the written id exists after the write exactly when it did before or its index is below the new answer count, and holds the new answer in the latter case |
| SQLiteCache.CacheThenRebuild | SwEng2013QuizApp/src/epfl/sweng/cache/SQLiteCache.java:196-241 | a question written to a store with no rows for its id is rebuilt exactly: same text, owner, solution, answers in order and tag set |
| SQLiteCache.OnlyQuestion | SwEng2013QuizApp/src/epfl/sweng/cache/SQLiteCache.java:96-130 | a question written to empty tables is the only stored id and is read back whole |
| SQLiteCache.CachedKeepsOthers | SwEng2013QuizApp/src/epfl/sweng/cache/SQLiteCache.java:104-126 | a write leaves every other stored question's rebuilt form unchanged |
| SQLiteCache.CachedIdempotent | SwEng2013QuizApp/src/epfl/sweng/cache/SQLiteCache.java:104-126 | writing the same question twice leaves the same tables as writing it once |
| SQLiteCache.AnswersOfExact | SwEng2013QuizApp/src/epfl/sweng/cache/SQLiteCache.java:212-226 | in a well-formed store the answers read back for an id are exactly the answer rows of that id, ordered by index |
| SQLiteCache.AnswerRunShape | SwEng2013QuizApp/src/epfl/sweng/cache/SQLiteCache.java:215-223 | the run of answers read from a starting index is the consecutive rows present from that index, each holding its row's text, and stops at the first missing index |
| SQLiteCache.Store.GetAnswersForQuestion | SwEng2013QuizApp/src/epfl/sweng/cache/SQLiteCache.java:212-226 | the loop returns the rows (id, 0), (id, 1), ... in index order: index j is in the result exactly when row (id, j) exists |
| SQLiteCache.Store.GetTagsForQuestion | SwEng2013QuizApp/src/epfl/sweng/cache/SQLiteCache.java:228-241 | the loop returns exactly the tags that have a row for the id |
| SQLiteCache.Store.ConstructQuestion | SwEng2013QuizApp/src/epfl/sweng/cache/SQLiteCache.java:196-210 | the question rebuilt for a stored id carries that id and the row's text, owner and solution, with the answers and tags read back |
| SQLiteCache.Store.GetRandomQuestion | SwEng2013QuizApp/src/epfl/sweng/cache/SQLiteCache.java:183-194 | nothing exactly when the question table is empty; otherwise some stored question, rebuilt from its rows |
| SQLiteCache.Store.GetQuestionSetByTag | SwEng2013QuizApp/src/epfl/sweng/cache/SQLiteCache.java:157-181 | the loop over joined (tag, id) rows returns the set of rebuilt questions with a row the predicate accepts, each once |
| SQLiteCache.MatchingExact | SwEng2013QuizApp/src/epfl/sweng/cache/SQLiteCache.java:164-177 | a question is in the result exactly when it is the rebuilt form of a stored id having a tag row the predicate accepts |
| SQLiteCache.CacheThenQuery | SwEng2013QuizApp/src/epfl/sweng/cache/SQLiteCache.java:157-181 | a freshly written question is found by any predicate accepting one of its tags |
| SQLiteCache.CachedAllSnoc | SwEng2013QuizApp/src/epfl/sweng/cache/SQLiteCache.java:96-130 | writing a sequence of questions and then one more is the same as writing the extended sequence |
| SQLiteCache.CachedAllWellFormed | SwEng2013QuizApp/src/epfl/sweng/cache/SQLiteCache.java:96-130 | any sequence of writes keeps the tables well formed |
| SQLiteCache.Store.ClearCache | SwEng2013QuizApp/src/epfl/sweng/cache/SQLiteCache.java:146-152 | all three tables are emptied |
| SQLiteCache.Store.Reset | SwEng2013QuizApp/src/epfl/sweng/cache/SQLiteCache.java:243-245 | dropping and recreating the tables leaves all three empty |
| RAMCache.Cache.CacheQuestion | SwEng2013QuizApp/src/epfl/sweng/cache/RAMCache.java:46-54 | the question is always written through to the persistent layer; memory holds only entries of the old map with the question put under its hash code, and holds all of them when they fit the budget |
| RAMCache.Cache.constructor | SwEng2013QuizApp/src/epfl/sweng/cache/RAMCache.java:18-37 | the overlay starts with empty memory and nothing written through, charging each entry `toByteCount()` against the 50 MB budget |
| RAMCache.Cache.TrimToSize | SwEng2013QuizApp/src/epfl/sweng/cache/RAMCache.java:28-34 | eviction only drops entries, ends within the budget with the byte count exact, and drops nothing when already within it |
| RAMCache.TotalSizeRemove | SwEng2013QuizApp/src/epfl/sweng/cache/RAMCache.java:30-33 | the byte count of a map is any entry's size plus the count of the rest |
| RAMCache.TotalSizePut | SwEng2013QuizApp/src/epfl/sweng/cache/RAMCache.java:47-49 | putting an entry changes the byte count by its size minus the size of the entry it replaces |
| RAMCache.Cache.GetQuestionById | SwEng2013QuizApp/src/epfl/sweng/cache/RAMCache.java:61-70 | a memory hit is returned as is; on a miss the persistent answer is returned and memory is not filled |
| RAMCache.Cache.GetQuestionSetByTag | SwEng2013QuizApp/src/epfl/sweng/cache/RAMCache.java:56-59 | tag lookups return the persistent layer's answer |
| RAMCache.Cache.ClearCache | SwEng2013QuizApp/src/epfl/sweng/cache/RAMCache.java:72-74 | memory is emptied; the writes sent to the persistent layer are untouched |
| ProxyProtocol.Classify | SwEng2013QuizApp/src/epfl/sweng/proxy/Proxy.java:234-235 | the three bands: 500 and up, 400 to 499, below 400, each exactly |
| ProxyProtocol.SearchBodyRoundTrip | SwEng2013QuizApp/src/epfl/sweng/proxy/Proxy.java:449-450 | the first search body gives its query back to a reader of the format |
| ProxyProtocol.NextBodyRoundTrip | SwEng2013QuizApp/src/epfl/sweng/proxy/Proxy.java:493-495 | the follow-up body gives its query and cursor back |
| ProxyProtocol.NextBodyIsNotSearchBody | SwEng2013QuizApp/src/epfl/sweng/proxy/Proxy.java:449-450 | a follow-up body is never read as a first search body |
| ProxyProtocol.DrainIsFifo | SwEng2013QuizApp/src/epfl/sweng/proxy/Proxy.java:206-216 | k online drain steps resubmit the first k queued submissions in queue order and leave the rest |
| ProxyProtocol.DrainKeepsSubmissions | SwEng2013QuizApp/src/epfl/sweng/proxy/Proxy.java:206-216 | a drain step loses no submission: online the head leaves and the rest keeps its order, offline the queue holds the same submissions |
| Proxy.RandomReplyOfOnlyQuestion | SwEng2013QuizApp/src/epfl/sweng/proxy/Proxy.java:463-479 | a store holding one question answers a random request with exactly that question |
| Proxy.SyncProxy.GiveQuery | SwEng2013QuizApp/src/epfl/sweng/proxy/Proxy.java:187-190 | the mode becomes `Search` and the query is stored |
| Proxy.SyncProxy.constructor | SwEng2013QuizApp/src/epfl/sweng/proxy/Proxy.java:88-95 | a new proxy is in `Normal` with no query, buffer or cursor, no last submission and nothing emitted; its in-memory queue is empty while the backup file still holds `backup`, unread |
| Proxy.SyncProxy.ResetState | SwEng2013QuizApp/src/epfl/sweng/proxy/Proxy.java:361-370 | the mode becomes `Normal`, the queue is emptied and the empty queue is written to the backup |
| Proxy.SyncProxy.DoHttpGet | SwEng2013QuizApp/src/epfl/sweng/proxy/Proxy.java:110-161 | for each combination of connectivity and mode, the effect of the server path or the store path it dispatches to |
| Proxy.SyncProxy.RetrieveQuestionFromServer | SwEng2013QuizApp/src/epfl/sweng/proxy/Proxy.java:419-426 | a random-question request goes to the server after the add-or-retrieve event |
| Proxy.SyncProxy.SearchOnServer | SwEng2013QuizApp/src/epfl/sweng/proxy/Proxy.java:443-459 | the search request goes to the search URL with the JSON content type appended and the body `{ "query": "<q>" }` |
| Proxy.SyncProxy.GetNextResultFromServer | SwEng2013QuizApp/src/epfl/sweng/proxy/Proxy.java:487-503 | the follow-up request carries the current cursor, written "null" when there is none |
| Proxy.SyncProxy.ContinueSearchingOnServer | SwEng2013QuizApp/src/epfl/sweng/proxy/Proxy.java:428-441 | empty buffer: the next page is requested and the state is unchanged; otherwise the head is handed out and the mode becomes `Normal` only when the cursor is exhausted and the buffer empty |
| Proxy.SyncProxy.ContinueSearchingInCache | SwEng2013QuizApp/src/epfl/sweng/proxy/Proxy.java:378-387 | the head is handed out and the mode is `Next` exactly while results remain; an empty buffer makes the handler fail with nothing changed |
| Proxy.SyncProxy.SearchInCache | SwEng2013QuizApp/src/epfl/sweng/proxy/Proxy.java:389-417 | no match: the mode becomes `Normal` and nothing is emitted; otherwise every match is appended once to the buffer, the first buffered result is handed out and the mode is `Next` exactly while results remain |
| Proxy.SyncProxy.BufferEach | SwEng2013QuizApp/src/epfl/sweng/proxy/Proxy.java:401-407 | every matching question is appended to the buffer exactly once, in some order of the set |
| Proxy.SyncProxy.RetrieveQuestionFromCache | SwEng2013QuizApp/src/epfl/sweng/proxy/Proxy.java:372-376 | a question event carrying the store's random answer is emitted |
| Proxy.SyncProxy.OfflineRandomQuestion | SwEng2013QuizApp/src/epfl/sweng/proxy/Proxy.java:463-479 | status 404 without a body exactly when the store is empty, otherwise status 200 with a stored question read back whole |
| Proxy.SyncProxy.OnGetConnectionError | SwEng2013QuizApp/src/epfl/sweng/proxy/Proxy.java:306-312 | a communication-error event, then the store's random answer as the error-carrying question event |
| Proxy.SyncProxy.OnReceivedQuestion | SwEng2013QuizApp/src/epfl/sweng/proxy/Proxy.java:230-299 | per band, mode and body: 400-499 passes on no body; 500 up takes the offline fallback, then passes the reply on; a page's first question is the answer and the rest is buffered and stored in page order, with the cursor kept and the mode `Normal` exactly when the cursor is exhausted and the buffer empty; an empty page asks for the next page or answers 404; a null or malformed body fails the handler |
| Proxy.SyncProxy.TakePage | SwEng2013QuizApp/src/epfl/sweng/proxy/Proxy.java:251-258 | the loop appends the page's questions after the first to the buffer and stores them, both in page order |
| Proxy.SyncProxy.StoreNext | SwEng2013QuizApp/src/epfl/sweng/proxy/Proxy.java:257 | one iteration of the page loop stores one more question after those already stored |
| Proxy.SyncProxy.DoHttpPost | SwEng2013QuizApp/src/epfl/sweng/proxy/Proxy.java:164-185 | online: the post goes to the server; offline: the submission is appended at the tail, the whole queue is written to the backup, and a local 200 carrying the request body is reported |
| Proxy.SyncProxy.OnOnline | SwEng2013QuizApp/src/epfl/sweng/proxy/Proxy.java:196-224 | the queue is reloaded from the backup when readable; a non-empty queue loses exactly its head, the rest is written back and the head is posted again; an empty one emits only the switch and success events |
| Proxy.SyncProxy.OnPostedQuestion | SwEng2013QuizApp/src/epfl/sweng/proxy/Proxy.java:314-347 | 500 up: the submission returns to the queue head; otherwise a returned question is stored on success, the reply is passed on (without a body for 400-499), and the next submission is drained while syncing |
| Proxy.SyncProxy.StorePosted | SwEng2013QuizApp/src/epfl/sweng/proxy/Proxy.java:319-329 | a post reply below 400 holding a question stores it; any other reply leaves the store unchanged |
| Proxy.SyncProxy.OnPostConnectionError | SwEng2013QuizApp/src/epfl/sweng/proxy/Proxy.java:349-359 | the last submission goes back to index 0 of the queue, the queue is written to the backup, and the error and failure events are emitted |
| ProxyScenarios.BrowseOfflineResults | SwEng2013QuizApp/src/epfl/sweng/proxy/Proxy.java:148-158 | repeated offline gets hand out every buffered result once, in buffer order, and end in `Normal` |
| ProxyScenarios.FailedResubmissionKeepsQueue | SwEng2013QuizApp/src/epfl/sweng/proxy/Proxy.java:206-216 | a resubmission that hits a server error leaves the queue and its backup as they were |
| ProxyScenarios.OfflineSubmissionIsPostedWhenOnline | SwEng2013QuizApp/src/epfl/sweng/proxy/Proxy.java:171-183 | a submission queued offline is the one posted on reconnect, leaving the queue empty |
| ProxyScenarios.OfflinePostAfterStartupDropsOldBackup | SwEng2013QuizApp/src/epfl/sweng/proxy/Proxy.java:164-216 | an offline submission before the first reconnect overwrites the earlier backup: on reconnect only it is posted and no earlier submission remains queued or backed up |
| ProxyScenarios.OnlineSearchOfOnePage | SwEng2013QuizApp/src/epfl/sweng/proxy/Proxy.java:244-272 | a one-page search of two questions shows both in page order with one request, stores both and ends in `Normal` |
| ProxyScenarios.StartOnlineSearch | SwEng2013QuizApp/src/epfl/sweng/proxy/Proxy.java:443-459 | giving a query and asking for a question online sends exactly the search request |
| ProxyScenarios.ReceiveTwoQuestionPage | SwEng2013QuizApp/src/epfl/sweng/proxy/Proxy.java:244-272 | a two-question exhausted page shows the first, buffers the second and stores both |
| ProxyScenarios.HandOutLastResult | SwEng2013QuizApp/src/epfl/sweng/proxy/Proxy.java:148-158 | the last buffered result of an exhausted search is handed out without a request and the mode returns to `Normal` |
| ProxyScenarios.OfflineAfterSingleQuestionPage | SwEng2013QuizApp/src/epfl/sweng/proxy/Proxy.java:378-380 | a one-question page with a further cursor, then an offline get, fails on the empty buffer |
| ProxyScenarios.OfflineEmptyStore | SwEng2013QuizApp/src/epfl/sweng/proxy/Proxy.java:463-467 | offline with an empty store the answer is 404 without a body |

## Left out

- JSON decoding and encoding (the `QuizQuestion` constructors, `toJSON`, `org.json`): replies are already-decoded `Entity` values. A page always carries its cursor, so a page whose "next" key is missing (which would reset the cursor to "" after the questions were buffered) is not modelled. A `toJSON` failure, which would leave a result out of the offline buffer or make the random answer `null`, is not modelled.
- Proxy.SyncProxy.OnPostedQuestion: what a successful post reply with a `null` body does depends on the `QuizQuestion` constructor, which is not part of this model; such a reply stores nothing here.
- Proxy.SyncProxy.DoHttpPost: the request body is a string, so a request without a body is not modelled. Online, such a request fails before it is handed to the server. Offline, it fails after the submission was already queued and written to the backup file: the queue keeps the extra submission and no posted-question event is emitted.
- Proxy.SyncProxy.OnPostConnectionError: requires a last submission. The model assumes that a post connection error arrives only for a submission sent by `doHttpPost`, which always sets the last submission. Search requests are posted too, and they do not set it. Which error event the transport raises when a search post fails is not modelled. The source would put `null` at the head of the queue if a post error arrived before any submission.
- Proxy.SyncProxy.OnPostedQuestion: its requirement of a last submission for a 500-and-up reply rests on the same assumption: such a reply answers a submission sent by `doHttpPost`.
- Writing and reading the backup file (`ObjectOutputStream`): writes are `persisted := pending` and always succeed; a failed read is the `readOk` parameter, and then the in-memory queue is kept.
- The HTTP client, its threading and the event bus: requests handed to the server are `SentGet`/`SentPost` entries of the log, replies arrive as handler parameters, and emitted events are log entries.
- Connectivity, the app's connection state and the session id (`AppContext`): parameters.
- `SQLQueryCompiler.toSQL`: a search query's tag predicate is an abstract function over joined (id, tag) rows.
- `ORDER BY RANDOM()` and the iteration order of hash sets: nondeterministic choice, constrained only by what the source guarantees.
- SQLiteCache.AnswersOf: reads answers from index 0 up to the first missing index, which equals the source's ordered select on every store the writes can produce (indices of each question dense from 0); a store with gaps is not modelled.
- Android `LruCache`: the least-recently-used order is not modelled; eviction may drop any entry until the budget is met. RAM keys are hash codes given as a function, and sizes are `toByteCount()` given as a function.
- `QuestionCache`, the persistent layer behind the RAM cache, is not part of this model: its writes are recorded in order and its answers are parameters.
- The SQLite size settings and the database helper's open/close calls: no effect on contents.
- The activities, the UI and authentication: outside the offline question layer.
