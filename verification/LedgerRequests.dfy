/**
 Requests and their answers over whole runs. Between the two anything may happen:
 other answers and failures, late ones among them, timers, edits of the selection.
 An answer is taken for what was asked, and shown as that.
 */
module LedgerRequests {
  import opened Options
  import opened Json
  import opened LedgerModel
  import opened LedgerSession
  import opened LedgerBoard
  import opened LedgerViewer
  import opened LedgerJobs
  import opened LedgerSubmission
  import opened LedgerPage
  import opened LedgerSafety
  import opened LedgerTheorems
  import opened LedgerRevalidation
  import opened LedgerEffects

  /** A call still in flight is the one that was, and numbers are never used again. */
  ghost predicate Keeps<C(!new)>(next: Id, calls: map<Id, Request<C>>, later: Id, left: map<Id, Request<C>>) {
    next <= later && forall i | i in left && i < next :: i in calls && left[i] == calls[i]
  }

  /** Every call in flight was in flight before, or is new. */
  ghost predicate AllKept(p: Page, q: Page) {
    && Keeps(p.board.next, p.board.calls, q.board.next, q.board.calls)
    && Keeps(p.viewer.next, p.viewer.calls, q.viewer.next, q.viewer.calls)
    && Keeps(p.downloads.next, p.downloads.calls, q.downloads.next, q.downloads.calls)
    && Keeps(p.submission.next, p.submission.calls, q.submission.next, q.submission.calls)
    && Keeps(p.jobs.next, p.jobs.polls, q.jobs.next, q.jobs.polls)
    && Keeps(p.jobs.next, p.jobs.links, q.jobs.next, q.jobs.links)
  }

  /** The same calls are in flight. */
  predicate SameCalls(p: Page, q: Page) {
    && q.board.calls == p.board.calls && q.board.next == p.board.next
    && q.viewer.calls == p.viewer.calls && q.viewer.next == p.viewer.next
    && q.downloads.calls == p.downloads.calls && q.downloads.next == p.downloads.next
    && q.submission.calls == p.submission.calls && q.submission.next == p.submission.next
    && q.jobs.polls == p.jobs.polls && q.jobs.links == p.jobs.links && q.jobs.next >= p.jobs.next
  }

  lemma {:induction false} QueuedKeep(j: Jobs, ids: seq<Id>)
    ensures var k := QueuePolls(j, ids); j.next <= k.next && k.polls == j.polls && k.links == j.links
    decreases |ids|
  {
    if ids != [] {
      QueuedKeep(if ids[0] in j.tasks && Pending(j.tasks[ids[0]]) then QueuePoll(true, j, ids[0]) else j, ids[1..]);
    }
  }

  /** A new epoch, a change of employee and the end of a check leave the calls in flight. */
  lemma SessionsKeep()
    ensures forall p :: SameCalls(p, Expire(p))
    ensures forall p :: SameCalls(p, Begin(p))
    ensures forall p :: SameCalls(p, Forget(p))
    ensures forall p, results :: SameCalls(p, Finish(p, results))
  {
    forall p, results
      ensures SameCalls(p, Finish(p, results))
    {
      QueuedKeep(p.jobs, p.jobs.order);
    }
  }

  lemma ContextSame(limits: Limits, p: Page, id: Id, context: Context)
    requires id in p.session.calls
    ensures SameCalls(p, ContextArrives(limits, p, id, context))
  {
    SessionsKeep();
    hide Begin, Forget, Finish, Reconcile, Listing, ChunkEnd;
  }

  lemma CheckSame(limits: Limits, p: Page, id: Id, items: seq<Item>, cursor: Option<Cursor>)
    requires id in p.session.calls && p.session.calls[id].call.Check?
    requires p.session.calls[id].call.end <= |p.session.calls[id].call.all|
    ensures SameCalls(p, CheckArrives(limits, p, id, items, cursor))
  {
    SessionsKeep();
    hide Finish, ChunkEnd;
  }

  lemma ResumeSame(p: Page, passive: bool)
    ensures SameCalls(p, Resume(p, passive))
  {
    SessionsKeep();
    hide Begin;
  }

  lemma RecoveryFailsSame(p: Page, id: Id, code: Code)
    requires id in p.session.calls
    ensures SameCalls(p, RecoveryFails(p, id, code))
  {
    hide Expire, SameCalls;
    var q := p.(session := TakeRecovery(p.session, id));
    SessionsKeep();
    assert SameCalls(q, Expire(q));
    SameThroughout(p, q, Expire(q), RecoveryFails(p, id, code));
  }

  /** A page that differs from one of two in its session alone has the calls of both. */
  lemma SameThroughout(p: Page, q: Page, expired: Page, r: Page)
    requires q == p.(session := q.session) && SameCalls(q, expired)
    requires r == q.(session := r.session) || r == expired.(session := r.session)
    ensures SameCalls(p, r)
  {
  }

  lemma SessionStep(limits: Limits, p: Page, e: Event)
    requires PageOk(p) && Enabled(p, e) && (OfSession(e) || e.OnExpire?)
    ensures SameCalls(p, Step(limits, p, e))
  {
    hide PageOk, Expire, Resume, ContextArrives, CheckArrives, RecoveryFails;
    match e
    case GotContext(id, context) => ContextSame(limits, p, id, context);
    case GotCheck(id, answers, cursor) => CheckSame(limits, p, id, answers, cursor);
    case OnResume(passive) => ResumeSame(p, passive);
    case RecoveryFailure(id, code) => RecoveryFailsSame(p, id, code);
    case _ => SessionsKeep();
  }

  /** No call is in flight that was not, and no number is given back. */
  ghost predicate Fewer(p: Page, q: Page) {
    && q.board.next == p.board.next && q.viewer.next == p.viewer.next && q.downloads.next == p.downloads.next
    && q.submission.next == p.submission.next && q.jobs.next == p.jobs.next
    && (forall i | i in q.board.calls :: i in p.board.calls && q.board.calls[i] == p.board.calls[i])
    && (forall i | i in q.viewer.calls :: i in p.viewer.calls && q.viewer.calls[i] == p.viewer.calls[i])
    && (forall i | i in q.downloads.calls :: i in p.downloads.calls && q.downloads.calls[i] == p.downloads.calls[i])
    && (forall i | i in q.submission.calls ::
          i in p.submission.calls && q.submission.calls[i] == p.submission.calls[i])
    && (forall i | i in q.jobs.polls :: i in p.jobs.polls && q.jobs.polls[i] == p.jobs.polls[i])
    && (forall i | i in q.jobs.links :: i in p.jobs.links && q.jobs.links[i] == p.jobs.links[i])
  }

  lemma FewerKept(p: Page, done: Page, q: Page)
    requires Fewer(p, done) && SameCalls(done, q)
    ensures AllKept(p, q)
  {
  }

  lemma ExpiredSame(p: Page, q: Page)
    requires Expired(p, q)
    ensures SameCalls(p, q)
  {
  }

  lemma QueryFailureKeeps(limits: Limits, p: Page, id: Id, code: Code)
    requires PageOk(p) && id in p.board.calls
    ensures AllKept(p, Step(limits, p, QueryFailure(id, code)))
  {
    var done := p.(board := p.board.(calls := p.board.calls - {id}));
    var q := Step(limits, p, QueryFailure(id, code));
    assert Fewer(p, done);
    QueryFailureMeans(limits, p, id, code);
    hide PageOk, Step, Expired, AllKept, Fewer;
    if Expired(done, q) {
      ExpiredSame(done, q);
    }
    FewerKept(p, done, q);
  }

  lemma PreviewFailureKeeps(limits: Limits, p: Page, id: Id, code: Code)
    requires PageOk(p) && id in p.viewer.calls
    ensures AllKept(p, Step(limits, p, PreviewFailure(id, code)))
  {
    var done := p.(viewer := p.viewer.(calls := p.viewer.calls - {id}));
    var q := Step(limits, p, PreviewFailure(id, code));
    assert Fewer(p, done);
    PreviewFailureMeans(limits, p, id, code);
    hide PageOk, Step, Expired, AllKept, Fewer;
    if Expired(done, q) {
      ExpiredSame(done, q);
    }
    FewerKept(p, done, q);
  }

  lemma DownloadFailureKeeps(limits: Limits, p: Page, id: Id, code: Code)
    requires PageOk(p) && id in p.downloads.calls
    ensures AllKept(p, Step(limits, p, DownloadFailure(id, code)))
  {
    var done := p.(downloads := p.downloads.(calls := p.downloads.calls - {id}));
    var q := Step(limits, p, DownloadFailure(id, code));
    assert Fewer(p, done);
    DownloadFailureMeans(limits, p, id, code);
    hide PageOk, Step, Expired, AllKept, Fewer;
    if Expired(done, q) {
      ExpiredSame(done, q);
    }
    FewerKept(p, done, q);
  }

  lemma StatusFailureKeeps(limits: Limits, p: Page, id: Id, code: Code)
    requires PageOk(p) && id in p.jobs.polls
    ensures AllKept(p, Step(limits, p, StatusFailure(id, code)))
  {
    var done := p.(jobs := p.jobs.(polls := p.jobs.polls - {id}));
    var q := Step(limits, p, StatusFailure(id, code));
    assert Fewer(p, done);
    StatusFailureMeans(limits, p, id, code);
    hide PageOk, Step, Expired, AllKept, Fewer;
    if Expired(done, q) {
      ExpiredSame(done, q);
    }
    FewerKept(p, done, q);
  }

  lemma LinkFailureKeeps(limits: Limits, p: Page, id: Id, code: Code)
    requires PageOk(p) && id in p.jobs.links
    ensures AllKept(p, Step(limits, p, LinkFailure(id, code)))
  {
    var done := p.(jobs := p.jobs.(links := p.jobs.links - {id}));
    var q := Step(limits, p, LinkFailure(id, code));
    assert Fewer(p, done);
    LinkFailureMeans(limits, p, id, code);
    hide PageOk, Step, Expired, AllKept, Fewer;
    if Expired(done, q) {
      ExpiredSame(done, q);
    }
    FewerKept(p, done, q);
  }

  lemma SubmitFailureKeeps(limits: Limits, p: Page, id: Id, code: Code)
    requires PageOk(p) && id in p.submission.calls
    ensures AllKept(p, Step(limits, p, SubmitFailure(id, code)))
  {
    var done := p.(submission := p.submission.(calls := p.submission.calls - {id}));
    var q := Step(limits, p, SubmitFailure(id, code));
    assert Fewer(p, done);
    SubmitFailureMeans(limits, p, id, code);
    hide PageOk, Step, Expired, AllKept, Fewer;
    if Expired(done, q) {
      ExpiredSame(done, q);
    }
    FewerKept(p, done, q);
  }

  lemma FailureStep(limits: Limits, p: Page, e: Event)
    requires PageOk(p) && Enabled(p, e) && !OfSession(e)
    requires e.QueryFailure? || e.PreviewFailure? || e.DownloadFailure? || e.StatusFailure? || e.LinkFailure?
      || e.SubmitFailure?
    ensures AllKept(p, Step(limits, p, e))
  {
    hide PageOk, Step, AllKept;
    match e
    case QueryFailure(id, code) => QueryFailureKeeps(limits, p, id, code);
    case PreviewFailure(id, code) => PreviewFailureKeeps(limits, p, id, code);
    case DownloadFailure(id, code) => DownloadFailureKeeps(limits, p, id, code);
    case StatusFailure(id, code) => StatusFailureKeeps(limits, p, id, code);
    case LinkFailure(id, code) => LinkFailureKeeps(limits, p, id, code);
    case SubmitFailure(id, code) => SubmitFailureKeeps(limits, p, id, code);
  }

  predicate OfTable(e: Event) {
    e.OnQuery? || e.GotRows? || e.OnPreview? || e.OnClosePreview? || e.GotPreview? || e.OnDownload? || e.GotDownload?
  }

  predicate OfPolls(e: Event) { e.OnPoll? || e.OnTimer? || e.GotStatus? }

  predicate OfLinks(e: Event) { e.OnLink? || e.GotLink? }

  predicate OfSelection(e: Event) {
    e.OnSubmit? || e.GotTask? || e.OnSelect? || e.OnSelectBatch? || e.OnClearSelection?
  }

  lemma TableStep(limits: Limits, p: Page, e: Event)
    requires PageOk(p) && Enabled(p, e) && OfTable(e)
    ensures AllKept(p, Step(limits, p, e))
  {
    hide PageOk, Refresh, PreviewUrls, DownloadUrls, Release, Held;
  }

  lemma PollsStep(limits: Limits, p: Page, e: Event)
    requires PageOk(p) && Enabled(p, e) && OfPolls(e)
    ensures AllKept(p, Step(limits, p, e))
  {
    hide PageOk;
  }

  lemma LinksStep(limits: Limits, p: Page, e: Event)
    requires PageOk(p) && Enabled(p, e) && OfLinks(e)
    ensures AllKept(p, Step(limits, p, e))
  {
    hide PageOk, Bring, Save;
  }

  lemma ChoiceStep(limits: Limits, p: Page, e: Event)
    requires PageOk(p) && Enabled(p, e)
    requires OfSelection(e)
    ensures AllKept(p, Step(limits, p, e))
  {
    hide PageOk, Choose, ChooseAll, Summarise, Listing, Fingerprint;
  }

  /** No step confuses one call with another. */
  lemma StepKeepsCalls(limits: Limits, p: Page, e: Event)
    requires PageOk(p) && Enabled(p, e)
    ensures AllKept(p, Step(limits, p, e))
  {
    hide PageOk, Step;
    if OfSession(e) || e.OnExpire? {
      SessionStep(limits, p, e);
    } else if OfTable(e) {
      TableStep(limits, p, e);
    } else if OfPolls(e) {
      PollsStep(limits, p, e);
    } else if OfLinks(e) {
      LinksStep(limits, p, e);
    } else if OfSelection(e) {
      ChoiceStep(limits, p, e);
    } else {
      FailureStep(limits, p, e);
    }
  }

  lemma {:induction false} RunKeepsCalls(limits: Limits, p: Page, events: seq<Event>)
    requires PageOk(p) && IsRun(limits, p, events)
    ensures AllKept(p, After(limits, p, events))
    decreases |events|
  {
    hide PageOk, Step, IsRun, After;
    if events == [] {
      NoRun(limits, p);
    } else {
      var next := RunSplits(limits, p, events);
      StepKeepsCalls(limits, p, events[0]);
      RunKeepsCalls(limits, next, events[1..]);
      KeptOn(p, next, After(limits, p, events));
    }
  }

  lemma KeptOn(p: Page, q: Page, r: Page)
    requires AllKept(p, q) && AllKept(q, r)
    ensures AllKept(p, r)
  {
  }

  // ---------------------------------------------------------------- what a step leaves of the table and the preview

  /** A new epoch, or the newest query and the open preview are what they were. */
  ghost predicate Untouched(p: Page, q: Page) {
    || q.session.epoch > p.session.epoch
    || (q.session.epoch == p.session.epoch && q.board.version == p.board.version
        && q.board.queryError == p.board.queryError && q.viewer == p.viewer)
  }

  lemma SessionsUntouched()
    ensures forall p :: Expire(p).session.epoch > p.session.epoch
    ensures forall p :: Begin(p).session.epoch > p.session.epoch
    ensures forall p :: Untouched(p, Forget(p)) && Forget(p).session == p.session
    ensures forall p, results :: Untouched(p, Finish(p, results)) && Finish(p, results).session.epoch == p.session.epoch
  {
  }

  lemma ContextUntouched(limits: Limits, p: Page, id: Id, context: Context)
    requires id in p.session.calls
    ensures Untouched(p, ContextArrives(limits, p, id, context))
  {
    SessionsUntouched();
    hide Begin, Forget, Finish, Reconcile, Listing, ChunkEnd;
  }

  lemma SessionUntouched(limits: Limits, p: Page, e: Event)
    requires PageOk(p) && Enabled(p, e) && (OfSession(e) || e.OnExpire?)
    ensures Untouched(p, Step(limits, p, e))
  {
    SessionsUntouched();
    hide PageOk, Expire, Begin, Finish, ContextArrives, Reconcile, Listing, ChunkEnd;
    if e.GotContext? {
      ContextUntouched(limits, p, e.id, e.context);
    }
  }

  predicate OfFailure(e: Event) {
    e.QueryFailure? || e.PreviewFailure? || e.DownloadFailure? || e.StatusFailure? || e.LinkFailure? || e.SubmitFailure?
  }

  /** A failure that does not end the session changes only the part it belongs to. */
  lemma FailureElsewhere(limits: Limits, p: Page, e: Event)
    requires PageOk(p) && Enabled(p, e) && OfFailure(e)
    ensures var q := Step(limits, p, e);
      || q.session.epoch > p.session.epoch
      || (q.session == p.session && (!e.QueryFailure? ==> q.board == p.board)
          && (!e.PreviewFailure? ==> q.viewer == p.viewer))
  {
    hide PageOk, QueryFails, PreviewFails, EndDownload, PollFails, LinkFails, SubmitFails, OutdateBoard, ClosePreview,
      Release, Held, StopTimers, StopSubmit, StopDownloads;
  }

  /** So does any action or ordinary answer. */
  lemma ActionElsewhere(limits: Limits, p: Page, e: Event)
    requires PageOk(p) && Enabled(p, e) && !OfSession(e) && !e.OnExpire? && !OfFailure(e)
    ensures var q := Step(limits, p, e);
      && q.session == p.session && (!e.OnQuery? && !e.GotRows? ==> q.board == p.board)
      && (!e.OnPreview? && !e.OnClosePreview? && !e.GotPreview? ==> q.viewer == p.viewer)
  {
    hide PageOk, Choose, ChooseAll, Refresh, Summarise, Listing, PreviewUrls, DownloadUrls, StartPreview, StartDownload,
      StartPoll, StartLink, FireTimer, PollArrives, AddTask, LinkArrives, StartSubmit, SubmitArrives, StartQuery,
      QueryArrives, PreviewArrives, EndDownload, ClosePreview, Release, Held, Bring, Save;
  }

  // ---------------------------------------------------------------- a query and its answer

  /** The newest query of the epoch is in flight under this number, and no error is shown. */
  ghost predicate Querying(p: Page, id: Id, c: QueryCall, epoch: nat) {
    && p.session.epoch == epoch && c.version == p.board.version && p.board.queryError.None?
    && (id in p.board.calls ==> p.board.calls[id].call == c && p.board.calls[id].epoch == epoch)
    && id < p.board.next
  }

  lemma PartsInOrder(p: Page)
    requires PageOk(p)
    ensures BoardOk(p.session, p.board) && ViewerOk(p.session, p.viewer)
  {
  }

  /** The answer or failure of another query changes neither which is the newest nor the error shown. */
  lemma NewestStays(limits: Limits, p: Page, e: Event, id: Id)
    requires PageOk(p) && Enabled(p, e) && (e.QueryFailure? || e.GotRows?)
    requires id in p.board.calls && p.board.calls[id].call.version == p.board.version
    ensures var q := Step(limits, p, e);
      q.session.epoch == p.session.epoch && id in q.board.calls ==>
        q.board.version == p.board.version && q.board.queryError == p.board.queryError
  {
    hide PageOk, Step, Interrupted;
    PartsInOrder(p);
    if e.QueryFailure? {
      QueryFailureMeans(limits, p, e.id, e.code);
    } else if p.board.calls[e.id].epoch == p.session.epoch && p.board.calls[e.id].call.version == p.board.version {
      RowsAreShown(limits, p, e.id, e.rows, e.nextCursor);
    } else {
      OldQueryEnds(limits, p, e.id, e.rows, e.nextCursor);
    }
  }

  lemma QueryingStays(limits: Limits, p: Page, e: Event, id: Id, c: QueryCall, epoch: nat)
    requires PageOk(p) && Enabled(p, e) && Querying(p, id, c, epoch) && !e.OnQuery?
    requires Step(limits, p, e).session.epoch == epoch && id in Step(limits, p, e).board.calls
    ensures Querying(Step(limits, p, e), id, c, epoch)
  {
    hide PageOk, Step;
    StepKeepsCalls(limits, p, e);
    if OfSession(e) || e.OnExpire? {
      SessionUntouched(limits, p, e);
    } else if e.QueryFailure? || e.GotRows? {
      NewestStays(limits, p, e, id);
    } else if OfFailure(e) {
      FailureElsewhere(limits, p, e);
    } else {
      ActionElsewhere(limits, p, e);
    }
  }

  lemma {:induction false} QueryingLasts(
    limits: Limits, p: Page, events: seq<Event>, id: Id, c: QueryCall, epoch: nat)
    requires PageOk(p) && IsRun(limits, p, events) && Querying(p, id, c, epoch)
    requires forall i | 0 <= i < |events| :: !events[i].OnQuery?
    requires After(limits, p, events).session.epoch == epoch && id in After(limits, p, events).board.calls
    ensures Querying(After(limits, p, events), id, c, epoch)
    decreases |events|
  {
    hide PageOk, Step, IsRun, After, Querying;
    if events == [] {
      NoRun(limits, p);
    } else {
      var next := RunSplits(limits, p, events);
      InEpoch(limits, p, events, next);
      EpochOf(p, id, c, epoch);
      RunKeepsCalls(limits, next, events[1..]);
      StepKeepsCalls(limits, p, events[0]);
      QueryingStays(limits, p, events[0], id, c, epoch);
      QueryingLasts(limits, next, events[1..], id, c, epoch);
    }
  }

  lemma EpochOf(p: Page, id: Id, c: QueryCall, epoch: nat)
    requires Querying(p, id, c, epoch)
    ensures p.session.epoch == epoch && id < p.board.next
  {
  }

  /** A run that ends in the epoch it began in never left it. */
  lemma InEpoch(limits: Limits, p: Page, events: seq<Event>, next: Page)
    requires PageOk(p) && IsRun(limits, p, events) && events != []
    requires Enabled(p, events[0]) && next == Step(limits, p, events[0])
    requires PageOk(next) && IsRun(limits, next, events[1..])
    requires After(limits, p, events) == After(limits, next, events[1..])
    ensures p.session.epoch <= next.session.epoch <= After(limits, p, events).session.epoch
  {
    hide PageOk, Step, IsRun, After;
    EpochGrows(limits, p, events[0]);
    RunEpochGrows(limits, next, events[1..]);
  }

  /** An event takes a page to another. */
  ghost predicate Goes(limits: Limits, p: Page, e: Event, q: Page) {
    PageOk(p) && Enabled(p, e) && q == Step(limits, p, e) && PageOk(q)
  }

  /** A run takes a page to another. */
  ghost predicate Runs(limits: Limits, p: Page, events: seq<Event>, q: Page) {
    PageOk(p) && IsRun(limits, p, events) && q == After(limits, p, events) && PageOk(q)
  }

  lemma QueryAsked(limits: Limits, p: Page, scope: Option<Text>, batch: nat, asked: Page)
    requires SignedIn(p.session) && Goes(limits, p, OnQuery(scope, batch), asked)
    ensures p.board.next in asked.board.calls
    ensures var c := asked.board.calls[p.board.next].call;
      c.scope == scope && c.batch == batch && Querying(asked, p.board.next, c, p.session.epoch)
  {
    QueryAsks(limits, p, scope, batch);
    hide PageOk, Step;
  }

  lemma RowsShown(limits: Limits, m: Page, id: Id, c: QueryCall, rows: seq<Item>, cursor: Option<Cursor>, q: Page)
    requires Goes(limits, m, GotRows(id, rows, cursor), q) && Querying(m, id, c, m.session.epoch)
    ensures var b := q.board;
      && b.rows == rows && b.scope == c.scope && b.batch == c.batch && b.nextCursor == cursor
      && c.batch + 1 in b.cursors && b.cursors[c.batch + 1] == cursor && !b.querying && b.queryError.None?
  {
    hide PageOk, Step;
    RowsAreShown(limits, m, id, rows, cursor);
  }

  /** A query asked while signed in, then any run without another query that stays in the epoch, then
      the answer: the table shows the rows that came, for the scope and the page asked for, and the
      cursor that came is where the next page begins. It shows no error and is not querying. */
  lemma QueryIsAnswered(
    limits: Limits, p: Page, scope: Option<Text>, batch: nat, asked: Page, events: seq<Event>, m: Page,
    rows: seq<Item>, cursor: Option<Cursor>, q: Page)
    requires SignedIn(p.session) && Goes(limits, p, OnQuery(scope, batch), asked)
    requires Runs(limits, asked, events, m) && forall i | 0 <= i < |events| :: !events[i].OnQuery?
    requires Goes(limits, m, GotRows(p.board.next, rows, cursor), q) && m.session.epoch == p.session.epoch
    ensures var b := q.board;
      && b.rows == rows && b.scope == scope && b.batch == batch && b.nextCursor == cursor
      && batch + 1 in b.cursors && b.cursors[batch + 1] == cursor && !b.querying && b.queryError.None?
  {
    hide PageOk, Step, IsRun, After, Querying;
    QueryAsked(limits, p, scope, batch, asked);
    var id := p.board.next;
    QueryingLasts(limits, asked, events, id, asked.board.calls[id].call, p.session.epoch);
    RowsShown(limits, m, id, asked.board.calls[id].call, rows, cursor, q);
  }

  // ---------------------------------------------------------------- a preview and its URL

  /** The preview of the file is open and waits, and its call is in flight under this number. */
  ghost predicate Previewing(p: Page, id: Id, c: PreviewCall, item: Item, epoch: nat) {
    && p.session.epoch == epoch && c.version == p.viewer.version && id < p.viewer.next
    && p.viewer.preview == Some(Preview(item, true, None, None))
    && (id in p.viewer.calls ==> p.viewer.calls[id].call == c && p.viewer.calls[id].epoch == epoch)
  }

  /** The URL or failure of another preview does not change the open one. */
  lemma OpenStays(limits: Limits, p: Page, e: Event, id: Id)
    requires PageOk(p) && Enabled(p, e) && (e.PreviewFailure? || e.GotPreview?)
    requires id in p.viewer.calls && p.viewer.calls[id].call.version == p.viewer.version
    ensures var q := Step(limits, p, e);
      q.session.epoch == p.session.epoch && id in q.viewer.calls ==>
        q.viewer.version == p.viewer.version && q.viewer.preview == p.viewer.preview
  {
    hide PageOk, Step, Interrupted;
    PartsInOrder(p);
    if e.PreviewFailure? {
      PreviewFailureMeans(limits, p, e.id, e.code);
    } else {
      PreviewShows(limits, p, e.id, e.url);
    }
  }

  lemma PreviewingStays(limits: Limits, p: Page, e: Event, id: Id, c: PreviewCall, item: Item, epoch: nat)
    requires PageOk(p) && Enabled(p, e) && Previewing(p, id, c, item, epoch) && !e.OnPreview? && !e.OnClosePreview?
    requires Step(limits, p, e).session.epoch == epoch && id in Step(limits, p, e).viewer.calls
    ensures Previewing(Step(limits, p, e), id, c, item, epoch)
  {
    hide PageOk, Step;
    StepKeepsCalls(limits, p, e);
    if OfSession(e) || e.OnExpire? {
      SessionUntouched(limits, p, e);
    } else if e.PreviewFailure? || e.GotPreview? {
      OpenStays(limits, p, e, id);
    } else if OfFailure(e) {
      FailureElsewhere(limits, p, e);
    } else {
      ActionElsewhere(limits, p, e);
    }
  }

  lemma {:induction false} PreviewingLasts(
    limits: Limits, p: Page, events: seq<Event>, id: Id, c: PreviewCall, item: Item, epoch: nat)
    requires PageOk(p) && IsRun(limits, p, events) && Previewing(p, id, c, item, epoch)
    requires forall i | 0 <= i < |events| :: !events[i].OnPreview? && !events[i].OnClosePreview?
    requires After(limits, p, events).session.epoch == epoch && id in After(limits, p, events).viewer.calls
    ensures Previewing(After(limits, p, events), id, c, item, epoch)
    decreases |events|
  {
    hide PageOk, Step, IsRun, After;
    if events == [] {
      NoRun(limits, p);
    } else {
      var next := RunSplits(limits, p, events);
      InEpoch(limits, p, events, next);
      RunKeepsCalls(limits, next, events[1..]);
      StepKeepsCalls(limits, p, events[0]);
      PreviewingStays(limits, p, events[0], id, c, item, epoch);
      PreviewingLasts(limits, next, events[1..], id, c, item, epoch);
    }
  }

  lemma PreviewAsked(limits: Limits, p: Page, item: Item, asked: Page)
    requires SignedIn(p.session) && Goes(limits, p, OnPreview(item), asked)
    ensures p.viewer.next in asked.viewer.calls
    ensures Previewing(asked, p.viewer.next, asked.viewer.calls[p.viewer.next].call, item, p.session.epoch)
  {
    hide PageOk, Step;
    PreviewOpens(limits, p, item);
  }

  /** A preview opened while signed in, then any run in the epoch that neither opens another nor closes
      it, then its URL: the pane shows that file with that URL, without error, and waits no longer. */
  lemma PreviewIsAnswered(
    limits: Limits, p: Page, item: Item, asked: Page, events: seq<Event>, m: Page, url: Url, q: Page)
    requires SignedIn(p.session) && Goes(limits, p, OnPreview(item), asked)
    requires Runs(limits, asked, events, m) && m.session.epoch == p.session.epoch
    requires forall i | 0 <= i < |events| :: !events[i].OnPreview? && !events[i].OnClosePreview?
    requires Goes(limits, m, GotPreview(p.viewer.next, url), q)
    ensures q.viewer.preview == Some(Preview(item, false, Some(url), None)) && q.urls.released == m.urls.released
  {
    hide PageOk, Step, IsRun, After;
    PreviewAsked(limits, p, item, asked);
    var id := p.viewer.next;
    PreviewingLasts(limits, asked, events, id, asked.viewer.calls[id].call, item, p.session.epoch);
    PreviewShows(limits, m, id, url);
  }

  // ---------------------------------------------------------------- other calls

  /** A download asked for, then any run in the epoch, then its URL: that URL is handed to the browser,
      and the file asked for has the notice and may be asked for again. */
  lemma DownloadIsAnswered(
    limits: Limits, p: Page, item: Item, asked: Page, events: seq<Event>, m: Page, url: Url, q: Page)
    requires SignedIn(p.session) && item.key !in p.downloads.busy && Goes(limits, p, OnDownload(item), asked)
    requires Runs(limits, asked, events, m) && m.session.epoch == p.session.epoch
    requires Goes(limits, m, GotDownload(p.downloads.next, url), q)
    ensures q.urls.saved == m.urls.saved + multiset{url} && item.key !in q.downloads.busy
    ensures item.key in q.downloads.notices && q.downloads.notices[item.key] == DownloadStarted
  {
    hide PageOk, Step, IsRun, After;
    DownloadAsks(limits, p, item);
    RunKeepsCalls(limits, asked, events);
    DownloadSaves(limits, m, p.downloads.next, url);
  }

  /** A task polled, then any run in the epoch, then the status: that task has it, and waits no longer. */
  lemma PollIsAnswered(
    limits: Limits, p: Page, t: Id, asked: Page, events: seq<Event>, m: Page, status: TaskStatus,
    errorCode: Option<Code>, q: Page)
    requires t in p.jobs.tasks && SignedIn(p.session) && !p.jobs.tasks[t].waiting && Unfinished(p.jobs.tasks[t])
    requires Goes(limits, p, OnPoll(t), asked) && Runs(limits, asked, events, m) && m.session.epoch == p.session.epoch
    requires Goes(limits, m, GotStatus(p.jobs.next, status, errorCode), q)
    ensures t in q.jobs.tasks && q.jobs.tasks[t].status == status && q.jobs.tasks[t].error == errorCode
    ensures !q.jobs.tasks[t].waiting
    ensures (status == Queued || status == Running) <==> t in q.jobs.timers
  {
    hide PageOk, Step, IsRun, After;
    PollAsks(limits, p, t);
    RunKeepsCalls(limits, asked, events);
    LivePoll(m, p.jobs.next);
    StatusIsShown(limits, m, p.jobs.next, status, errorCode);
  }

  /** A link asked for, then any run in the epoch, then the link: it is handed to the browser, and the
      task asked for shows that and until when it is good. */
  lemma LinkIsAnswered(
    limits: Limits, p: Page, t: Id, asked: Page, events: seq<Event>, m: Page, url: Url, expiresAt: Option<Text>,
    q: Page)
    requires t in p.jobs.tasks && SignedIn(p.session) && !p.jobs.tasks[t].linking && p.jobs.tasks[t].status == Succeeded
    requires Goes(limits, p, OnLink(t), asked) && Runs(limits, asked, events, m) && m.session.epoch == p.session.epoch
    requires Goes(limits, m, GotLink(p.jobs.next, url, expiresAt), q)
    ensures q.urls.saved == m.urls.saved + multiset{url}
    ensures t in q.jobs.tasks && q.jobs.tasks[t].started && q.jobs.tasks[t].expiresAt == expiresAt
    ensures !q.jobs.tasks[t].linking
  {
    hide PageOk, Step, IsRun, After;
    LinkAsks(limits, p, t);
    RunKeepsCalls(limits, asked, events);
    LinkIsSaved(limits, m, p.jobs.next, url, expiresAt);
  }

  /** A selection submitted, then any run in the epoch, whatever is ticked or unticked meanwhile, then
      the acceptance: a new task is shown that has the request and the status that came, and exactly
      the files that were selected when the submit was made. */
  lemma SubmitIsAnswered(
    limits: Limits, p: Page, anew: bool, asked: Page, events: seq<Event>, m: Page, requestId: Text, status: TaskStatus,
    q: Page)
    requires Goes(limits, p, OnSubmit(anew), asked) && WellKept(p.selected) && Submittable(limits, p)
    requires asked.submission.attempt.Some? && asked.submission.attempt.value.task.None?
    requires Runs(limits, asked, events, m) && m.session.epoch == p.session.epoch
    requires Goes(limits, m, GotTask(p.submission.next + 1, requestId, status), q)
    ensures q.jobs.active.Some? && q.jobs.active.value !in m.jobs.tasks && q.jobs.active.value in q.jobs.tasks
    ensures q.jobs.tasks[q.jobs.active.value] ==
      Task(requestId, status, Listing(p.selected), false, false, None, false, None)
    ensures !q.submission.submitting
  {
    hide PageOk, Step, IsRun, After, Listing, Summarise;
    SubmitSends(limits, p, anew);
    RunKeepsCalls(limits, asked, events);
    TaskIsListed(limits, m, p.submission.next + 1, requestId, status);
  }
}
