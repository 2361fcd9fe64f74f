/** What holds in every state the ledger download page can reach. */
module LedgerSafety {
  import opened Options
  import opened Json
  import opened LedgerModel
  import opened LedgerSession
  import opened LedgerBoard
  import opened LedgerViewer
  import opened LedgerJobs
  import opened LedgerSubmission
  import opened LedgerPage

  /** The parts of the page, each in order for session `ss`. */
  ghost predicate PartsOk(ss: Session, p: Page) {
    && BoardOk(ss, p.board) && ViewerOk(ss, p.viewer) && UrlsBalance(p.viewer, p.urls)
    && DownloadsOk(ss, p.downloads) && JobsOk(ss, p.jobs) && SubmissionOk(ss, p.submission)
  }

  /** During a full recovery of the current epoch nothing is in progress or shown. */
  ghost predicate RecoveryQuiet(ss: Session, v: Viewer, j: Jobs) {
    forall i | i in ss.calls && !ss.calls[i].call.PassiveContext? && ss.calls[i].epoch == ss.epoch ::
      Quiet(j) && v.preview.None?
  }

  ghost predicate PageOk(p: Page) {
    && SessionOk(p.session) && PartsOk(p.session, p) && RecoveryQuiet(p.session, p.viewer, p.jobs)
    && WellKept(p.selected)
  }

  // ---------------------------------------------------------------- the session moves

  lemma PartsMoved(ss: Session, t: Session, p: Page)
    requires PartsOk(ss, p) && Moved(ss, t) && (SignedIn(t) ==> SignedIn(ss))
    ensures PartsOk(t, p)
  {
    BoardMoved(ss, t, p.board);
    ViewerMoved(ss, t, p.viewer, p.downloads);
    JobsMoved(ss, t, p.jobs);
    SubmissionMoved(ss, t, p.submission);
  }

  lemma ExpireParts(p: Page)
    requires PartsOk(p.session, p)
    ensures PartsOk(Expire(p).session, Expire(p)) && Expire(p).jobs.live == map[] == Expire(p).jobs.timers
  {
    var t := ExpireSession(p.session);
    OutdateBoardOk(p.session, t, p.board);
    ClosePreviewOk(p.session, t, p.viewer, p.urls);
    StopDownloadsOk(p.session, t, p.downloads);
    StopJobsOk(p.session, t, p.jobs);
    StopSubmitOk(p.session, t, p.submission);
  }

  lemma BeginParts(p: Page)
    requires PartsOk(p.session, p)
    ensures PartsOk(Begin(p).session, Begin(p)) && Quiet(Begin(p).jobs)
  {
    var t := BeginSession(p.session);
    OutdateBoardOk(p.session, t, p.board);
    ClosePreviewOk(p.session, t, p.viewer, p.urls);
    StopDownloadsOk(p.session, t, p.downloads);
    StopJobsOk(p.session, t, p.jobs);
    StopSubmitOk(p.session, t, p.submission);
  }

  lemma ExpireOk(p: Page)
    requires PageOk(p)
    ensures PageOk(Expire(p))
  {
    ExpireParts(p);
  }

  // ---------------------------------------------------------------- recovery

  /** Between the calls of a full recovery. */
  ghost predicate MidRecovery(p: Page) {
    && p.session.calls == map[] && p.session.recovery == InRecovery && p.session.recovering && !p.session.authenticated
    && PartsOk(p.session, p) && Quiet(p.jobs) && p.viewer.preview.None? && WellKept(p.selected)
  }

  lemma FinishParts(p: Page, t: Session)
    requires PartsOk(p.session, p) && Quiet(p.jobs) && !SignedIn(p.session)
    requires t.epoch == p.session.epoch && SignedIn(t)
    ensures PartsOk(t, p.(jobs := QueuePolls(p.jobs, p.jobs.order)))
  {
    BoardMoved(p.session, t, p.board);
    ViewerMoved(p.session, t, p.viewer, p.downloads);
    SubmissionMoved(p.session, t, p.submission);
    QueueAllOk(p.session, t, p.jobs);
  }

  lemma FinishOk(p: Page, results: seq<Item>)
    requires MidRecovery(p)
    ensures PageOk(Finish(p, results)) && SignedIn(Finish(p, results).session)
  {
    FinishParts(p, EndRecovery(p.session.(authenticated := true)));
    ReconcileExact(p.selected, results);
  }

  lemma FileStepOk(p: Page, step: RecoveryStep)
    requires MidRecovery(p) && !step.PassiveContext?
    requires step.Check? ==> step.start <= step.end <= |step.all|
    ensures PageOk(p.(session := FileRecovery(p.session, step)))
  {
    FileRecoveryOk(p.session, step);
    PartsMoved(p.session, FileRecovery(p.session, step), p);
  }

  lemma NextCheckOk(limits: Limits, p: Page, all: seq<Key>, start: nat, results: seq<Item>)
    requires MidRecovery(p) && start <= |all|
    ensures PageOk(NextCheck(limits, p, all, start, results))
  {
    if start < |all| {
      FileStepOk(p, Check(all, start, ChunkEnd(limits, all, start, start), None, results));
    } else {
      FinishOk(p, results);
    }
  }

  lemma ForgetOk(p: Page)
    requires MidRecovery(p)
    ensures MidRecovery(Forget(p))
  {
    BoardMoved(p.session, p.session, p.board);
    ViewerMoved(p.session, p.session, p.viewer, p.downloads);
    ForgetJobsOk(p.session, p.jobs);
    ForgetSubmissionOk(p.session, p.submission);
  }

  lemma AdoptContextOk(limits: Limits, p: Page, context: Context)
    requires MidRecovery(p)
    ensures PageOk(AdoptContext(limits, p, context))
  {
    var q := if SameEmployee(p.session.identity, context.identity) then p else Forget(p);
    ForgetOk(p);
    var t := q.session.(identity := context.identity, csrfToken := context.csrfToken);
    PartsMoved(q.session, t, q);
    ReconcileExact(q.selected, []);
    NextCheckOk(limits, q.(session := t, selected := Reconcile(q.selected, [])), Listing(q.selected), 0, []);
  }

  lemma ResumeOk(p: Page, passive: bool)
    requires PageOk(p)
    ensures PageOk(Resume(p, passive))
  {
    if p.session.recovery == NoRecovery {
      var q := p.(session := p.session.(recovery := InRecovery));
      PartsMoved(p.session, q.session, q);
      assert p.session.calls == map[];
      if passive && p.session.authenticated {
        FileRecoveryOk(q.session, PassiveContext);
        PartsMoved(q.session, FileRecovery(q.session, PassiveContext), q);
      } else {
        BeginParts(q);
        FileStepOk(Begin(q), FullContext);
      }
    }
  }

  /** The call is taken off and the recovery is over. */
  lemma TakenOk(p: Page, id: Id, error: Option<Code>)
    requires PageOk(p) && id in p.session.calls
    ensures PageOk(p.(session := EndRecovery(TakeRecovery(p.session, id)).(error := error)))
    ensures p.session.calls[id].call.PassiveContext? ==>
      PageOk(p.(session := EndPassive(TakeRecovery(p.session, id)).(error := error)))
  {
    NoneLeft(p.session, id);
    PartsMoved(p.session, EndPassive(TakeRecovery(p.session, id)).(error := error), p);
    PartsMoved(p.session, EndRecovery(TakeRecovery(p.session, id)).(error := error), p);
  }

  lemma MidOk(p: Page, id: Id)
    requires PageOk(p) && id in p.session.calls && p.session.calls[id].epoch == p.session.epoch
    requires !p.session.calls[id].call.PassiveContext?
    ensures MidRecovery(p.(session := TakeRecovery(p.session, id)))
  {
    NoneLeft(p.session, id);
    PartsMoved(p.session, TakeRecovery(p.session, id), p);
  }

  lemma PassiveArrivesOk(limits: Limits, p: Page, id: Id, context: Context)
    requires PageOk(p) && id in p.session.calls && p.session.calls[id].call.PassiveContext?
    ensures PageOk(AdoptContext(limits, Begin(p.(session := TakeRecovery(p.session, id))), context))
  {
    var q := p.(session := TakeRecovery(p.session, id));
    NoneLeft(p.session, id);
    PartsMoved(p.session, q.session, q);
    BeginParts(q);
    AdoptContextOk(limits, Begin(q), context);
  }

  lemma FullArrivesOk(limits: Limits, p: Page, id: Id, context: Context)
    requires PageOk(p) && id in p.session.calls && !p.session.calls[id].call.PassiveContext?
    ensures PageOk(ContextArrives(limits, p, id, context))
  {
    if p.session.calls[id].epoch == p.session.epoch {
      MidOk(p, id);
      AdoptContextOk(limits, p.(session := TakeRecovery(p.session, id)), context);
    } else {
      TakenOk(p, id, p.session.error);
    }
  }

  lemma ContextArrivesOk(limits: Limits, p: Page, id: Id, context: Context)
    requires PageOk(p) && id in p.session.calls
    ensures PageOk(ContextArrives(limits, p, id, context))
  {
    if !p.session.calls[id].call.PassiveContext? {
      FullArrivesOk(limits, p, id, context);
    } else if p.session.calls[id].epoch != p.session.epoch {
      TakenOk(p, id, p.session.error);
    } else if SameEmployee(p.session.identity, context.identity) && p.session.csrfToken == context.csrfToken {
      TakenOk(p, id, None);
    } else {
      PassiveArrivesOk(limits, p, id, context);
    }
  }

  lemma CheckArrivesOk(limits: Limits, p: Page, id: Id, items: seq<Item>, cursor: Option<Cursor>)
    requires PageOk(p) && id in p.session.calls && p.session.calls[id].call.Check?
    ensures PageOk(CheckArrives(limits, p, id, items, cursor))
  {
    var r, q := p.session.calls[id], p.(session := TakeRecovery(p.session, id));
    if r.epoch != p.session.epoch {
      TakenOk(p, id, p.session.error);
    } else {
      MidOk(p, id);
      if cursor.Some? {
        FileStepOk(q, r.call.(cursor := cursor, results := r.call.results + items));
      } else {
        NextCheckOk(limits, q, r.call.all, r.call.end, r.call.results + items);
      }
    }
  }

  /** What a failed recovery call leaves: its session ended, and expired if it said so. */
  lemma RecoveryFailsForm(p: Page, id: Id, code: Code)
    requires id in p.session.calls
    ensures var r := p.session.calls[id];
      var t := TakeRecovery(p.session, id);
      var ended := if r.call.PassiveContext? then EndPassive(t) else EndRecovery(t);
      RecoveryFails(p, id, code) ==
        if r.epoch != p.session.epoch then p.(session := ended.(error := p.session.error))
        else if SignInCode(code) && !r.call.FullContext? then Expire(p.(session := ended.(error := p.session.error)))
        else p.(session := ended.(error := Some(code)))
  {
  }

  lemma RecoveryFailsOk(p: Page, id: Id, code: Code)
    requires PageOk(p) && id in p.session.calls
    ensures PageOk(RecoveryFails(p, id, code))
  {
    var r := p.session.calls[id];
    RecoveryFailsForm(p, id, code);
    if r.epoch == p.session.epoch && !(SignInCode(code) && !r.call.FullContext?) {
      TakenOk(p, id, Some(code));
    } else {
      TakenOk(p, id, p.session.error);
      var t := TakeRecovery(p.session, id);
      var ended := if r.call.PassiveContext? then EndPassive(t) else EndRecovery(t);
      ExpireOk(p.(session := ended.(error := p.session.error)));
    }
  }

  // ---------------------------------------------------------------- ordinary calls

  lemma QueryCameOk(p: Page, id: Id, rows: seq<Item>, cursor: Option<Cursor>)
    requires PageOk(p) && id in p.board.calls
    ensures PageOk(QueryCame(p, id, rows, cursor))
  {
    QueryArrivesOk(p.session, p.board, id, rows, cursor);
    RefreshKept(p.selected, rows);
  }

  lemma TakenBoard(ss: Session, b: Board, id: Id)
    requires BoardOk(ss, b) && !b.querying
    ensures BoardOk(ss, b.(calls := b.calls - {id}))
  {
    assert forall i | i in b.calls - {id} :: i in b.calls;
  }

  lemma TakenViewer(ss: Session, v: Viewer, id: Id)
    requires ViewerOk(ss, v) && v.preview.None?
    ensures ViewerOk(ss, v.(calls := v.calls - {id}))
  {
    assert forall i | i in v.calls - {id} :: i in v.calls;
  }

  lemma QueryFailedForm(p: Page, id: Id, code: Code)
    requires id in p.board.calls
    requires p.board.calls[id].epoch == p.session.epoch && SignInCode(code)
    requires p.board.calls[id].call.version <= p.board.version
    ensures QueryFailed(p, id, code) == Expire(p).(board := Expire(p).board.(calls := p.board.calls - {id}))
  {
  }

  lemma QueryFailedOk(p: Page, id: Id, code: Code)
    requires PageOk(p) && id in p.board.calls
    ensures PageOk(QueryFailed(p, id, code))
  {
    if p.board.calls[id].epoch == p.session.epoch && SignInCode(code) {
      QueryFailedForm(p, id, code);
      ExpireOk(p);
      TakenBoard(Expire(p).session, Expire(p).board, id);
    } else {
      QueryFailsOk(p.session, p.board, id, code);
    }
  }

  lemma PreviewFailedForm(p: Page, id: Id, code: Code)
    requires id in p.viewer.calls
    requires p.viewer.calls[id].epoch == p.session.epoch && SignInCode(code)
    ensures PreviewFailed(p, id, code) == Expire(p).(viewer := Expire(p).viewer.(calls := p.viewer.calls - {id}))
  {
  }

  lemma PreviewFailedOk(p: Page, id: Id, code: Code)
    requires PageOk(p) && id in p.viewer.calls
    ensures PageOk(PreviewFailed(p, id, code))
  {
    if p.viewer.calls[id].epoch == p.session.epoch && SignInCode(code) {
      PreviewFailedForm(p, id, code);
      ExpireOk(p);
      TakenViewer(Expire(p).session, Expire(p).viewer, id);
    } else {
      PreviewFailsOk(p.session, p.viewer, p.urls, id, code);
    }
  }

  lemma DownloadFailedForm(p: Page, id: Id, code: Code)
    requires id in p.downloads.calls && p.downloads.calls[id].epoch == p.session.epoch && SignInCode(code)
    ensures DownloadFailed(p, id, code) ==
            Expire(p).(downloads := EndDownload(Expire(p).session, Expire(p).downloads, id, Failed(code)))
  {
  }

  lemma DownloadFailedOk(p: Page, id: Id, code: Code)
    requires PageOk(p) && id in p.downloads.calls
    ensures PageOk(DownloadFailed(p, id, code))
  {
    if p.downloads.calls[id].epoch == p.session.epoch && SignInCode(code) {
      DownloadFailedForm(p, id, code);
      ExpireOk(p);
      EndDownloadOk(Expire(p).session, Expire(p).downloads, id, Failed(code));
    } else {
      EndDownloadOk(p.session, p.downloads, id, Failed(code));
    }
  }

  lemma StatusFailedOk(p: Page, id: Id, code: Code)
    requires PageOk(p) && id in p.jobs.polls
    ensures PageOk(StatusFailed(p, id, code))
  {
    PollFailsOk(p.session, p.jobs, id, code);
    if p.jobs.polls[id].epoch == p.session.epoch && SignInCode(code) {
      ExpireOk(p);
      var e := Expire(p.(jobs := p.jobs.(polls := p.jobs.polls - {id})));
      assert StatusFailed(p, id, code) == e;
      assert e == Expire(p).(jobs := e.jobs);
      PollFailsOk(Expire(p).session, Expire(p).jobs, id, code);
    }
  }

  lemma LinkFailedOk(p: Page, id: Id, code: Code)
    requires PageOk(p) && id in p.jobs.links
    ensures PageOk(LinkFailed(p, id, code))
  {
    LinkFailsOk(p.session, p.jobs, id, code);
    if p.jobs.links[id].epoch == p.session.epoch && SignInCode(code) {
      ExpireOk(p);
      var e := Expire(p.(jobs := p.jobs.(links := p.jobs.links - {id})));
      assert LinkFailed(p, id, code) == e;
      assert e == Expire(p).(jobs := e.jobs);
      LinkFailsOk(Expire(p).session, Expire(p).jobs, id, code);
    }
  }

  lemma SubmitFailedOk(p: Page, id: Id, code: Code)
    requires PageOk(p) && id in p.submission.calls
    ensures PageOk(SubmitFailed(p, id, code))
  {
    SubmitFailsOk(p.session, p.submission, id, code);
    if p.submission.calls[id].epoch == p.session.epoch && SignInCode(code) {
      ExpireOk(p);
      var e := Expire(p.(submission := p.submission.(calls := p.submission.calls - {id})));
      assert SubmitFailed(p, id, code) == e;
      assert e == Expire(p).(submission := e.submission);
      SubmitFailsOk(Expire(p).session, Expire(p).submission, id, code);
    }
  }

  lemma SubmitOk(limits: Limits, p: Page, anew: bool)
    requires PageOk(p)
    ensures PageOk(Submit(limits, p, anew))
  {
    if MaySubmit(limits, p) {
      StartSubmitOk(p.session, p.submission, Listing(p.selected), anew);
      ActiveOk(p.session, p.jobs, StartSubmit(p.session, p.submission, Listing(p.selected), anew).attempt.value.task);
    }
  }

  lemma SubmitCameOk(p: Page, id: Id, requestId: Text, status: TaskStatus)
    requires PageOk(p) && id in p.submission.calls
    ensures PageOk(SubmitCame(p, id, requestId, status))
  {
    SubmitArrivesOk(p.session, p.submission, id, p.jobs.next);
    SubmitArrivesTasks(p.session, p.submission, id, p.jobs.next);
    if p.submission.calls[id].epoch == p.session.epoch {
      AddTaskOk(p.session, p.jobs, Task(requestId, status, p.submission.calls[id].call.selection, false, false, None,
        false, None));
    }
  }

  lemma {:induction false} ChooseAllKept(s: Selected, items: seq<Item>, checked: bool)
    requires WellKept(s)
    ensures WellKept(ChooseAll(s, items, checked))
    decreases |items|
  {
    if items != [] {
      ChooseKept(s, items[0], checked);
      ChooseAllKept(Choose(s, items[0], checked), items[1..], checked);
    }
  }

  // ---------------------------------------------------------------- every step, every run

  lemma ActionOk(limits: Limits, p: Page, e: Event)
    requires PageOk(p) && Enabled(p, e)
    requires e.OnQuery? || e.OnPreview? || e.OnClosePreview? || e.OnDownload? || e.OnPoll? || e.OnLink? || e.OnTimer?
    ensures PageOk(Step(limits, p, e))
  {
    match e
    case OnQuery(scope, batch) =>
      if SignedIn(p.session) {
        StartQueryOk(p.session, p.board, scope, batch);
      }
    case OnPreview(item) =>
      if SignedIn(p.session) {
        StartPreviewOk(p.session, p.viewer, p.urls, item);
      }
    case OnClosePreview => ClosePreviewOk(p.session, p.session, p.viewer, p.urls);
    case OnDownload(item) =>
      if SignedIn(p.session) && item.key !in p.downloads.busy {
        StartDownloadOk(p.session, p.downloads, item.key);
      }
    case OnPoll(t) => StartPollOk(p.session, p.jobs, t);
    case OnLink(t) => StartLinkOk(p.session, p.jobs, t);
    case OnTimer(h) => FireTimerOk(p.session, p.jobs, h);
  }

  lemma PreviewCameOk(limits: Limits, p: Page, e: Event)
    requires PageOk(p) && Enabled(p, e) && e.GotPreview?
    ensures PageOk(Step(limits, p, e))
  {
    PreviewArrivesOk(p.session, p.viewer, p.urls, e.id, e.url);
  }

  lemma DownloadCameOk(limits: Limits, p: Page, e: Event)
    requires PageOk(p) && Enabled(p, e) && e.GotDownload?
    ensures PageOk(Step(limits, p, e))
  {
    EndDownloadOk(p.session, p.downloads, e.id, DownloadStarted);
  }

  lemma StatusCameOk(limits: Limits, p: Page, e: Event)
    requires PageOk(p) && Enabled(p, e) && e.GotStatus?
    ensures PageOk(Step(limits, p, e))
  {
    PollArrivesOk(p.session, p.jobs, e.id, e.status, e.errorCode);
  }

  lemma LinkCameOk(limits: Limits, p: Page, e: Event)
    requires PageOk(p) && Enabled(p, e) && e.GotLink?
    ensures PageOk(Step(limits, p, e))
  {
    LinkArrivesOk(p.session, p.jobs, e.id, e.expiresAt);
  }

  /** Every step keeps the page in order. */
  lemma StepOk(limits: Limits, p: Page, e: Event)
    requires PageOk(p) && Enabled(p, e)
    ensures PageOk(Step(limits, p, e))
  {
    match e
    case OnResume(passive) => ResumeOk(p, passive);
    case OnSettled => SettledOk(p);
    case OnExpire => ExpireOk(p);
    case OnSubmit(anew) => SubmitOk(limits, p, anew);
    case OnSelect(item, checked) => ChooseKept(p.selected, item, checked);
    case OnSelectBatch(items, checked) => ChooseAllKept(p.selected, items, checked);
    case OnClearSelection =>
    case GotContext(id, context) => ContextArrivesOk(limits, p, id, context);
    case GotCheck(id, answers, cursor) => CheckArrivesOk(limits, p, id, answers, cursor);
    case GotPreview(_, _) => PreviewCameOk(limits, p, e);
    case GotDownload(_, _) => DownloadCameOk(limits, p, e);
    case GotStatus(_, _, _) => StatusCameOk(limits, p, e);
    case GotLink(_, _, _) => LinkCameOk(limits, p, e);
    case GotRows(id, rows, cursor) => QueryCameOk(p, id, rows, cursor);
    case GotTask(id, requestId, status) => SubmitCameOk(p, id, requestId, status);
    case RecoveryFailure(id, code) => RecoveryFailsOk(p, id, code);
    case QueryFailure(id, code) => QueryFailedOk(p, id, code);
    case PreviewFailure(id, code) => PreviewFailedOk(p, id, code);
    case DownloadFailure(id, code) => DownloadFailedOk(p, id, code);
    case StatusFailure(id, code) => StatusFailedOk(p, id, code);
    case SubmitFailure(id, code) => SubmitFailedOk(p, id, code);
    case LinkFailure(id, code) => LinkFailedOk(p, id, code);
    case _ =>
      ActionOk(limits, p, e);
  }

  lemma SettledOk(p: Page)
    requires PageOk(p) && p.session.recovery == RecoveryDone
    ensures PageOk(p.(session := p.session.(recovery := NoRecovery)))
  {
    PartsMoved(p.session, p.session.(recovery := NoRecovery), p);
  }

  /** A run: each event is possible when it happens. */
  ghost predicate IsRun(limits: Limits, p: Page, events: seq<Event>)
    requires PageOk(p)
    decreases |events|
  {
    events == [] ||
    (Enabled(p, events[0]) && (StepOk(limits, p, events[0]); IsRun(limits, Step(limits, p, events[0]), events[1..])))
  }

  ghost function After(limits: Limits, p: Page, events: seq<Event>): (r: Page)
    requires PageOk(p) && IsRun(limits, p, events)
    ensures PageOk(r)
    decreases |events|
  {
    if events == [] then p
    else StepOk(limits, p, events[0]); After(limits, Step(limits, p, events[0]), events[1..])
  }

  lemma RunHead(limits: Limits, p: Page, events: seq<Event>)
    requires PageOk(p) && IsRun(limits, p, events) && events != []
    ensures Enabled(p, events[0]) && PageOk(Step(limits, p, events[0]))
    ensures IsRun(limits, Step(limits, p, events[0]), events[1..])
  {
    StepOk(limits, p, events[0]);
  }

  lemma RunStep(limits: Limits, q: Page, events: seq<Event>)
    requires PageOk(q) && events != [] && Enabled(q, events[0]) && PageOk(Step(limits, q, events[0]))
    requires IsRun(limits, Step(limits, q, events[0]), events[1..])
    ensures IsRun(limits, q, events)
  {
  }

  lemma AfterStep(limits: Limits, q: Page, events: seq<Event>)
    requires PageOk(q) && IsRun(limits, q, events) && events != []
    requires PageOk(Step(limits, q, events[0])) && IsRun(limits, Step(limits, q, events[0]), events[1..])
    ensures After(limits, q, events) == After(limits, Step(limits, q, events[0]), events[1..])
  {
  }

  lemma StartOk()
    ensures PageOk(START)
  {
  }
}
