/** The promises of the ledger download page, for every run from its start. */
module LedgerTheorems {
  import opened Options
  import opened Json
  import opened LedgerModel
  import opened LedgerSession
  import opened LedgerBoard
  import opened LedgerViewer
  import opened LedgerJobs
  import opened LedgerSubmission
  import opened LedgerPage
  import opened LedgerSafety

  /** Pages a run from the start can reach. */
  ghost predicate Reachable(limits: Limits, p: Page) {
    StartOk();
    exists events :: IsRun(limits, START, events) && After(limits, START, events) == p
  }

  lemma ReachableOk(limits: Limits, p: Page)
    requires Reachable(limits, p)
    ensures PageOk(p)
  {
    StartOk();
  }

  lemma StartIsReachable(limits: Limits)
    ensures Reachable(limits, START)
  {
    StartOk();
    assert After(limits, START, []) == START;
  }

  lemma NoRun(limits: Limits, p: Page)
    requires PageOk(p)
    ensures IsRun(limits, p, []) && After(limits, p, []) == p
  {
  }

  lemma RunOne(limits: Limits, p: Page, e: Event)
    requires PageOk(p) && Enabled(p, e)
    ensures IsRun(limits, p, [e]) && After(limits, p, [e]) == Step(limits, p, e)
  {
    StepOk(limits, p, e);
    hide PageOk, Step;
    assert [e][1..] == [];
    NoRun(limits, Step(limits, p, e));
    RunStep(limits, p, [e]);
    AfterStep(limits, p, [e]);
  }

  lemma RunPrepends(limits: Limits, p: Page, events: seq<Event>, next: Page)
    requires PageOk(p) && events != [] && Enabled(p, events[0]) && next == Step(limits, p, events[0])
    requires PageOk(next) && IsRun(limits, next, events[1..])
    ensures IsRun(limits, p, events) && After(limits, p, events) == After(limits, next, events[1..])
  {
    RunStep(limits, p, events);
    AfterStep(limits, p, events);
  }

  lemma RunSplits(limits: Limits, p: Page, events: seq<Event>) returns (next: Page)
    requires PageOk(p) && IsRun(limits, p, events) && events != []
    ensures Enabled(p, events[0]) && next == Step(limits, p, events[0]) && PageOk(next)
    ensures IsRun(limits, next, events[1..])
    ensures After(limits, p, events) == After(limits, next, events[1..])
  {
    RunHead(limits, p, events);
    AfterStep(limits, p, events);
    next := Step(limits, p, events[0]);
  }

  lemma OneMore(events: seq<Event>, e: Event)
    requires events != []
    ensures (events + [e])[0] == events[0] && (events + [e])[1..] == events[1..] + [e]
  {
  }

  /** A run may go on with any event that is possible where it stands. */
  lemma {:induction false} RunGoesOn(limits: Limits, p: Page, events: seq<Event>, q: Page, e: Event, r: Page)
    requires PageOk(p) && IsRun(limits, p, events) && After(limits, p, events) == q
    requires PageOk(q) && Enabled(q, e) && Step(limits, q, e) == r
    ensures IsRun(limits, p, events + [e]) && After(limits, p, events + [e]) == r
    decreases |events|
  {
    if events == [] {
      NoRun(limits, p);
      RunOne(limits, p, e);
      assert [] + [e] == [e];
    } else {
      var next := RunSplits(limits, p, events);
      RunGoesOn(limits, next, events[1..], q, e, r);
      OneMore(events, e);
      RunPrepends(limits, p, events + [e], next);
    }
  }

  lemma RunTo(limits: Limits, p: Page) returns (events: seq<Event>)
    requires Reachable(limits, p)
    ensures PageOk(START) && IsRun(limits, START, events) && After(limits, START, events) == p
  {
    StartOk();
    events :| IsRun(limits, START, events) && After(limits, START, events) == p;
  }

  lemma RunReaches(limits: Limits, events: seq<Event>)
    requires PageOk(START) && IsRun(limits, START, events)
    ensures Reachable(limits, After(limits, START, events))
  {
  }

  lemma StepIsReachable(limits: Limits, p: Page, e: Event)
    requires Reachable(limits, p) && Enabled(p, e)
    ensures PageOk(p) && Reachable(limits, Step(limits, p, e))
  {
    ReachableOk(limits, p);
    var events := RunTo(limits, p);
    RunGoesOn(limits, START, events, p, e, Step(limits, p, e));
    RunReaches(limits, events + [e]);
  }

  /** Any employee can sign in: such a page is reachable, so what follows is not said of nothing. */
  lemma SignInIsReachable(limits: Limits, context: Context) returns (p: Page)
    requires !SameEmployee(None, context.identity)
    ensures Reachable(limits, p) && SignedIn(p.session) && p.session.identity == context.identity
    ensures p.session.recovery == RecoveryDone
  {
    StartIsReachable(limits);
    StepIsReachable(limits, START, OnResume(false));
    p := Step(limits, START, OnResume(false));
    assert 0 in p.session.calls && p.session.calls[0].call == FullContext;
    ReachableOk(limits, p);
    StepIsReachable(limits, p, GotContext(0, context));
    p := ContextArrives(limits, p, 0, context);
    assert Listing(EMPTY) == [];
  }

  /** Polling never doubles and never loses a wake-up. */
  lemma PollingIsExact(limits: Limits, p: Page)
    requires Reachable(limits, p)
    ensures forall g, h | g in p.jobs.live && h in p.jobs.live && p.jobs.live[g] == p.jobs.live[h] :: g == h
    ensures forall i, k | i in p.jobs.polls && k in p.jobs.polls && p.jobs.polls[i].call == p.jobs.polls[k].call
                          && p.jobs.polls[i].epoch == p.jobs.polls[k].epoch == p.session.epoch :: i == k
    ensures forall h, i | h in p.jobs.live && i in p.jobs.polls && p.jobs.polls[i].epoch == p.session.epoch ::
              p.jobs.live[h] != p.jobs.polls[i].call
    ensures !SignedIn(p.session) ==> p.jobs.live == map[]
    ensures SignedIn(p.session) ==>
      forall t | t in p.jobs.tasks && Pending(p.jobs.tasks[t]) ::
        || (exists h | h in p.jobs.live :: p.jobs.live[h] == t)
        || HasCall(p.session, p.jobs.polls, t)
        || p.jobs.tasks[t].error.Some?
  {
    ReachableOk(limits, p);
    assert Scheduled(p.session, p.jobs) && Marked(p.session, p.jobs);
    TimersApart(p.session, p.jobs);
  }

  lemma TimersApart(ss: Session, j: Jobs)
    requires Scheduled(ss, j) && Marked(ss, j)
    ensures forall h, i | h in j.live && i in j.polls && j.polls[i].epoch == ss.epoch :: j.live[h] != j.polls[i].call
    ensures !SignedIn(ss) ==> j.live == map[]
    ensures SignedIn(ss) ==>
      forall t | t in j.tasks && Pending(j.tasks[t]) ::
        (exists h | h in j.live :: j.live[h] == t) || HasCall(ss, j.polls, t) || j.tasks[t].error.Some?
  {
    LiveCallsMarked(ss, j);
    assert forall h | h in j.live :: j.live[h] in j.timers;
    if SignedIn(ss) {
      forall t | t in j.tasks && Pending(j.tasks[t])
        ensures (exists h | h in j.live :: j.live[h] == t) || HasCall(ss, j.polls, t) || j.tasks[t].error.Some?
      {
        if t in j.timers {
          assert j.timers[t] in j.live && j.live[j.timers[t]] == t;
        } else if j.tasks[t].waiting {
          assert t in Waiting(j);
        }
      }
    }
  }

  /** Every URL that came in was released once, or handed to the browser once, or is the one shown. */
  lemma UrlsAreLinear(limits: Limits, p: Page)
    requires Reachable(limits, p)
    ensures p.urls.returned == p.urls.released + p.urls.saved + AsMultiset(Held(p.viewer))
  {
    ReachableOk(limits, p);
  }

  /** An idempotency key carries one selection for ever and makes at most one task. */
  lemma KeysAreFaithful(limits: Limits, p: Page)
    requires Reachable(limits, p)
    ensures forall i, j | 0 <= i < |p.submission.sent| && 0 <= j < |p.submission.sent|
                          && p.submission.sent[i].idempotencyKey == p.submission.sent[j].idempotencyKey ::
              p.submission.sent[i].selection == p.submission.sent[j].selection
    ensures forall i, j | 0 <= i < j < |p.submission.made| :: p.submission.made[i].0 != p.submission.made[j].0
  {
    ReachableOk(limits, p);
  }

  // ---------------------------------------------------------------- retries

  /** A step that may replace the open attempt: a submit of another selection or
      an explicit new one, or a context of this epoch naming another employee. */
  ghost predicate Replaces(limits: Limits, p: Page, e: Event)
    requires WellKept(p.selected) && Enabled(p, e)
  {
    match e
    case OnSubmit(anew) =>
      && MaySubmit(limits, p)
      && (anew || p.submission.attempt.None? || p.submission.attempt.value.selection != Listing(p.selected))
    case GotContext(id, context) =>
      p.session.calls[id].epoch == p.session.epoch && !SameEmployee(p.session.identity, context.identity)
    case _ => false
  }

  /** The same attempt, except perhaps that it has its task now. */
  predicate SameAttempt(u: Submission, v: Submission) {
    && u.attempt.Some? && v.attempt.Some?
    && v.attempt.value == u.attempt.value.(task := v.attempt.value.task)
  }

  lemma SubmitKeepsAttempt(limits: Limits, p: Page, e: Event)
    requires PageOk(p) && Enabled(p, e) && e.OnSubmit? && !Replaces(limits, p, e) && p.submission.attempt.Some?
    ensures SameAttempt(p.submission, Step(limits, p, e).submission)
  {
    if MaySubmit(limits, p) {
      assert KeysFaithful(p.submission);
    }
  }

  lemma ContextKeepsAttempt(limits: Limits, p: Page, id: Id, context: Context)
    requires id in p.session.calls && p.submission.attempt.Some?
    requires p.session.calls[id].epoch != p.session.epoch || SameEmployee(p.session.identity, context.identity)
    ensures SameAttempt(p.submission, ContextArrives(limits, p, id, context).submission)
  {
  }

  lemma FailureKeepsAttempt(p: Page, e: Event)
    requires Enabled(p, e) && WellKept(p.selected) && p.submission.attempt.Some?
    requires e.SubmitFailure? || e.QueryFailure? || e.PreviewFailure? || e.DownloadFailure? || e.StatusFailure?
      || e.LinkFailure? || e.RecoveryFailure?
    ensures forall limits :: SameAttempt(p.submission, Step(limits, p, e).submission)
  {
  }

  /** Any other step, whether a failure, an expiry or a new sign-in, keeps the attempt and its key. */
  lemma AttemptStays(limits: Limits, p: Page, e: Event)
    requires PageOk(p) && Enabled(p, e) && !Replaces(limits, p, e) && p.submission.attempt.Some?
    ensures SameAttempt(p.submission, Step(limits, p, e).submission)
  {
    if e.OnSubmit? {
      SubmitKeepsAttempt(limits, p, e);
    } else if e.GotContext? {
      ContextKeepsAttempt(limits, p, e.id, e.context);
    } else if e.SubmitFailure? || e.QueryFailure? || e.PreviewFailure? || e.DownloadFailure? || e.StatusFailure?
              || e.LinkFailure? || e.RecoveryFailure? {
      FailureKeepsAttempt(p, e);
    } else {
      OtherKeepsAttempt(limits, p, e);
    }
  }

  lemma OtherKeepsAttempt(limits: Limits, p: Page, e: Event)
    requires Enabled(p, e) && WellKept(p.selected) && p.submission.attempt.Some?
    requires !e.OnSubmit? && !e.GotContext? && !e.SubmitFailure? && !e.QueryFailure? && !e.PreviewFailure?
      && !e.DownloadFailure? && !e.StatusFailure? && !e.LinkFailure? && !e.RecoveryFailure?
    ensures SameAttempt(p.submission, Step(limits, p, e).submission)
  {
  }

  ghost predicate NeverReplaced(limits: Limits, p: Page, events: seq<Event>)
    requires PageOk(p) && IsRun(limits, p, events)
    decreases |events|
  {
    events == [] ||
    (StepOk(limits, p, events[0]);
     !Replaces(limits, p, events[0]) && NeverReplaced(limits, Step(limits, p, events[0]), events[1..]))
  }

  /** A retry of an unchanged selection sends the key of the first try, however
      many failures, expiries and sign-ins of the same employee lie between. */
  lemma {:induction false} RetryReusesKey(limits: Limits, p: Page, events: seq<Event>)
    requires PageOk(p) && IsRun(limits, p, events) && p.submission.attempt.Some? && NeverReplaced(limits, p, events)
    ensures var q := After(limits, p, events);
      && q.submission.attempt.Some?
      && q.submission.attempt.value.idempotencyKey == p.submission.attempt.value.idempotencyKey
      && q.submission.attempt.value.selection == p.submission.attempt.value.selection
    ensures var q := After(limits, p, events);
      MaySubmit(limits, q) && Listing(q.selected) == p.submission.attempt.value.selection
        && q.submission.attempt.value.task.None? ==>
        Submit(limits, q, false).submission.sent ==
          q.submission.sent
          + [SubmitCall(p.submission.attempt.value.idempotencyKey, p.submission.attempt.value.selection)]
    decreases |events|
  {
    if events == [] {
      assert KeysFaithful(p.submission);
    } else {
      StepOk(limits, p, events[0]);
      AttemptStays(limits, p, events[0]);
      RetryReusesKey(limits, Step(limits, p, events[0]), events[1..]);
    }
  }

  /** What a submit sends is the listing of the selection, under the open attempt's key. */
  lemma SubmitSendsListing(limits: Limits, p: Page, anew: bool)
    requires PageOk(p) && MaySubmit(limits, p)
    ensures var q := Submit(limits, p, anew);
      && q.submission.attempt.Some? && q.submission.attempt.value.selection == Listing(p.selected)
      && (q.submission.attempt.value.task.None? ==>
            q.submission.sent == p.submission.sent
              + [SubmitCall(q.submission.attempt.value.idempotencyKey, Listing(p.selected))])
      && (q.submission.attempt.value.task.Some? ==> q.submission.sent == p.submission.sent)
  {
    AdoptOk(p.session, p.submission, Listing(p.selected), anew);
  }
}
