/**
 The check of the whole selection that ends a sign-in. It goes chunk by chunk and,
 within a chunk, page by page, while user actions, timers and answers to other
 calls go on. Whatever happens in between, the selection ends up as one check
 without limits would have left it.
 */
module LedgerRevalidation {
  import opened Options
  import opened Json
  import opened LedgerModel
  import opened LedgerSession
  import opened LedgerBoard
  import opened LedgerViewer
  import opened LedgerJobs
  import opened LedgerSubmission
  import opened LedgerPage
  import opened LedgerSafety
  import opened LedgerTheorems

  /** The context that arrives is of this epoch and is adopted, so that a check begins. */
  predicate Adopts(p: Page, id: Id, context: Context) {
    && id in p.session.calls && !p.session.calls[id].call.Check? && p.session.calls[id].epoch == p.session.epoch
    && (p.session.calls[id].call.PassiveContext? ==>
          !(SameEmployee(p.session.identity, context.identity) && p.session.csrfToken == context.csrfToken))
  }

  /** `s` is the page on which the check of an adopted context begins. */
  ghost predicate Adopted(limits: Limits, p: Page, id: Id, context: Context, s: Page) {
    PageOk(p) && Adopts(p, id, context) && s == ContextArrives(limits, p, id, context)
  }

  /** The selection the check is about: that of the page, or none if the employee changed. */
  function Kept(p: Page, context: Context): Selected {
    if SameEmployee(p.session.identity, context.identity) then p.selected else EMPTY
  }

  /** The event is an answer to a check of the current epoch. */
  predicate Counts(p: Page, e: Event)
    requires Enabled(p, e)
  {
    e.GotCheck? && p.session.calls[e.id].epoch == p.session.epoch
  }

  /** What an event adds to the answers of the check. */
  function Gain(p: Page, e: Event): seq<Item>
    requires Enabled(p, e)
  {
    if Counts(p, e) then e.answers else []
  }

  /** Everything answered to the check during a run, in order. */
  ghost function Collected(limits: Limits, p: Page, events: seq<Event>): seq<Item>
    requires PageOk(p) && IsRun(limits, p, events)
    decreases |events|
  {
    if events == [] then []
    else
      StepOk(limits, p, events[0]);
      Gain(p, events[0]) + Collected(limits, Step(limits, p, events[0]), events[1..])
  }

  /** `start` is where one of the chunks begins. */
  ghost predicate StartsChunk(limits: Limits, all: seq<Key>, start: nat)
    requires Usable(limits)
  {
    && start < |all|
    && exists c | 0 <= c < |Chunks(limits, all, 0)| :: Chunks(limits, all, 0)[c..] == Chunks(limits, all, start)
  }

  lemma FirstChunk(limits: Limits, all: seq<Key>)
    requires Usable(limits) && all != []
    ensures StartsChunk(limits, all, 0)
  {
    assert Chunks(limits, all, 0)[0..] == Chunks(limits, all, 0);
  }

  lemma NextStarts(limits: Limits, all: seq<Key>, start: nat)
    requires Usable(limits) && StartsChunk(limits, all, start) && ChunkEnd(limits, all, start, start) < |all|
    ensures StartsChunk(limits, all, ChunkEnd(limits, all, start, start))
  {
    ChunkStart(limits, all, start);
    var chunks := Chunks(limits, all, 0);
    var c :| 0 <= c < |chunks| && chunks[c..] == Chunks(limits, all, start);
    assert chunks[c + 1..] == chunks[c..][1..] == Chunks(limits, all, ChunkEnd(limits, all, start, start));
    assert Chunks(limits, all, ChunkEnd(limits, all, start, start)) != [];
  }

  /** A call of the check: the listing, one chunk of it, and everything answered so far. */
  ghost predicate Checks(limits: Limits, all: seq<Key>, gathered: seq<Item>, step: RecoveryStep)
    requires Usable(limits)
  {
    && step.Check? && step.all == all && step.results == gathered && StartsChunk(limits, all, step.start)
    && step.end == ChunkEnd(limits, all, step.start, step.start)
  }

  /** Whatever call of a full recovery is in flight in this epoch is a call of the check. */
  ghost predicate Underway(limits: Limits, all: seq<Key>, p: Page, gathered: seq<Item>)
    requires Usable(limits)
  {
    forall i | i in p.session.calls && p.session.calls[i].epoch == p.session.epoch
               && !p.session.calls[i].call.PassiveContext? :: Checks(limits, all, gathered, p.session.calls[i].call)
  }

  // ---------------------------------------------------------------- one step

  predicate OfSession(e: Event) {
    e.OnResume? || e.OnSettled? || e.GotContext? || e.GotCheck? || e.RecoveryFailure?
  }

  predicate Edits(e: Event) { e.OnSelect? || e.OnSelectBatch? || e.OnClearSelection? }

  lemma FailureSession(limits: Limits, p: Page, e: Event)
    requires PageOk(p) && Enabled(p, e)
    requires e.QueryFailure? || e.PreviewFailure? || e.DownloadFailure? || e.StatusFailure? || e.SubmitFailure?
      || e.LinkFailure?
    ensures var q := Step(limits, p, e);
      (q.session == p.session || q.session.epoch == p.session.epoch + 1) && q.selected == p.selected
  {
    hide PageOk, QueryFails, PreviewFails, EndDownload, PollFails, LinkFails, SubmitFails, OutdateBoard, ClosePreview,
      Release, Held, StopTimers, StopSubmit, StopDownloads;
  }

  /** An event that is not about the session leaves it alone or ends it. */
  lemma OtherSession(limits: Limits, p: Page, e: Event)
    requires PageOk(p) && Enabled(p, e) && !OfSession(e)
    ensures var q := Step(limits, p, e);
      && (q.session == p.session || q.session.epoch == p.session.epoch + 1)
      && (!Edits(e) && !(e.GotRows? && Wanted(p.session, p.board, e.id)) ==> q.selected == p.selected)
  {
    if e.QueryFailure? || e.PreviewFailure? || e.DownloadFailure? || e.StatusFailure? || e.SubmitFailure?
       || e.LinkFailure? {
      FailureSession(limits, p, e);
    }
  }

  lemma ContextEpochGrows(limits: Limits, p: Page, id: Id, context: Context)
    requires id in p.session.calls
    ensures ContextArrives(limits, p, id, context).session.epoch >= p.session.epoch
  {
    hide ForgetBoard, ForgetJobs, ForgetSubmission, Reconcile, Listing, QueuePolls, OutdateBoard, ClosePreview, Release,
      Held, StopTimers, StopSubmit, StopDownloads, IdleTasks;
  }

  lemma CheckEpochGrows(limits: Limits, p: Page, e: Event)
    requires PageOk(p) && Enabled(p, e) && e.GotCheck?
    ensures Step(limits, p, e).session.epoch >= p.session.epoch
  {
    hide PageOk, Reconcile, QueuePolls;
  }

  lemma ResumeEpochGrows(limits: Limits, p: Page, e: Event)
    requires PageOk(p) && Enabled(p, e) && (e.OnResume? || e.OnSettled? || e.RecoveryFailure?)
    ensures Step(limits, p, e).session.epoch >= p.session.epoch
  {
    hide PageOk, OutdateBoard, ClosePreview, Release, Held, StopTimers, StopSubmit, StopDownloads, IdleTasks;
  }

  /** The epoch never falls. */
  lemma EpochGrows(limits: Limits, p: Page, e: Event)
    requires PageOk(p) && Enabled(p, e)
    ensures Step(limits, p, e).session.epoch >= p.session.epoch
  {
    hide PageOk, Resume, CheckArrives, RecoveryFails, ContextArrives;
    if !OfSession(e) {
      OtherSession(limits, p, e);
    } else if e.GotContext? {
      ContextEpochGrows(limits, p, e.id, e.context);
    } else if e.GotCheck? {
      CheckEpochGrows(limits, p, e);
    } else {
      ResumeEpochGrows(limits, p, e);
    }
  }

  lemma {:induction false} RunEpochGrows(limits: Limits, p: Page, events: seq<Event>)
    requires PageOk(p) && IsRun(limits, p, events)
    ensures After(limits, p, events).session.epoch >= p.session.epoch
    decreases |events|
  {
    if events != [] {
      var next := RunSplits(limits, p, events);
      EpochGrows(limits, p, events[0]);
      RunEpochGrows(limits, next, events[1..]);
    }
  }

  lemma NextUnderway(limits: Limits, p: Page, all: seq<Key>, start: nat, results: seq<Item>)
    requires Usable(limits) && p.session.calls == map[] && start <= |all|
    requires start < |all| ==> StartsChunk(limits, all, start)
    ensures Underway(limits, all, NextCheck(limits, p, all, start, results), results)
  {
  }

  lemma CheckUnderway(limits: Limits, all: seq<Key>, p: Page, e: Event, gathered: seq<Item>)
    requires Usable(limits) && PageOk(p) && Enabled(p, e) && Underway(limits, all, p, gathered) && Counts(p, e)
    ensures Underway(limits, all, Step(limits, p, e), gathered + e.answers)
  {
    var c := p.session.calls[e.id].call;
    NoneLeft(p.session, e.id);
    if e.cursor.None? {
      if c.end < |all| {
        NextStarts(limits, all, c.start);
      }
      NextUnderway(limits, p.(session := TakeRecovery(p.session, e.id)), all, c.end, gathered + e.answers);
    }
  }

  lemma ContextUnderway(limits: Limits, all: seq<Key>, p: Page, id: Id, context: Context, gathered: seq<Item>)
    requires Usable(limits) && PageOk(p) && id in p.session.calls && Underway(limits, all, p, gathered)
    requires !p.session.calls[id].call.Check?
    requires ContextArrives(limits, p, id, context).session.epoch == p.session.epoch
    ensures Underway(limits, all, ContextArrives(limits, p, id, context), gathered)
  {
    NoneLeft(p.session, id);
    assert p.session.calls[id].epoch == p.session.epoch ==> p.session.calls[id].call.PassiveContext?;
  }

  lemma FailureUnderway(limits: Limits, all: seq<Key>, p: Page, id: Id, code: Code, gathered: seq<Item>)
    requires Usable(limits) && PageOk(p) && id in p.session.calls
    ensures Underway(limits, all, RecoveryFails(p, id, code), gathered)
  {
    NoneLeft(p.session, id);
    RecoveryFailsForm(p, id, code);
  }

  lemma ResumeUnderway(limits: Limits, all: seq<Key>, p: Page, passive: bool, gathered: seq<Item>)
    requires Usable(limits) && PageOk(p) && Underway(limits, all, p, gathered)
    requires Resume(p, passive).session.epoch == p.session.epoch
    ensures Underway(limits, all, Resume(p, passive), gathered)
  {
  }

  lemma LateCheckUnderway(limits: Limits, all: seq<Key>, p: Page, e: Event, gathered: seq<Item>)
    requires Usable(limits) && PageOk(p) && Enabled(p, e) && e.GotCheck? && !Counts(p, e)
    ensures Underway(limits, all, Step(limits, p, e), gathered)
  {
    NoneLeft(p.session, e.id);
  }

  lemma SessionUnderway(limits: Limits, all: seq<Key>, p: Page, e: Event, q: Page, gathered: seq<Item>)
    requires Usable(limits) && PageOk(p) && Enabled(p, e) && Underway(limits, all, p, gathered)
    requires OfSession(e) && !Counts(p, e) && q == Step(limits, p, e) && q.session.epoch == p.session.epoch
    ensures Underway(limits, all, q, gathered)
  {
    match e
    case GotCheck(id, _, _) => LateCheckUnderway(limits, all, p, e, gathered);
    case GotContext(id, context) => ContextUnderway(limits, all, p, id, context, gathered);
    case RecoveryFailure(id, code) => FailureUnderway(limits, all, p, id, code, gathered);
    case OnResume(passive) => ResumeUnderway(limits, all, p, passive, gathered);
    case OnSettled =>
  }

  lemma SameSession(limits: Limits, all: seq<Key>, p: Page, q: Page, gathered: seq<Item>)
    requires Usable(limits) && Underway(limits, all, p, gathered) && q.session == p.session
    ensures Underway(limits, all, q, gathered)
  {
  }

  lemma StepUnderway(limits: Limits, all: seq<Key>, p: Page, e: Event, q: Page, gathered: seq<Item>)
    requires Usable(limits) && PageOk(p) && Enabled(p, e) && Underway(limits, all, p, gathered)
    requires q == Step(limits, p, e) && q.session.epoch == p.session.epoch
    ensures Underway(limits, all, q, gathered + Gain(p, e))
  {
    assert gathered + [] == gathered;
    if Counts(p, e) {
      CheckUnderway(limits, all, p, e, gathered);
    } else if OfSession(e) {
      SessionUnderway(limits, all, p, e, q, gathered);
    } else {
      OtherSession(limits, p, e);
      SameSession(limits, all, p, q, gathered);
    }
  }

  // ---------------------------------------------------------------- every run of the same epoch

  /** The first step of a run that stays in its epoch stays in it too. */
  lemma RunCollects(limits: Limits, p: Page, events: seq<Event>) returns (next: Page)
    requires PageOk(p) && IsRun(limits, p, events) && events != []
    requires After(limits, p, events).session.epoch == p.session.epoch
    ensures Enabled(p, events[0]) && next == Step(limits, p, events[0]) && PageOk(next)
    ensures IsRun(limits, next, events[1..]) && After(limits, p, events) == After(limits, next, events[1..])
    ensures Collected(limits, p, events) == Gain(p, events[0]) + Collected(limits, next, events[1..])
    ensures next.session.epoch == p.session.epoch
  {
    next := RunSplits(limits, p, events);
    EpochGrows(limits, p, events[0]);
    RunEpochGrows(limits, next, events[1..]);
  }

  /** A run that stays in its epoch: where it ends, and what it collects. */
  ghost predicate Leads(limits: Limits, p: Page, events: seq<Event>, last: Page, total: seq<Item>) {
    && PageOk(p) && IsRun(limits, p, events) && last == After(limits, p, events)
    && total == Collected(limits, p, events) && last.session.epoch == p.session.epoch
  }

  lemma FirstUnderway(
    limits: Limits, all: seq<Key>, p: Page, events: seq<Event>, last: Page, total: seq<Item>, gathered: seq<Item>)
    returns (next: Page, got: seq<Item>, rest: seq<Item>)
    requires Usable(limits) && Leads(limits, p, events, last, total) && Underway(limits, all, p, gathered)
    requires events != []
    ensures Leads(limits, next, events[1..], last, rest) && total == got + rest
    ensures Underway(limits, all, next, gathered + got)
  {
    next := RunCollects(limits, p, events);
    got, rest := Gain(p, events[0]), Collected(limits, next, events[1..]);
    StepUnderway(limits, all, p, events[0], next, gathered);
  }

  lemma LeadsNowhere(limits: Limits, p: Page, last: Page, total: seq<Item>)
    requires Leads(limits, p, [], last, total)
    ensures last == p && total == []
  {
  }

  lemma {:induction false} RunUnderway(
    limits: Limits, all: seq<Key>, p: Page, events: seq<Event>, last: Page, total: seq<Item>, gathered: seq<Item>)
    requires Usable(limits) && Leads(limits, p, events, last, total) && Underway(limits, all, p, gathered)
    ensures Underway(limits, all, last, gathered + total)
    decreases |events|
  {
    hide *;
    if events == [] {
      LeadsNowhere(limits, p, last, total);
      assert gathered + [] == gathered;
    } else {
      var next, got, rest := FirstUnderway(limits, all, p, events, last, total, gathered);
      RunUnderway(limits, all, next, events[1..], last, rest, gathered + got);
      assert (gathered + got) + rest == gathered + total;
    }
  }

  lemma AdoptUnderway(limits: Limits, p: Page, context: Context)
    requires Usable(limits) && MidRecovery(p)
    ensures var s, kept := AdoptContext(limits, p, context), Kept(p, context);
      && Underway(limits, Listing(kept), s, []) && s.selected == Reconcile(kept, [])
      && s.session.epoch == p.session.epoch && (SignedIn(s.session) <==> Listing(kept) == [])
  {
    var all := Listing(Kept(p, context));
    if all != [] {
      FirstChunk(limits, all);
    }
    var q := if SameEmployee(p.session.identity, context.identity) then p else Forget(p);
    var r := q.(session := q.session.(identity := context.identity, csrfToken := context.csrfToken),
                selected := Reconcile(q.selected, []));
    NextUnderway(limits, r, all, 0, []);
    if all == [] {
      SortKeysSorts(Kept(p, context).order);
      assert Kept(p, context).items == map[];
    }
  }

  /** How a check begins. */
  lemma AdoptedUnderway(limits: Limits, p: Page, id: Id, context: Context, s: Page)
    requires Usable(limits) && Adopted(limits, p, id, context, s)
    ensures PageOk(s) && Underway(limits, Listing(Kept(p, context)), s, [])
    ensures s.selected == Reconcile(Kept(p, context), [])
    ensures SignedIn(s.session) <==> Listing(Kept(p, context)) == []
  {
    ContextArrivesOk(limits, p, id, context);
    var q := p.(session := TakeRecovery(p.session, id));
    if p.session.calls[id].call.PassiveContext? {
      NoneLeft(p.session, id);
      PartsMoved(p.session, q.session, q);
      BeginParts(q);
      AdoptUnderway(limits, Begin(q), context);
    } else {
      MidOk(p, id);
      AdoptUnderway(limits, q, context);
    }
  }

  /** In every run of the epoch, the check in flight is for one chunk of the
      listing made at adoption, and has everything answered so far behind it. */
  lemma CheckInFlight(
    limits: Limits, p: Page, id: Id, context: Context, s: Page, events: seq<Event>, last: Page, total: seq<Item>)
    requires Usable(limits) && Adopted(limits, p, id, context, s) && Leads(limits, s, events, last, total)
    ensures Underway(limits, Listing(Kept(p, context)), last, total)
  {
    hide *;
    AdoptedUnderway(limits, p, id, context, s);
    RunUnderway(limits, Listing(Kept(p, context)), s, events, last, total, []);
    assert [] + total == total;
  }

  // ---------------------------------------------------------------- signing in

  /** A check in flight on `q` was in flight on `p`. */
  ghost predicate NoNewCheck(p: Page, q: Page) {
    forall i | i in q.session.calls && q.session.calls[i].call.Check? ::
      i in p.session.calls && q.session.calls[i] == p.session.calls[i]
  }

  lemma FailureSignedIn(p: Page, id: Id, code: Code)
    requires PageOk(p) && id in p.session.calls && RecoveryFails(p, id, code).session.epoch == p.session.epoch
    ensures SignedIn(RecoveryFails(p, id, code).session) == SignedIn(p.session)
    ensures RecoveryFails(p, id, code).selected == p.selected && NoNewCheck(p, RecoveryFails(p, id, code))
  {
    RecoveryFailsForm(p, id, code);
  }

  lemma ContextSignedIn(limits: Limits, p: Page, id: Id, context: Context)
    requires PageOk(p) && id in p.session.calls
    requires p.session.calls[id].epoch == p.session.epoch ==> p.session.calls[id].call.PassiveContext?
    requires ContextArrives(limits, p, id, context).session.epoch == p.session.epoch
    ensures SignedIn(ContextArrives(limits, p, id, context).session) == SignedIn(p.session)
    ensures ContextArrives(limits, p, id, context).selected == p.selected
    ensures NoNewCheck(p, ContextArrives(limits, p, id, context))
  {
    hide ForgetBoard, ForgetJobs, ForgetSubmission, Reconcile, Listing, QueuePolls, OutdateBoard, ClosePreview, Release,
      Held, StopTimers, StopSubmit, StopDownloads, IdleTasks, PartsOk;
  }

  lemma ResumeSignedIn(p: Page, passive: bool)
    requires PageOk(p) && Resume(p, passive).session.epoch == p.session.epoch
    ensures SignedIn(Resume(p, passive).session) == SignedIn(p.session) && Resume(p, passive).selected == p.selected
    ensures NoNewCheck(p, Resume(p, passive))
  {
  }

  lemma SessionSignedIn(limits: Limits, p: Page, e: Event, q: Page)
    requires PageOk(p) && Enabled(p, e) && OfSession(e) && !Counts(p, e)
    requires q == Step(limits, p, e) && q.session.epoch == p.session.epoch
    requires e.GotContext? && p.session.calls[e.id].epoch == p.session.epoch ==>
      p.session.calls[e.id].call.PassiveContext?
    ensures SignedIn(q.session) == SignedIn(p.session) && q.selected == p.selected && NoNewCheck(p, q)
  {
    match e
    case GotContext(id, context) => ContextSignedIn(limits, p, id, context);
    case RecoveryFailure(id, code) => FailureSignedIn(p, id, code);
    case OnResume(passive) => ResumeSignedIn(p, passive);
    case GotCheck(_, _, _) =>
    case OnSettled =>
  }

  /** Within an epoch only the check signs the page in, and nothing signs it out. */
  lemma StepSignedIn(limits: Limits, all: seq<Key>, p: Page, e: Event, q: Page, gathered: seq<Item>)
    requires Usable(limits) && PageOk(p) && Enabled(p, e) && Underway(limits, all, p, gathered)
    requires q == Step(limits, p, e) && q.session.epoch == p.session.epoch && !Counts(p, e)
    ensures SignedIn(q.session) == SignedIn(p.session) && NoNewCheck(p, q)
    ensures !Edits(e) && !(e.GotRows? && Wanted(p.session, p.board, e.id)) ==> q.selected == p.selected
  {
    if OfSession(e) {
      SessionSignedIn(limits, p, e, q);
    } else {
      OtherSession(limits, p, e);
    }
  }

  /** The last page of the last chunk signs in with the selection reconciled; any other leaves it. */
  lemma CheckSignsIn(limits: Limits, all: seq<Key>, p: Page, e: Event, gathered: seq<Item>)
    requires Usable(limits) && PageOk(p) && Enabled(p, e) && Underway(limits, all, p, gathered) && Counts(p, e)
    ensures !SignedIn(p.session)
    ensures var q, c := Step(limits, p, e), p.session.calls[e.id].call;
      if e.cursor.None? && c.end == |all|
      then SignedIn(q.session) && q.selected == Reconcile(p.selected, gathered + e.answers)
      else !SignedIn(q.session) && q.selected == p.selected
  {
  }

  // ---------------------------------------------------------------- what the server answers

  /** The chunk an answer is for. */
  function Asked(p: Page, e: Event): seq<Key>
    requires PageOk(p) && Enabled(p, e) && Counts(p, e)
  {
    var c := p.session.calls[e.id].call;
    c.all[c.start..c.end]
  }

  /** The pages of the chunk in flight that have come so far, after one more event. */
  function Opened(p: Page, e: Event, open: seq<Item>): seq<Item>
    requires Enabled(p, e)
  {
    if !Counts(p, e) then open else if e.cursor.Some? then open + e.answers else []
  }

  /** The answer, if it is the last page of its chunk, completes an answer to the chunk. */
  ghost predicate Completes(server: Key -> Option<Item>, p: Page, e: Event, open: seq<Item>)
    requires PageOk(p) && Enabled(p, e)
  {
    Counts(p, e) && e.cursor.None? ==> Answers(server, Asked(p, e), open + e.answers)
  }

  /** The server pages each chunk as it likes, in as many pages as it likes, and
      by its last page has said of every file of the chunk what it has. */
  ghost predicate Honest(server: Key -> Option<Item>, limits: Limits, p: Page, events: seq<Event>, open: seq<Item>)
    requires PageOk(p) && IsRun(limits, p, events)
    decreases |events|
  {
    events == [] ||
    (StepOk(limits, p, events[0]);
     && Completes(server, p, events[0], open)
     && Honest(server, limits, Step(limits, p, events[0]), events[1..], Opened(p, events[0], open)))
  }

  /** `done` answers what the check is through with: all of it once signed in. */
  ghost predicate Through(server: Key -> Option<Item>, all: seq<Key>, p: Page, done: seq<Item>) {
    && (forall i | i in p.session.calls && p.session.calls[i].epoch == p.session.epoch
                   && p.session.calls[i].call.Check? ::
          p.session.calls[i].call.start <= |all| && Answers(server, all[..p.session.calls[i].call.start], done))
    && (SignedIn(p.session) ==> Answers(server, all, done))
  }

  /** How far the answers go after one more event. */
  function Done(p: Page, e: Event, done: seq<Item>, open: seq<Item>): seq<Item>
    requires Enabled(p, e)
  {
    if Counts(p, e) && e.cursor.None? then done + (open + e.answers) else done
  }

  lemma DoneAndOpened(p: Page, e: Event, done: seq<Item>, open: seq<Item>)
    requires Enabled(p, e)
    ensures Done(p, e, done, open) + Opened(p, e, open) == (done + open) + Gain(p, e)
  {
  }

  /** A last page takes the answers to the end of its chunk. */
  lemma AnsweredTo(
    server: Key -> Option<Item>, limits: Limits, all: seq<Key>, p: Page, e: Event, done: seq<Item>, open: seq<Item>)
    requires Usable(limits) && PageOk(p) && Enabled(p, e) && Underway(limits, all, p, done + open) && Counts(p, e)
    requires Through(server, all, p, done) && Completes(server, p, e, open) && e.cursor.None?
    ensures var end := p.session.calls[e.id].call.end;
      end <= |all| && Answers(server, all[..end], Done(p, e, done, open))
  {
    hide PageOk, Answers, Step, ChunkEnd;
    var c := p.session.calls[e.id].call;
    AnswersAppend(server, all[..c.start], done, all[c.start..c.end], open + e.answers);
    assert all[..c.start] + all[c.start..c.end] == all[..c.end];
  }

  /** What an answer leaves in flight: the same chunk, or the next one. */
  lemma CheckMovesOn(limits: Limits, all: seq<Key>, p: Page, e: Event, gathered: seq<Item>)
    requires Usable(limits) && PageOk(p) && Enabled(p, e) && Underway(limits, all, p, gathered) && Counts(p, e)
    ensures var q, c := Step(limits, p, e), p.session.calls[e.id].call;
      && q.session.epoch == p.session.epoch
      && forall i | i in q.session.calls && q.session.calls[i].call.Check? ::
           q.session.calls[i].call.start == if e.cursor.Some? then c.start else c.end
  {
    NoneLeft(p.session, e.id);
  }

  lemma CheckThrough(
    server: Key -> Option<Item>, limits: Limits, all: seq<Key>, p: Page, e: Event, q: Page, done: seq<Item>,
    open: seq<Item>)
    requires Usable(limits) && PageOk(p) && Enabled(p, e) && Underway(limits, all, p, done + open) && Counts(p, e)
    requires Through(server, all, p, done) && Completes(server, p, e, open) && q == Step(limits, p, e)
    ensures Through(server, all, q, Done(p, e, done, open)) && (SignedIn(q.session) ==> Opened(p, e, open) == [])
  {
    CheckSignsIn(limits, all, p, e, done + open);
    CheckMovesOn(limits, all, p, e, done + open);
    if e.cursor.None? {
      AnsweredTo(server, limits, all, p, e, done, open);
      assert all[..|all|] == all;
    }
  }

  lemma StillThrough(
    server: Key -> Option<Item>, all: seq<Key>, p: Page, e: Event, q: Page, done: seq<Item>, open: seq<Item>)
    requires Enabled(p, e) && !Counts(p, e) && Through(server, all, p, done) && NoNewCheck(p, q)
    requires SignedIn(q.session) == SignedIn(p.session) && q.session.epoch == p.session.epoch
    requires SignedIn(p.session) ==> open == []
    ensures Through(server, all, q, Done(p, e, done, open)) && (SignedIn(q.session) ==> Opened(p, e, open) == [])
  {
  }

  lemma StepThrough(
    server: Key -> Option<Item>, limits: Limits, all: seq<Key>, p: Page, e: Event, q: Page, done: seq<Item>,
    open: seq<Item>)
    requires Usable(limits) && PageOk(p) && Enabled(p, e) && Underway(limits, all, p, done + open)
    requires Through(server, all, p, done) && Completes(server, p, e, open) && (SignedIn(p.session) ==> open == [])
    requires WellKept(p.selected) && q == Step(limits, p, e) && q.session.epoch == p.session.epoch
    ensures Through(server, all, q, Done(p, e, done, open)) && (SignedIn(q.session) ==> Opened(p, e, open) == [])
  {
    hide *;
    if Counts(p, e) {
      CheckThrough(server, limits, all, p, e, q, done, open);
    } else {
      StepSignedIn(limits, all, p, e, q, done + open);
      StillThrough(server, all, p, e, q, done, open);
    }
  }

  /** A run answered honestly, within its epoch. */
  ghost predicate HonestlyLeads(
    server: Key -> Option<Item>, limits: Limits, p: Page, events: seq<Event>, open: seq<Item>, last: Page,
    total: seq<Item>) {
    Leads(limits, p, events, last, total) && Honest(server, limits, p, events, open)
  }

  lemma HonestFirst(
    server: Key -> Option<Item>, limits: Limits, p: Page, events: seq<Event>, open: seq<Item>, last: Page,
    total: seq<Item>)
    returns (next: Page, rest: seq<Item>)
    requires HonestlyLeads(server, limits, p, events, open, last, total) && events != []
    ensures PageOk(p) && WellKept(p.selected) && Enabled(p, events[0]) && next == Step(limits, p, events[0])
    ensures next.session.epoch == p.session.epoch && Completes(server, p, events[0], open)
    ensures HonestlyLeads(server, limits, next, events[1..], Opened(p, events[0], open), last, rest)
    ensures total == Gain(p, events[0]) + rest
  {
    next := RunCollects(limits, p, events);
    rest := Collected(limits, next, events[1..]);
  }

  lemma FirstThrough(
    server: Key -> Option<Item>, limits: Limits, all: seq<Key>, p: Page, events: seq<Event>, last: Page,
    total: seq<Item>, done: seq<Item>, open: seq<Item>)
    returns (next: Page, more: seq<Item>, left: seq<Item>, rest: seq<Item>)
    requires Usable(limits) && HonestlyLeads(server, limits, p, events, open, last, total) && events != []
    requires Underway(limits, all, p, done + open) && Through(server, all, p, done)
    requires SignedIn(p.session) ==> open == []
    ensures HonestlyLeads(server, limits, next, events[1..], left, last, rest)
    ensures Underway(limits, all, next, more + left) && Through(server, all, next, more)
    ensures SignedIn(next.session) ==> left == []
    ensures (more + left) + rest == (done + open) + total
  {
    hide *;
    next, rest := HonestFirst(server, limits, p, events, open, last, total);
    var e := events[0];
    more, left := Done(p, e, done, open), Opened(p, e, open);
    DoneAndOpened(p, e, done, open);
    StepUnderway(limits, all, p, e, next, done + open);
    StepThrough(server, limits, all, p, e, next, done, open);
    assert ((done + open) + Gain(p, e)) + rest == (done + open) + total;
  }

  lemma NowThrough(
    server: Key -> Option<Item>, limits: Limits, all: seq<Key>, p: Page, last: Page, total: seq<Item>, done: seq<Item>,
    open: seq<Item>)
    requires HonestlyLeads(server, limits, p, [], open, last, total) && Through(server, all, p, done)
    requires SignedIn(p.session) ==> open == []
    requires SignedIn(last.session)
    ensures Answers(server, all, (done + open) + total)
  {
    LeadsNowhere(limits, p, last, total);
    assert (done + []) + [] == done;
  }

  /** Once an honestly answered run has signed in, what it collected answers the whole listing. */
  lemma {:induction false} RunThrough(
    server: Key -> Option<Item>, limits: Limits, all: seq<Key>, p: Page, events: seq<Event>, last: Page,
    total: seq<Item>, done: seq<Item>, open: seq<Item>)
    requires Usable(limits) && HonestlyLeads(server, limits, p, events, open, last, total)
    requires Underway(limits, all, p, done + open) && Through(server, all, p, done)
    requires SignedIn(p.session) ==> open == []
    requires SignedIn(last.session)
    ensures Answers(server, all, (done + open) + total)
    decreases |events|
  {
    hide *;
    if events == [] {
      NowThrough(server, limits, all, p, last, total, done, open);
    } else {
      var next, more, left, rest := FirstThrough(server, limits, all, p, events, last, total, done, open);
      RunThrough(server, limits, all, next, events[1..], last, rest, more, left);
    }
  }

  // ---------------------------------------------------------------- the selection at the end

  /** The answers of the check begin with none, which answer nothing of the listing or an empty one. */
  lemma BeginsThrough(server: Key -> Option<Item>, limits: Limits, p: Page, id: Id, context: Context, s: Page)
    requires Usable(limits) && Adopted(limits, p, id, context, s)
    requires Underway(limits, Listing(Kept(p, context)), s, [])
    requires SignedIn(s.session) <==> Listing(Kept(p, context)) == []
    ensures Through(server, Listing(Kept(p, context)), s, [])
  {
    FirstStarts(limits, p, id, context, s);
  }

  lemma FirstStarts(limits: Limits, p: Page, id: Id, context: Context, s: Page)
    requires Adopted(limits, p, id, context, s)
    ensures forall i | i in s.session.calls && s.session.calls[i].call.Check? :: s.session.calls[i].call.start == 0
  {
    NoneLeft(p.session, id);
  }

  /** A recovery that was answered honestly has, once signed in, an answer to its whole listing. */
  lemma ListingAnswered(
    server: Key -> Option<Item>, limits: Limits, p: Page, id: Id, context: Context, s: Page, events: seq<Event>,
    last: Page, total: seq<Item>)
    requires Usable(limits) && Adopted(limits, p, id, context, s)
    requires HonestlyLeads(server, limits, s, events, [], last, total)
    requires SignedIn(last.session)
    ensures Answers(server, Listing(Kept(p, context)), total)
  {
    hide *;
    AdoptedUnderway(limits, p, id, context, s);
    BeginsThrough(server, limits, p, id, context, s);
    assert [] + [] + total == total;
    RunThrough(server, limits, Listing(Kept(p, context)), s, events, last, total, [], []);
  }

  /** Nobody edits the selection, and no query's rows are taken over (as they can be once signed in). */
  ghost predicate Undisturbed(limits: Limits, p: Page, events: seq<Event>)
    requires PageOk(p) && IsRun(limits, p, events)
    decreases |events|
  {
    events == [] ||
    (StepOk(limits, p, events[0]);
     && !Edits(events[0]) && !(events[0].GotRows? && Wanted(p.session, p.board, events[0].id))
     && Undisturbed(limits, Step(limits, p, events[0]), events[1..]))
  }

  /** Before signing in every file is unverified, afterwards it has what was collected for it. */
  predicate Labelled(kept: Selected, p: Page, gathered: seq<Item>) {
    p.selected == Reconcile(kept, if SignedIn(p.session) then gathered else [])
  }

  lemma ReconcileTwice(s: Selected, answers: seq<Item>)
    ensures Reconcile(Reconcile(s, []), answers) == Reconcile(s, answers)
  {
  }

  lemma StepLabelled(limits: Limits, all: seq<Key>, kept: Selected, p: Page, e: Event, q: Page, gathered: seq<Item>)
    requires Usable(limits) && PageOk(p) && Enabled(p, e) && Underway(limits, all, p, gathered)
    requires Labelled(kept, p, gathered)
    requires q == Step(limits, p, e) && q.session.epoch == p.session.epoch
    requires !Edits(e) && !(e.GotRows? && Wanted(p.session, p.board, e.id))
    ensures Labelled(kept, q, gathered + Gain(p, e))
  {
    if Counts(p, e) {
      CheckSignsIn(limits, all, p, e, gathered);
      ReconcileTwice(kept, gathered + e.answers);
    } else {
      assert gathered + [] == gathered;
      StepSignedIn(limits, all, p, e, q, gathered);
    }
  }

  ghost predicate QuietlyLeads(limits: Limits, p: Page, events: seq<Event>, last: Page, total: seq<Item>) {
    Leads(limits, p, events, last, total) && Undisturbed(limits, p, events)
  }

  lemma QuietFirst(limits: Limits, p: Page, events: seq<Event>, last: Page, total: seq<Item>)
    returns (next: Page, rest: seq<Item>)
    requires QuietlyLeads(limits, p, events, last, total) && events != []
    ensures PageOk(p) && WellKept(p.selected) && Enabled(p, events[0]) && next == Step(limits, p, events[0])
    ensures next.session.epoch == p.session.epoch && !Edits(events[0])
    ensures !(events[0].GotRows? && Wanted(p.session, p.board, events[0].id))
    ensures QuietlyLeads(limits, next, events[1..], last, rest) && total == Gain(p, events[0]) + rest
  {
    next := RunCollects(limits, p, events);
    rest := Collected(limits, next, events[1..]);
  }

  lemma NowLabelled(limits: Limits, kept: Selected, p: Page, last: Page, total: seq<Item>, gathered: seq<Item>)
    requires QuietlyLeads(limits, p, [], last, total) && Labelled(kept, p, gathered)
    ensures Labelled(kept, last, gathered + total)
  {
    LeadsNowhere(limits, p, last, total);
    assert gathered + [] == gathered;
  }

  lemma {:induction false} RunLabelled(
    limits: Limits, all: seq<Key>, kept: Selected, p: Page, events: seq<Event>, last: Page, total: seq<Item>,
    gathered: seq<Item>)
    requires Usable(limits) && QuietlyLeads(limits, p, events, last, total)
    requires Underway(limits, all, p, gathered) && Labelled(kept, p, gathered)
    ensures Labelled(kept, last, gathered + total)
    decreases |events|
  {
    hide *;
    if events == [] {
      NowLabelled(limits, kept, p, last, total, gathered);
    } else {
      var next, rest := QuietFirst(limits, p, events, last, total);
      var got := Gain(p, events[0]);
      StepUnderway(limits, all, p, events[0], next, gathered);
      StepLabelled(limits, all, kept, p, events[0], next, gathered);
      RunLabelled(limits, all, kept, next, events[1..], last, rest, gathered + got);
      assert (gathered + got) + rest == gathered + total;
    }
  }

  lemma AdoptedLabelled(limits: Limits, p: Page, id: Id, context: Context, s: Page)
    requires Usable(limits) && Adopted(limits, p, id, context, s)
    ensures Underway(limits, Listing(Kept(p, context)), s, []) && Labelled(Kept(p, context), s, [])
  {
    AdoptedUnderway(limits, p, id, context, s);
  }

  /** Without any word on what the server answers: a recovery that signs in leaves each
      selected file with the last answer collected for it, or unverified without size. */
  lemma RecoveryReconciles(
    limits: Limits, p: Page, id: Id, context: Context, s: Page, events: seq<Event>, last: Page, total: seq<Item>)
    requires Usable(limits) && Adopted(limits, p, id, context, s) && QuietlyLeads(limits, s, events, last, total)
    ensures Labelled(Kept(p, context), last, total)
  {
    hide *;
    AdoptedLabelled(limits, p, id, context, s);
    RunLabelled(limits, Listing(Kept(p, context)), Kept(p, context), s, events, last, total, []);
    assert [] + total == total;
  }

  lemma KeptWell(limits: Limits, p: Page, id: Id, context: Context, s: Page)
    requires Adopted(limits, p, id, context, s)
    ensures WellKept(Kept(p, context))
  {
  }

  lemma LabelledServed(server: Key -> Option<Item>, kept: Selected, last: Page, total: seq<Item>)
    requires WellKept(kept) && forall k :: server(k).Some? ==> server(k).value.key == k
    requires SignedIn(last.session) && Labelled(kept, last, total) && Answers(server, Listing(kept), total)
    ensures last.selected.order == kept.order
    ensures last.selected.items == map k | k in kept.items :: Served(server, k)
  {
    SortKeysSorts(kept.order);
    AnswersReconcile(server, Listing(kept), kept, total);
  }

  /** The recovery refines one check without limits. Take any run of the epoch from the
      page on which the check begins, with any other events in between and each chunk
      answered in any number of pages: once signed in, the selection holds the same
      files, each as the server has it, or unverified without size if it has none. */
  lemma RecoveryIsOneCheck(
    server: Key -> Option<Item>, limits: Limits, p: Page, id: Id, context: Context, s: Page, events: seq<Event>,
    last: Page, total: seq<Item>)
    requires Usable(limits) && forall k :: server(k).Some? ==> server(k).value.key == k
    requires Adopted(limits, p, id, context, s)
    requires HonestlyLeads(server, limits, s, events, [], last, total) && QuietlyLeads(limits, s, events, last, total)
    requires SignedIn(last.session)
    ensures last.selected.order == Kept(p, context).order
    ensures last.selected.items == map k | k in Kept(p, context).items :: Served(server, k)
  {
    hide *;
    RecoveryReconciles(limits, p, id, context, s, events, last, total);
    ListingAnswered(server, limits, p, id, context, s, events, last, total);
    KeptWell(limits, p, id, context, s);
    LabelledServed(server, Kept(p, context), last, total);
  }

  // ---------------------------------------------------------------- edits meanwhile

  lemma LeadsFirst(limits: Limits, p: Page, events: seq<Event>, last: Page, total: seq<Item>)
    returns (next: Page, rest: seq<Item>)
    requires Leads(limits, p, events, last, total) && events != []
    ensures PageOk(p) && WellKept(p.selected) && Enabled(p, events[0]) && next == Step(limits, p, events[0])
    ensures Leads(limits, next, events[1..], last, rest) && total == Gain(p, events[0]) + rest
    ensures next.session.epoch == p.session.epoch
  {
    next := RunCollects(limits, p, events);
    rest := Collected(limits, next, events[1..]);
  }

  lemma LeadsOne(limits: Limits, p: Page, e: Event, last: Page, total: seq<Item>)
    requires Leads(limits, p, [e], last, total)
    ensures PageOk(p) && WellKept(p.selected) && Enabled(p, e) && last == Step(limits, p, e) && total == Gain(p, e)
    ensures last.session.epoch == p.session.epoch
  {
    var next, rest := LeadsFirst(limits, p, [e], last, total);
    assert [e][1..] == [];
    LeadsNowhere(limits, next, last, rest);
  }

  /** The last event of a run. */
  lemma {:induction false} LeadsMore(
    limits: Limits, p: Page, events: seq<Event>, e: Event, mid: Page, before: seq<Item>, last: Page, total: seq<Item>)
    requires Leads(limits, p, events, mid, before) && Leads(limits, p, events + [e], last, total)
    ensures PageOk(mid) && WellKept(mid.selected) && Enabled(mid, e) && last == Step(limits, mid, e)
    ensures total == before + Gain(mid, e) && last.session.epoch == mid.session.epoch
    decreases |events|
  {
    hide *;
    if events == [] {
      LeadsNowhere(limits, p, mid, before);
      assert [] + [e] == [e];
      LeadsOne(limits, p, e, last, total);
      assert total == [] + Gain(p, e);
    } else {
      OneMore(events, e);
      var next, rest := LeadsFirst(limits, p, events, mid, before);
      var same, more := LeadsFirst(limits, p, events + [e], last, total);
      LeadsMore(limits, next, events[1..], e, mid, rest, last, more);
      assert total == (Gain(p, events[0]) + rest) + Gain(mid, e);
    }
  }

  /** An event that signs in is the last page of the check. */
  lemma SignInReconciles(limits: Limits, all: seq<Key>, mid: Page, before: seq<Item>, e: Event, last: Page)
    requires Usable(limits) && PageOk(mid) && Enabled(mid, e) && Underway(limits, all, mid, before)
    requires last == Step(limits, mid, e) && last.session.epoch == mid.session.epoch
    requires !SignedIn(mid.session) && SignedIn(last.session)
    ensures last.selected == Reconcile(mid.selected, before + Gain(mid, e))
  {
    if Counts(mid, e) {
      CheckSignsIn(limits, all, mid, e, before);
    } else {
      StepSignedIn(limits, all, mid, e, last, before);
    }
  }

  lemma LeadsHonestly(
    server: Key -> Option<Item>, limits: Limits, p: Page, events: seq<Event>, open: seq<Item>, last: Page,
    total: seq<Item>)
    requires HonestlyLeads(server, limits, p, events, open, last, total)
    ensures Leads(limits, p, events, last, total)
  {
  }

  /** What a check of the listing `all` makes of a selection. */
  ghost predicate Checked(server: Key -> Option<Item>, all: seq<Key>, s: Selected, t: Selected) {
    && t.order == s.order && t.items.Keys == s.items.Keys
    && forall k | k in s.items :: t.items[k] == if k in all then Served(server, k) else Item(k, Unverified, None)
  }

  lemma ReconcileChecks(server: Key -> Option<Item>, all: seq<Key>, s: Selected, results: seq<Item>)
    requires WellKept(s) && Answers(server, all, results)
    requires forall k :: server(k).Some? ==> server(k).value.key == k
    ensures Checked(server, all, s, Reconcile(s, results))
  {
    AnswersReconcile(server, all, s, results);
  }

  /** Even if files are dropped or chosen while the check is under way: the answer that
      signs in neither drops nor adds one. A file of the listing made at adoption is as
      the server has it, a file chosen since is unverified without size. */
  lemma CheckEnds(
    server: Key -> Option<Item>, limits: Limits, p: Page, id: Id, context: Context, s: Page, events: seq<Event>,
    e: Event, mid: Page, before: seq<Item>, last: Page, total: seq<Item>)
    requires Usable(limits) && forall k :: server(k).Some? ==> server(k).value.key == k
    requires Adopted(limits, p, id, context, s) && Leads(limits, s, events, mid, before)
    requires HonestlyLeads(server, limits, s, events + [e], [], last, total)
    requires !SignedIn(mid.session) && SignedIn(last.session)
    ensures Checked(server, Listing(Kept(p, context)), mid.selected, last.selected)
  {
    hide *;
    LeadsHonestly(server, limits, s, events + [e], [], last, total);
    LeadsMore(limits, s, events, e, mid, before, last, total);
    CheckInFlight(limits, p, id, context, s, events, mid, before);
    SignInReconciles(limits, Listing(Kept(p, context)), mid, before, e, last);
    ListingAnswered(server, limits, p, id, context, s, events + [e], last, total);
    ReconcileChecks(server, Listing(Kept(p, context)), mid.selected, total);
  }

  // ---------------------------------------------------------------- such runs exist

  /** One page that says of every file of a chunk what the server has. */
  function PageFor(server: Key -> Option<Item>, chunk: seq<Key>): (page: seq<Item>)
    ensures forall x :: x in page <==> exists k | k in chunk :: server(k) == Some(x)
  {
    if chunk == [] then []
    else (if server(chunk[0]).Some? then [server(chunk[0]).value] else []) + PageFor(server, chunk[1..])
  }

  lemma PageAnswers(server: Key -> Option<Item>, chunk: seq<Key>)
    requires forall k :: server(k).Some? ==> server(k).value.key == k
    ensures Answers(server, chunk, [] + PageFor(server, chunk))
  {
    var page := PageFor(server, chunk);
    assert [] + page == page;
    forall i | 0 <= i < |page|
      ensures page[i].key in chunk && server(page[i].key) == Some(page[i])
    {
      assert page[i] in page;
    }
  }

  /** An honest, undisturbed run that ends signed in. */
  ghost predicate Recovers(
    server: Key -> Option<Item>, limits: Limits, p: Page, events: seq<Event>, last: Page, total: seq<Item>) {
    && HonestlyLeads(server, limits, p, events, [], last, total) && QuietlyLeads(limits, p, events, last, total)
    && SignedIn(last.session)
  }

  lemma RecoversHere(server: Key -> Option<Item>, limits: Limits, p: Page)
    requires PageOk(p) && SignedIn(p.session)
    ensures Recovers(server, limits, p, [], p, [])
  {
    NoRun(limits, p);
  }

  lemma LeadsLater(limits: Limits, p: Page, events: seq<Event>, next: Page, last: Page, total: seq<Item>)
    requires events != [] && PageOk(p) && Enabled(p, events[0]) && next == Step(limits, p, events[0])
    requires Leads(limits, next, events[1..], last, total) && next.session.epoch == p.session.epoch
    ensures Leads(limits, p, events, last, Gain(p, events[0]) + total)
  {
    RunPrepends(limits, p, events, next);
  }

  lemma HonestLater(
    server: Key -> Option<Item>, limits: Limits, p: Page, events: seq<Event>, next: Page, open: seq<Item>)
    requires events != [] && PageOk(p) && IsRun(limits, p, events) && next == Step(limits, p, events[0]) && PageOk(next)
    requires Completes(server, p, events[0], open)
    requires IsRun(limits, next, events[1..]) && Honest(server, limits, next, events[1..], Opened(p, events[0], open))
    ensures Honest(server, limits, p, events, open)
  {
  }

  lemma QuietLater(limits: Limits, p: Page, events: seq<Event>, next: Page)
    requires events != [] && PageOk(p) && IsRun(limits, p, events) && next == Step(limits, p, events[0]) && PageOk(next)
    requires events[0].GotCheck? && IsRun(limits, next, events[1..]) && Undisturbed(limits, next, events[1..])
    ensures Undisturbed(limits, p, events)
  {
  }

  lemma RecoversLater(
    server: Key -> Option<Item>, limits: Limits, p: Page, e: Event, next: Page, rest: seq<Event>, last: Page,
    total: seq<Item>)
    requires PageOk(p) && Enabled(p, e) && next == Step(limits, p, e) && next.session.epoch == p.session.epoch
    requires Counts(p, e) && e.cursor.None? && Answers(server, Asked(p, e), [] + e.answers)
    requires Recovers(server, limits, next, rest, last, total)
    ensures Recovers(server, limits, p, [e] + rest, last, e.answers + total)
  {
    hide PageOk, Step, Answers, Enabled, IsRun, After, Honest, Undisturbed;
    var events := [e] + rest;
    assert events[0] == e && events[1..] == rest;
    LeadsLater(limits, p, events, next, last, total);
    HonestLater(server, limits, p, events, next, []);
    QuietLater(limits, p, events, next);
  }

  /** The check in flight can be answered. */
  lemma NextAnswer(server: Key -> Option<Item>, limits: Limits, all: seq<Key>, p: Page, i: Id, gathered: seq<Item>)
    returns (e: Event, q: Page)
    requires Usable(limits) && PageOk(p) && Underway(limits, all, p, gathered) && i in p.session.calls
    requires p.session.calls[i].epoch == p.session.epoch && p.session.calls[i].call.Check?
    requires forall k :: server(k).Some? ==> server(k).value.key == k
    ensures Enabled(p, e) && Counts(p, e) && e.cursor.None? && Answers(server, Asked(p, e), [] + e.answers)
    ensures q == Step(limits, p, e) && PageOk(q) && q.session.epoch == p.session.epoch
    ensures Underway(limits, all, q, gathered + e.answers)
    ensures var c := p.session.calls[i].call;
      if c.end == |all| then SignedIn(q.session)
      else p.session.next in q.session.calls && q.session.calls[p.session.next].call.Check?
           && q.session.calls[p.session.next].epoch == q.session.epoch
           && c.start < q.session.calls[p.session.next].call.start <= |all|
  {
    var c := p.session.calls[i].call;
    e := GotCheck(i, PageFor(server, c.all[c.start..c.end]), None);
    PageAnswers(server, c.all[c.start..c.end]);
    StepOk(limits, p, e);
    q := Step(limits, p, e);
    CheckUnderway(limits, all, p, e, gathered);
    CheckSignsIn(limits, all, p, e, gathered);
    ChunkStart(limits, all, c.start);
  }

  lemma {:induction false} Finishes(
    server: Key -> Option<Item>, limits: Limits, all: seq<Key>, p: Page, i: Id, gathered: seq<Item>)
    returns (events: seq<Event>, last: Page, total: seq<Item>)
    requires Usable(limits) && PageOk(p) && Underway(limits, all, p, gathered) && i in p.session.calls
    requires p.session.calls[i].epoch == p.session.epoch && p.session.calls[i].call.Check?
    requires p.session.calls[i].call.start <= |all|
    requires forall k :: server(k).Some? ==> server(k).value.key == k
    ensures Recovers(server, limits, p, events, last, total)
    decreases |all| - p.session.calls[i].call.start
  {
    hide *;
    var e, q := NextAnswer(server, limits, all, p, i, gathered);
    if p.session.calls[i].call.end == |all| {
      RecoversHere(server, limits, q);
      events, last, total := [], q, [];
    } else {
      events, last, total := Finishes(server, limits, all, q, p.session.next, gathered + e.answers);
    }
    RecoversLater(server, limits, p, e, q, events, last, total);
    events, total := [e] + events, e.answers + total;
  }

  lemma CheckWaits(limits: Limits, p: Page, id: Id, context: Context, s: Page) returns (i: Id)
    requires Usable(limits) && Adopted(limits, p, id, context, s) && !SignedIn(s.session)
    ensures i in s.session.calls && s.session.calls[i].epoch == s.session.epoch && s.session.calls[i].call.Check?
    ensures s.session.calls[i].call.start == 0
  {
    AdoptedUnderway(limits, p, id, context, s);
    NoneLeft(p.session, id);
    i := p.session.next;
  }

  /** Whatever the server has, the check can be answered to its end: what is said of such runs is not said of
      nothing. */
  lemma RecoveryCanFinish(server: Key -> Option<Item>, limits: Limits, p: Page, id: Id, context: Context, s: Page)
    returns (events: seq<Event>, last: Page, total: seq<Item>)
    requires Usable(limits) && Adopted(limits, p, id, context, s)
    requires forall k :: server(k).Some? ==> server(k).value.key == k
    ensures Recovers(server, limits, s, events, last, total)
  {
    hide *;
    AdoptedUnderway(limits, p, id, context, s);
    if SignedIn(s.session) {
      RecoversHere(server, limits, s);
      events, last, total := [], s, [];
    } else {
      var i := CheckWaits(limits, p, id, context, s);
      events, last, total := Finishes(server, limits, Listing(Kept(p, context)), s, i, []);
    }
  }
}
