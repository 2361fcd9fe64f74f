/**
 What each event does to the ledger download page, field by field, as the user
 and the server see it.
 */
module LedgerEffects {
  import opened Options
  import opened Json
  import opened LedgerModel
  import opened LedgerSession
  import opened LedgerBoard
  import opened LedgerViewer
  import opened LedgerJobs
  import opened LedgerSubmission
  import opened LedgerPage
  import opened LedgerSafety
  import opened LedgerChoices

  /** The page starts signed out, with nothing known, shown, selected or under way. */
  lemma StartMeans()
    ensures START.session == Session(0, None, None, false, false, None, NoRecovery, map[], 0)
    ensures START.board.rows == [] && START.board.stores == {} && START.board.scope.None? && START.board.batch == 0
    ensures START.board.cursors == map[0 := None] && START.board.nextCursor.None? && START.board.queryError.None?
    ensures !START.board.querying && START.viewer.preview.None? && START.downloads.busy == {}
    ensures START.downloads.notices == map[] && START.jobs.tasks == map[] && START.jobs.live == map[]
    ensures START.jobs.active.None? && START.submission.attempt.None? && !START.submission.submitting
    ensures START.submission.submitError.None? && START.selected == Selected([], map[])
  {
  }

  /** What the invariant of the page says of its parts. */
  lemma PageParts(p: Page)
    requires PageOk(p)
    ensures WellKept(p.selected) && SessionOk(p.session) && BoardOk(p.session, p.board)
    ensures ViewerOk(p.session, p.viewer) && TimersMatch(p.jobs) && TimersDue(p.jobs) && TasksListed(p.jobs)
    ensures p.jobs.timers != map[] ==> SignedIn(p.session)
  {
  }

  // ---------------------------------------------------------------- the table

  /** A query is asked only while signed in. It shows the board as querying, gives up the
      last error, asks for the page the cursors know, and changes nothing that is shown. */
  lemma QueryAsks(limits: Limits, p: Page, scope: Option<Text>, batch: nat)
    requires PageOk(p)
    ensures var q := Step(limits, p, OnQuery(scope, batch));
      if !p.session.authenticated || p.session.recovering then q == p
      else
        && q == p.(board := q.board)
        && q.board == p.board.(version := q.board.version, querying := true, queryError := None,
                               calls := q.board.calls, next := p.board.next + 1)
        && q.board.version > p.board.version
        && q.board.calls == p.board.calls[p.board.next := Request(p.session.epoch, p.session.identity,
             QueryCall(q.board.version, scope, batch,
                       if batch > 0 && batch in p.board.cursors then p.board.cursors[batch] else None))]
  {
    hide PageOk;
  }

  /** The answer to the newest query of this epoch is what the table shows: its rows, what was
      asked, and where its next page begins. The stores seen grow by those of the rows. */
  lemma RowsAreShown(limits: Limits, p: Page, id: Id, rows: seq<Item>, cursor: Option<Cursor>)
    requires PageOk(p) && id in p.board.calls && p.board.calls[id].epoch == p.session.epoch
    requires p.board.calls[id].call.version == p.board.version
    ensures var q, c := Step(limits, p, GotRows(id, rows, cursor)), p.board.calls[id].call;
      && q == p.(board := q.board, selected := q.selected)
      && q.board.rows == rows && q.board.scope == c.scope && q.board.batch == c.batch && q.board.nextCursor == cursor
      && (forall n: nat :: n in q.board.cursors <==>
            n == c.batch + 1 || if c.batch == 0 then n == 0 else n in p.board.cursors)
      && q.board.cursors[c.batch + 1] == cursor
      && (forall n | n in q.board.cursors && n != c.batch + 1 ::
            q.board.cursors[n] == if c.batch == 0 then None else p.board.cursors[n])
      && (forall name :: name in q.board.stores <==>
            name in p.board.stores || exists i | 0 <= i < |rows| :: rows[i].key.storeName == name)
      && !q.board.querying && q.board.queryError == p.board.queryError
      && q.board.version == p.board.version && q.board.next == p.board.next && q.board.calls == p.board.calls - {id}
  {
    hide PageOk;
  }

  /** Selected files take over their last row among those that came; the selection is otherwise as it was. */
  lemma RowsRenewSelection(
    limits: Limits, p: Page, id: Id, rows: seq<Item>, cursor: Option<Cursor>, i: nat, k: Key)
    requires PageOk(p) && id in p.board.calls && p.board.calls[id].epoch == p.session.epoch
    requires p.board.calls[id].call.version == p.board.version
    ensures var t := Step(limits, p, GotRows(id, rows, cursor)).selected;
      && t.order == p.selected.order && t.items.Keys == p.selected.items.Keys
      && (i < |rows| && rows[i].key in p.selected.items && (forall j | i < j < |rows| :: rows[j].key != rows[i].key) ==>
            t.items[rows[i].key] == rows[i])
      && (k in p.selected.items && (forall j | 0 <= j < |rows| :: rows[j].key != k) ==>
            t.items[k] == p.selected.items[k])
  {
    PageParts(p);
    RowsStep(limits, p, id, rows, cursor);
    hide PageOk, Step, Refresh, WellKept, BoardOk, ViewerOk, TimersMatch, TimersDue, TasksListed, SessionOk;
    RefreshKept(p.selected, rows);
    if i < |rows| && rows[i].key in p.selected.items && (forall j | i < j < |rows| :: rows[j].key != rows[i].key) {
      RefreshMeans(p.selected, rows, i);
    }
    if forall j | 0 <= j < |rows| :: rows[j].key != k {
      RefreshNothing(p.selected, rows, k);
    }
  }

  lemma RowsStep(limits: Limits, p: Page, id: Id, rows: seq<Item>, cursor: Option<Cursor>)
    requires PageOk(p) && id in p.board.calls && p.board.calls[id].epoch == p.session.epoch
    requires p.board.calls[id].call.version == p.board.version
    ensures Step(limits, p, GotRows(id, rows, cursor)).selected == Refresh(p.selected, rows)
  {
    hide PageOk, Refresh, QueryArrives;
  }

  /** The answer or failure of a query that is not the newest of this epoch leaves the table alone. */
  lemma OldQueryEnds(limits: Limits, p: Page, id: Id, rows: seq<Item>, cursor: Option<Cursor>)
    requires PageOk(p) && id in p.board.calls
    requires p.board.calls[id].epoch != p.session.epoch || p.board.calls[id].call.version != p.board.version
    ensures Step(limits, p, GotRows(id, rows, cursor)) == p.(board := p.board.(calls := p.board.calls - {id}))
  {
    assert BoardOk(p.session, p.board);
    hide PageOk;
  }

  // ---------------------------------------------------------------- the end of a session

  /** What a new epoch does to everything but the session: no query, submit or download is shown
      in progress, no timer runs, and the preview is closed and its URL released. */
  ghost predicate Interrupted(p: Page, q: Page) {
    && q.board == p.board.(version := q.board.version, querying := false) && q.board.version > p.board.version
    && q.viewer == p.viewer.(version := q.viewer.version, preview := None) && q.viewer.version > p.viewer.version
    && q.urls.returned == p.urls.returned && q.urls.saved == p.urls.saved
    && q.urls.released == p.urls.released
         + (if p.viewer.preview.Some? && p.viewer.preview.value.url.Some?
            then multiset{p.viewer.preview.value.url.value} else multiset{})
    && q.downloads == p.downloads.(busy := {}) && q.submission == p.submission.(submitting := false)
    && q.jobs == p.jobs.(tasks := q.jobs.tasks, timers := map[], live := map[])
    && q.selected == p.selected
  }

  /** An expiry: nobody is signed in, the token is gone and the page asks for a sign-in. The
      employee, the rows, the selection, the tasks and the attempt are kept for the return. */
  ghost predicate Expired(p: Page, q: Page) {
    && Interrupted(p, q) && q.jobs.tasks == p.jobs.tasks
    && q.session == p.session.(epoch := p.session.epoch + 1, authenticated := false, csrfToken := None,
                               error := Some(SignInRequired))
  }

  lemma ExpireMeans(p: Page)
    requires TimersMatch(p.jobs)
    ensures Expired(p, Expire(p))
  {
    StopTimersClears(p.jobs);
  }

  lemma ExpiryMeans(limits: Limits, p: Page)
    requires PageOk(p)
    ensures Expired(p, Step(limits, p, OnExpire))
  {
    ExpireMeans(p);
  }

  lemma IdleMeans(j: Jobs)
    requires TimersMatch(j)
    ensures var k := IdleTasks(StopTimers(j));
      && k == j.(tasks := k.tasks, timers := map[], live := map[]) && k.tasks.Keys == j.tasks.Keys
      && forall t | t in j.tasks :: k.tasks[t] == j.tasks[t].(waiting := false, linking := false)
  {
    StopTimersClears(j);
  }

  lemma BeginMeans(p: Page)
    requires TimersMatch(p.jobs)
    ensures var q := Begin(p);
      && Interrupted(p, q) && q.jobs.tasks.Keys == p.jobs.tasks.Keys
      && (forall t | t in p.jobs.tasks :: q.jobs.tasks[t] == p.jobs.tasks[t].(waiting := false, linking := false))
      && q.session == p.session.(epoch := p.session.epoch + 1, authenticated := false, recovering := true,
                                 error := None)
  {
    IdleMeans(p.jobs);
    hide TimersMatch, IdleTasks, StopTimers;
  }

  /** A resume while one is under way does nothing. A passive one while signed in only asks who is
      signed in. Any other starts a new epoch with nothing in progress and asks for the context. */
  lemma ResumeMeans(limits: Limits, p: Page, passive: bool)
    requires PageOk(p)
    ensures var q, asked := Step(limits, p, OnResume(passive)), p.session.next;
      if p.session.recovery != NoRecovery then q == p
      else if passive && p.session.authenticated then
        q == p.(session := p.session.(recovery := InRecovery, next := asked + 1,
                  calls := map[asked := Request(p.session.epoch, p.session.identity, PassiveContext)]))
      else
        && Interrupted(p, q) && q.jobs.tasks.Keys == p.jobs.tasks.Keys
        && (forall t | t in p.jobs.tasks :: q.jobs.tasks[t] == p.jobs.tasks[t].(waiting := false, linking := false))
        && q.session == Session(p.session.epoch + 1, p.session.identity, p.session.csrfToken, false, true, None,
             InRecovery, map[asked := Request(p.session.epoch + 1, p.session.identity, FullContext)], asked + 1)
  {
    hide PageOk, Begin, TimersMatch, TimersDue, TasksListed, BoardOk, ViewerOk, WellKept;
    PageParts(p);
    if p.session.recovery == NoRecovery {
      assert p.session.calls == map[];
      BeginMeans(p.(session := p.session.(recovery := InRecovery)));
    }
  }

  lemma SettledMeans(limits: Limits, p: Page)
    requires PageOk(p) && p.session.recovery == RecoveryDone
    ensures Step(limits, p, OnSettled) == p.(session := p.session.(recovery := NoRecovery))
  {
    hide PageOk;
  }

  // ---------------------------------------------------------------- signing in

  /** Nobody both times, or the same employee of the same organization, whatever the name shown. */
  predicate SamePerson(a: Option<Identity>, b: Option<Identity>) {
    && (a.None? <==> b.None?)
    && (a.Some? && b.Some? ==> a.value.orgId == b.value.orgId && a.value.employeeId == b.value.employeeId)
  }

  /** What is left for the employee a context names: all of it if that is the employee the page
      knew, otherwise nothing but the last query's error. */
  ghost predicate HandedOver(p: Page, context: Context, q: Page) {
    if SamePerson(p.session.identity, context.identity) then
      q.board == p.board && q.submission == p.submission && q.downloads == p.downloads
      && q.jobs.tasks == p.jobs.tasks && q.jobs.order == p.jobs.order && q.jobs.active == p.jobs.active
      && q.selected.order == p.selected.order
    else
      && q.board.rows == [] && q.board.stores == {} && q.board.scope.None? && q.board.cursors == map[0 := None]
      && q.board.batch == 0 && q.board.nextCursor.None? && q.board.queryError == p.board.queryError
      && q.submission.attempt.None? && q.submission.submitError.None? && q.downloads.notices == map[]
      && q.jobs.tasks == map[] && q.jobs.order == [] && q.jobs.active.None? && q.selected == EMPTY
  }

  /** Every selected file waits for its check. */
  ghost predicate AllUnverified(s: Selected) {
    forall k | k in s.items :: s.items[k] == Item(k, Unverified, None)
  }

  lemma NothingAnswered(s: Selected)
    requires WellKept(s)
    ensures AllUnverified(Reconcile(s, [])) && Reconcile(s, []).order == s.order
  {
    ReconcileExact(s, []);
  }

  /** A page in the middle of a recovery adopts a context: the employee and the token are those of
      the context, files are unverified, and the check begins, or ends at once if nothing is selected. */
  lemma AdoptMeans(limits: Limits, p: Page, context: Context)
    requires MidRecovery(p)
    ensures var q := AdoptContext(limits, p, context);
      && HandedOver(p, context, q) && AllUnverified(q.selected) && q.viewer == p.viewer && q.urls == p.urls
      && q.session.identity == context.identity && q.session.csrfToken == context.csrfToken
      && q.session.epoch == p.session.epoch && q.session.error == p.session.error
      && (SignedIn(q.session) <==> q.selected.order == [])
      && (q.selected.order == [] ==> q.session.calls == map[] && q.session.recovery == RecoveryDone)
      && (q.selected.order != [] ==>
            q.session.recovering && !q.session.authenticated && q.session.recovery == InRecovery)
  {
    var kept := if SameEmployee(p.session.identity, context.identity) then p.selected else EMPTY;
    NothingAnswered(kept);
    NothingAnswered(Reconcile(kept, []));
    SortKeysSorts(kept.order);
    ReconcileExact(kept, []);
    if kept.order != [] {
      assert kept.order[0] in Listing(kept);
    }
    if p.jobs.order != [] {
      QueuePollsAdds(p.jobs, p.jobs.order);
    }
  }

  /** A context of an earlier epoch ends its recovery and nothing else. One of this epoch, asked for
      passively, that names the employee and the token the page has clears the error and nothing else. */
  lemma ContextMeansNothing(limits: Limits, p: Page, id: Id, context: Context)
    requires PageOk(p) && id in p.session.calls && !p.session.calls[id].call.Check?
    ensures var q, r := Step(limits, p, GotContext(id, context)), p.session.calls[id];
      && (r.epoch != p.session.epoch ==>
            q == p.(session := p.session.(calls := map[], recovery := RecoveryDone, recovering := false)))
      && (r.epoch == p.session.epoch && r.call.PassiveContext? && p.session.csrfToken == context.csrfToken
          && SamePerson(p.session.identity, context.identity) ==>
            q == p.(session := p.session.(calls := map[], recovery := RecoveryDone, error := None)))
  {
    NoneLeft(p.session, id);
  }

  /** A context of this epoch that was asked for by a full recovery is adopted. */
  lemma ContextIsAdopted(limits: Limits, p: Page, id: Id, context: Context)
    requires PageOk(p) && id in p.session.calls && p.session.calls[id].call.FullContext?
    requires p.session.calls[id].epoch == p.session.epoch
    ensures var q := Step(limits, p, GotContext(id, context));
      && HandedOver(p, context, q) && AllUnverified(q.selected) && q.viewer == p.viewer && q.urls == p.urls
      && q.session.identity == context.identity && q.session.csrfToken == context.csrfToken
      && q.session.epoch == p.session.epoch && q.session.error == p.session.error
      && (SignedIn(q.session) <==> q.selected.order == [])
  {
    NoneLeft(p.session, id);
    var t := p.(session := TakeRecovery(p.session, id));
    MidOk(p, id);
    hide MidRecovery, PageOk, AdoptContext;
    AdoptMeans(limits, t, context);
  }

  lemma BegunOk(p: Page, id: Id)
    requires PageOk(p) && id in p.session.calls && p.session.calls[id].call.PassiveContext?
    ensures var m := Begin(p.(session := TakeRecovery(p.session, id)));
      && MidRecovery(m) && Interrupted(p, m) && m.jobs.tasks.Keys == p.jobs.tasks.Keys
      && (forall t | t in p.jobs.tasks :: m.jobs.tasks[t] == p.jobs.tasks[t].(waiting := false, linking := false))
      && m.session.epoch == p.session.epoch + 1 && m.session.identity == p.session.identity && m.session.error.None?
  {
    var t := p.(session := TakeRecovery(p.session, id));
    BegunMid(p, id);
    assert TimersMatch(t.jobs);
    hide PageOk, MidRecovery, Begin, Interrupted, TimersMatch;
    BeginMeans(t);
    SameInterrupted(t, Begin(t), p);
  }

  lemma SameInterrupted(p: Page, q: Page, s: Page)
    requires Interrupted(p, q) && s == p.(session := s.session)
    ensures Interrupted(s, q)
  {
  }

  lemma BegunMid(p: Page, id: Id)
    requires PageOk(p) && id in p.session.calls && p.session.calls[id].call.PassiveContext?
    ensures MidRecovery(Begin(p.(session := TakeRecovery(p.session, id))))
  {
    var t := p.(session := TakeRecovery(p.session, id));
    NoneLeft(p.session, id);
    PartsMoved(p.session, t.session, t);
    BeginParts(t);
    hide PartsOk, Quiet, IdleTasks, StopTimers;
  }

  lemma PassiveStep(limits: Limits, p: Page, id: Id, context: Context)
    requires PageOk(p) && id in p.session.calls && p.session.calls[id].call.PassiveContext?
    requires p.session.calls[id].epoch == p.session.epoch
    requires !SamePerson(p.session.identity, context.identity) || p.session.csrfToken != context.csrfToken
    ensures Step(limits, p, GotContext(id, context)) ==
      AdoptContext(limits, Begin(p.(session := TakeRecovery(p.session, id))), context)
  {
    hide AdoptContext, Begin, PageOk;
  }

  /** A context of this epoch that was asked for passively and names another employee or another
      token first interrupts everything, as a full recovery does, and is then adopted. */
  lemma PassiveContextIsAdopted(limits: Limits, p: Page, id: Id, context: Context) returns (m: Page)
    requires PageOk(p) && id in p.session.calls && p.session.calls[id].call.PassiveContext?
    requires p.session.calls[id].epoch == p.session.epoch
    requires !SamePerson(p.session.identity, context.identity) || p.session.csrfToken != context.csrfToken
    ensures Interrupted(p, m) && m.session.epoch == p.session.epoch + 1 && m.session.identity == p.session.identity
    ensures m.jobs.tasks.Keys == p.jobs.tasks.Keys
    ensures forall t | t in p.jobs.tasks :: m.jobs.tasks[t] == p.jobs.tasks[t].(waiting := false, linking := false)
    ensures var q := Step(limits, p, GotContext(id, context));
      && HandedOver(m, context, q) && AllUnverified(q.selected) && q.viewer == m.viewer && q.urls == m.urls
      && q.session.identity == context.identity && q.session.csrfToken == context.csrfToken
      && q.session.epoch == p.session.epoch + 1 && q.session.error.None?
      && (SignedIn(q.session) <==> q.selected.order == [])
  {
    m := Begin(p.(session := TakeRecovery(p.session, id)));
    PassiveStep(limits, p, id, context);
    BegunOk(p, id);
    hide MidRecovery, PageOk, AdoptContext, Begin, Step, Interrupted, HandedOver, SameEmployee, SamePerson;
    AdoptMeans(limits, m, context);
  }

  // ---------------------------------------------------------------- the check of the selection

  /** A page of the check that is not the last of its chunk asks for the next page of that chunk,
      the last page of a chunk for the next chunk; what was answered is carried along. */
  lemma CheckAsksOn(limits: Limits, p: Page, id: Id, answers: seq<Item>, cursor: Option<Cursor>)
    requires PageOk(p) && id in p.session.calls && p.session.calls[id].call.Check?
    ensures var q, r, n := Step(limits, p, GotCheck(id, answers, cursor)), p.session.calls[id], p.session.next;
      && (r.epoch != p.session.epoch ==>
            q == p.(session := p.session.(calls := map[], recovery := RecoveryDone, recovering := false)))
      && (r.epoch == p.session.epoch && cursor.Some? ==>
            q == p.(session := p.session.(next := n + 1, calls := map[n := Request(r.epoch, p.session.identity,
              Check(r.call.all, r.call.start, r.call.end, cursor, r.call.results + answers))])))
      && (r.epoch == p.session.epoch && cursor.None? && r.call.end < |r.call.all| ==>
            && n in q.session.calls && q == p.(session := p.session.(next := n + 1, calls := q.session.calls))
            && q.session.calls == map[n := Request(r.epoch, p.session.identity, q.session.calls[n].call)]
            && q.session.calls[n].call.Check? && q.session.calls[n].call.all == r.call.all
            && q.session.calls[n].call.start == r.call.end && q.session.calls[n].call.cursor.None?
            && q.session.calls[n].call.results == r.call.results + answers)
  {
    NoneLeft(p.session, id);
    hide PartsOk, RecoveryQuiet, WellKept, ChunkEnd;
  }

  /** The last page of the last chunk signs in: every selected file has the last answer for it, or is
      unverified and without size, and exactly the pending tasks have a timer. */
  lemma CheckSignsIn(limits: Limits, p: Page, id: Id, answers: seq<Item>, i: nat, k: Key)
    requires PageOk(p) && id in p.session.calls && p.session.calls[id].call.Check?
    requires p.session.calls[id].epoch == p.session.epoch
    requires p.session.calls[id].call.end == |p.session.calls[id].call.all|
    ensures var q, all := Step(limits, p, GotCheck(id, answers, None)), p.session.calls[id].call.results + answers;
      && q == p.(session := q.session, selected := q.selected, jobs := q.jobs)
      && q.session == p.session.(calls := map[], authenticated := true, recovering := false, recovery := RecoveryDone)
      && q.selected.order == p.selected.order && q.selected.items.Keys == p.selected.items.Keys
      && (i < |all| && all[i].key in p.selected.items && (forall j | i < j < |all| :: all[j].key != all[i].key) ==>
            q.selected.items[all[i].key] == all[i])
      && (k in p.selected.items && (forall j | 0 <= j < |all| :: all[j].key != k) ==>
            q.selected.items[k] == Item(k, Unverified, None))
      && q.jobs == p.jobs.(timers := q.jobs.timers, live := q.jobs.live, next := q.jobs.next)
      && (forall t :: t in q.jobs.timers <==>
            t in p.jobs.tasks && (p.jobs.tasks[t].status == Queued || p.jobs.tasks[t].status == Running))
  {
    MidOk(p, id);
    CheckLast(limits, p, id, answers);
    ReconcileMeans(p.selected, p.session.calls[id].call.results + answers, i, k);
    QueuedMeans(p.jobs);
    hide MidRecovery, PageOk, QueuePolls, Reconcile, Step;
  }

  lemma QueuedMeans(j: Jobs)
    requires TimersMatch(j) && TimersDue(j) && TasksListed(j) && Quiet(j)
    ensures var k := QueuePolls(j, j.order);
      && k == j.(timers := k.timers, live := k.live, next := k.next)
      && forall t :: t in k.timers <==> t in j.tasks && Unfinished(j.tasks[t])
  {
    QueuePollsAdds(j, j.order);
  }

  lemma CheckLast(limits: Limits, p: Page, id: Id, answers: seq<Item>)
    requires PageOk(p) && id in p.session.calls && p.session.calls[id].call.Check?
    requires p.session.calls[id].epoch == p.session.epoch
    requires p.session.calls[id].call.end == |p.session.calls[id].call.all|
    ensures Step(limits, p, GotCheck(id, answers, None)) == p.(
      selected := Reconcile(p.selected, p.session.calls[id].call.results + answers),
      jobs := QueuePolls(p.jobs, p.jobs.order),
      session := p.session.(calls := map[], authenticated := true, recovering := false, recovery := RecoveryDone))
  {
    NoneLeft(p.session, id);
    hide PartsOk, RecoveryQuiet, WellKept, QueuePolls, Reconcile;
  }

  /** The codes that say nobody is signed in any more. */
  predicate SignsOut(code: Code) { code == SignInRequired || code == SecurityCheckFailed }

  /** The page with its recovery over and nothing else changed. */
  function Over(p: Page): Page {
    p.(session := p.session.(calls := map[], recovery := RecoveryDone, recovering := false))
  }

  /** A failed recovery call ends the recovery; of this epoch, its code is shown. */
  lemma RecoveryFailureIsShown(limits: Limits, p: Page, id: Id, code: Code)
    requires PageOk(p) && id in p.session.calls
    ensures var q, r := Step(limits, p, RecoveryFailure(id, code)), p.session.calls[id];
      && (r.epoch != p.session.epoch ==> q == Over(p))
      && (r.epoch == p.session.epoch && (r.call.FullContext? || !SignsOut(code)) ==>
            q == Over(p).(session := Over(p).session.(error := Some(code))))
  {
    NoneLeft(p.session, id);
    hide PartsOk, RecoveryQuiet, WellKept, Expire;
  }

  /** One that says nobody is signed in expires the page, unless it is that of a full recovery's context. */
  lemma RecoveryFailureExpires(limits: Limits, p: Page, id: Id, code: Code)
    requires PageOk(p) && id in p.session.calls && p.session.calls[id].epoch == p.session.epoch
    requires SignsOut(code) && !p.session.calls[id].call.FullContext?
    ensures Expired(Over(p), Step(limits, p, RecoveryFailure(id, code)))
  {
    NoneLeft(p.session, id);
    var t := p.(session := p.session.(calls := map[]));
    ExpireMeans(t);
    RecoveryFailureStep(limits, p, id, code);
    hide PageOk, Expire, TimersMatch, Step, Interrupted;
    InterruptedOver(t, Expire(t), Over(p), Step(limits, p, RecoveryFailure(id, code)));
  }

  lemma InterruptedOver(p: Page, q: Page, s: Page, t: Page)
    requires Interrupted(p, q) && s == p.(session := s.session) && t == q.(session := t.session)
    ensures Interrupted(s, t)
  {
  }

  lemma RecoveryFailureStep(limits: Limits, p: Page, id: Id, code: Code)
    requires PageOk(p) && id in p.session.calls && p.session.calls[id].epoch == p.session.epoch
    requires SignsOut(code) && !p.session.calls[id].call.FullContext?
    ensures var n := Expire(p.(session := p.session.(calls := map[])));
      Step(limits, p, RecoveryFailure(id, code)) ==
        n.(session := n.session.(recovery := RecoveryDone, recovering := false))
  {
    NoneLeft(p.session, id);
    hide PartsOk, RecoveryQuiet, WellKept, OutdateBoard, ClosePreview, Release, Held, StopTimers, StopSubmit,
      StopDownloads;
  }

  // ---------------------------------------------------------------- preview and download

  /** A preview opens on its file, waiting, and asks for it; what was shown before is released. */
  lemma PreviewOpens(limits: Limits, p: Page, item: Item)
    requires PageOk(p)
    ensures var q := Step(limits, p, OnPreview(item));
      if !p.session.authenticated || p.session.recovering then q == p
      else
        && q == p.(viewer := q.viewer, urls := q.urls)
        && q.viewer.preview == Some(Preview(item, true, None, None)) && q.viewer.version > p.viewer.version
        && q.viewer.calls == p.viewer.calls[p.viewer.next := Request(p.session.epoch, p.session.identity,
             PreviewCall(q.viewer.version, item.key))]
        && q.viewer.next == p.viewer.next + 1 && Released(p, q)
  {
    hide PageOk;
  }

  /** Nothing came in or was saved, and the URL shown before, if any, was released. */
  ghost predicate Released(p: Page, q: Page) {
    && q.urls.returned == p.urls.returned && q.urls.saved == p.urls.saved
    && q.urls.released == p.urls.released
         + (if p.viewer.preview.Some? && p.viewer.preview.value.url.Some?
            then multiset{p.viewer.preview.value.url.value} else multiset{})
  }

  lemma PreviewCloses(limits: Limits, p: Page)
    requires PageOk(p)
    ensures var q := Step(limits, p, OnClosePreview);
      && q == p.(viewer := q.viewer, urls := q.urls) && Released(p, q)
      && q.viewer == p.viewer.(version := q.viewer.version, preview := None) && q.viewer.version > p.viewer.version
  {
    hide PageOk;
  }

  /** The URL of the preview that is open is shown in it; any other URL is released at once. */
  lemma PreviewShows(limits: Limits, p: Page, id: Id, url: Url)
    requires PageOk(p) && id in p.viewer.calls
    ensures var q, r := Step(limits, p, GotPreview(id, url)), p.viewer.calls[id];
      var open := r.epoch == p.session.epoch && r.call.version == p.viewer.version;
      && q == p.(viewer := q.viewer, urls := q.urls)
      && q.viewer == p.viewer.(preview := q.viewer.preview, calls := p.viewer.calls - {id})
      && (open ==> p.viewer.preview.Some?
                   && q.viewer.preview == Some(p.viewer.preview.value.(url := Some(url), waiting := false)))
      && (!open ==> q.viewer.preview == p.viewer.preview)
      && q.urls.returned == p.urls.returned + multiset{url} && q.urls.saved == p.urls.saved
      && q.urls.released == p.urls.released + if open then multiset{} else multiset{url}
  {
  }

  /** A download is asked for once at a time; it marks its file and clears the notice. */
  lemma DownloadAsks(limits: Limits, p: Page, item: Item)
    requires PageOk(p)
    ensures var q := Step(limits, p, OnDownload(item));
      if !p.session.authenticated || p.session.recovering || item.key in p.downloads.busy then q == p
      else q == p.(downloads := Downloads(p.downloads.busy + {item.key}, p.downloads.notices - {item.key},
        p.downloads.calls[p.downloads.next := Request(p.session.epoch, p.session.identity, item.key)],
        p.downloads.next + 1))
  {
    hide PageOk;
  }

  /** A download of this epoch is handed to the browser and noted; a late one is released. */
  lemma DownloadSaves(limits: Limits, p: Page, id: Id, url: Url)
    requires PageOk(p) && id in p.downloads.calls
    ensures var q, r := Step(limits, p, GotDownload(id, url)), p.downloads.calls[id];
      && q == p.(downloads := q.downloads, urls := q.urls)
      && q.downloads.calls == p.downloads.calls - {id} && q.downloads.next == p.downloads.next
      && q.urls.returned == p.urls.returned + multiset{url}
      && (if r.epoch == p.session.epoch then
            && q.downloads.busy == p.downloads.busy - {r.call}
            && q.downloads.notices == p.downloads.notices[r.call := DownloadStarted]
            && q.urls.saved == p.urls.saved + multiset{url} && q.urls.released == p.urls.released
          else
            && q.downloads.busy == p.downloads.busy && q.downloads.notices == p.downloads.notices
            && q.urls.released == p.urls.released + multiset{url} && q.urls.saved == p.urls.saved)
  {
    hide PageOk;
  }

  // ---------------------------------------------------------------- tasks

  /** Queued or running: the server may still have news of it. */
  predicate Unfinished(task: Task) { task.status == Queued || task.status == Running }

  /** What a poll that is sent does: the task waits, shows no error and has no timer. */
  ghost predicate Polled(ss: Session, j: Jobs, t: Id, k: Jobs)
    requires t in j.tasks
  {
    && k.tasks == j.tasks[t := j.tasks[t].(waiting := true, error := None)] && k.timers == j.timers - {t}
    && (forall h :: h in k.live <==> h in j.live && j.live[h] != t)
    && (forall h | h in k.live :: k.live[h] == j.live[h])
    && k.polls == j.polls[j.next := Request(ss.epoch, ss.identity, t)]
    && k.order == j.order && k.active == j.active && k.links == j.links && k.next == j.next + 1
  }

  lemma StartPollMeans(ss: Session, j: Jobs, t: Id)
    requires t in j.tasks && TimersMatch(j)
    ensures if SignedIn(ss) && !j.tasks[t].waiting && Unfinished(j.tasks[t])
            then Polled(ss, j, t, StartPoll(ss, j, t)) else StartPoll(ss, j, t) == j
  {
    assert t in j.timers ==> forall h | h in j.live && j.live[h] == t :: h == j.timers[t];
    assert t !in j.timers ==> forall h | h in j.live :: j.live[h] != t;
  }

  /** A task is polled only while signed in, one poll at a time, and only if it is not finished. */
  lemma PollAsks(limits: Limits, p: Page, t: Id)
    requires PageOk(p) && t in p.jobs.tasks
    ensures var q := Step(limits, p, OnPoll(t));
      if p.session.authenticated && !p.session.recovering && !p.jobs.tasks[t].waiting && Unfinished(p.jobs.tasks[t])
      then q == p.(jobs := q.jobs) && Polled(p.session, p.jobs, t, q.jobs) else q == p
  {
    hide PageOk, Polled, StartPoll, TimersMatch, TimersDue, TasksListed, BoardOk, ViewerOk, WellKept, SessionOk;
    PageParts(p);
    StartPollMeans(p.session, p.jobs, t);
  }

  lemma FireTimerMeans(ss: Session, j: Jobs, h: Id)
    requires h in j.live && TimersMatch(j) && TimersDue(j) && SignedIn(ss)
    ensures j.live[h] in j.tasks && Polled(ss, j, j.live[h], FireTimer(ss, j, h))
  {
    assert j.live[h] in j.timers && forall g | g in j.live && j.live[g] == j.live[h] :: g == h;
  }

  /** A timer that fires polls its task. */
  lemma TimerAsks(limits: Limits, p: Page, h: Id)
    requires PageOk(p) && h in p.jobs.live
    ensures p.jobs.live[h] in p.jobs.tasks
    ensures var q := Step(limits, p, OnTimer(h));
      q == p.(jobs := q.jobs) && Polled(p.session, p.jobs, p.jobs.live[h], q.jobs)
  {
    hide PageOk, Polled, FireTimer, TimersDue, TasksListed, BoardOk, ViewerOk, WellKept, SessionOk;
    PageParts(p);
    assert p.jobs.live[h] in p.jobs.timers;
    FireTimerMeans(p.session, p.jobs, h);
  }

  /** What the status of a poll does: it is shown, and the task is polled again as long as it is not finished. */
  ghost predicate Heard(j: Jobs, id: Id, status: TaskStatus, errorCode: Option<Code>, k: Jobs)
    requires id in j.polls && j.polls[id].call in j.tasks
  {
    var t := j.polls[id].call;
    && k.tasks == j.tasks[t := j.tasks[t].(status := status, error := errorCode, waiting := false)]
    && k.polls == j.polls - {id} && k.links == j.links && k.order == j.order && k.active == j.active
    && (if status == Queued || status == Running
        then k.timers == j.timers[t := j.next] && k.live == j.live[j.next := t] && k.next == j.next + 1
        else k.timers == j.timers && k.live == j.live && k.next == j.next)
  }

  lemma PollArrivesMeans(ss: Session, j: Jobs, id: Id, status: TaskStatus, errorCode: Option<Code>)
    requires id in j.polls && j.polls[id].epoch == ss.epoch && ss.authenticated
    requires j.polls[id].call in j.tasks && j.polls[id].call !in j.timers
    ensures Heard(j, id, status, errorCode, PollArrives(ss, j, id, status, errorCode))
  {
  }

  /** The status that comes in this epoch is shown; a late one changes nothing. */
  lemma StatusIsShown(limits: Limits, p: Page, id: Id, status: TaskStatus, errorCode: Option<Code>)
    requires PageOk(p) && id in p.jobs.polls
    ensures var q := Step(limits, p, GotStatus(id, status, errorCode));
      if p.jobs.polls[id].epoch != p.session.epoch then q == p.(jobs := p.jobs.(polls := p.jobs.polls - {id}))
      else
        && p.jobs.polls[id].call in p.jobs.tasks && q == p.(jobs := q.jobs)
        && Heard(p.jobs, id, status, errorCode, q.jobs)
  {
    hide PageOk, Heard;
    if p.jobs.polls[id].epoch == p.session.epoch {
      LivePoll(p, id);
      PollArrivesMeans(p.session, p.jobs, id, status, errorCode);
    }
  }

  lemma LivePoll(p: Page, id: Id)
    requires PageOk(p) && id in p.jobs.polls && p.jobs.polls[id].epoch == p.session.epoch
    ensures var t := p.jobs.polls[id].call;
      t in p.jobs.tasks && p.jobs.tasks[t].waiting && t !in p.jobs.timers && p.session.authenticated
  {
    assert p.jobs.polls[id].call in Waiting(p.jobs);
  }

  lemma LiveLink(p: Page, id: Id)
    requires PageOk(p) && id in p.jobs.links && p.jobs.links[id].epoch == p.session.epoch
    ensures p.jobs.links[id].call in p.jobs.tasks
  {
    assert p.jobs.links[id].call in Linking(p.jobs);
  }

  /** A link is asked for only while signed in, one at a time, and only for a task that succeeded. */
  lemma LinkAsks(limits: Limits, p: Page, t: Id)
    requires PageOk(p) && t in p.jobs.tasks
    ensures var q, task := Step(limits, p, OnLink(t)), p.jobs.tasks[t];
      if p.session.authenticated && !p.session.recovering && !task.linking && task.status == Succeeded
      then q == p.(jobs := p.jobs.(tasks := p.jobs.tasks[t := task.(linking := true, error := None)],
             links := p.jobs.links[p.jobs.next := Request(p.session.epoch, p.session.identity, t)],
             next := p.jobs.next + 1))
      else q == p
  {
    hide PageOk;
  }

  /** The link of a task, asked for in this epoch, is handed to the browser; the task shows that, and
      until when it is good. A late one changes nothing. */
  lemma LinkIsSaved(limits: Limits, p: Page, id: Id, url: Url, expiresAt: Option<Text>)
    requires PageOk(p) && id in p.jobs.links
    ensures var q, t := Step(limits, p, GotLink(id, url, expiresAt)), p.jobs.links[id].call;
      if p.jobs.links[id].epoch != p.session.epoch then q == p.(jobs := p.jobs.(links := p.jobs.links - {id}))
      else
        && t in p.jobs.tasks
        && q == p.(jobs := p.jobs.(links := p.jobs.links - {id}, tasks := p.jobs.tasks[t :=
             p.jobs.tasks[t].(started := true, expiresAt := expiresAt, linking := false)]),
             urls := p.urls.(returned := p.urls.returned + multiset{url}, saved := p.urls.saved + multiset{url}))
  {
    hide PageOk;
    if p.jobs.links[id].epoch == p.session.epoch {
      LiveLink(p, id);
    }
  }

  // ---------------------------------------------------------------- submitting

  /** When a submit does something: signed in, nothing being submitted, and a selection that is allowed. */
  ghost predicate Submittable(limits: Limits, p: Page)
    requires WellKept(p.selected)
  {
    p.session.authenticated && !p.session.recovering && !p.submission.submitting
    && Summarise(limits, p.selected).allowed
  }

  /** What a submit of a listing does: an attempt is gone on with if it is for that listing and no new
      one is wanted, otherwise a key no attempt had is taken; one that has no task yet is sent. */
  ghost predicate Submitted(ss: Session, u: Submission, listing: seq<Key>, anew: bool, v: Submission) {
    var a := v.attempt;
    && a.Some? && a.value.selection == listing && v.made == u.made
    && (if !anew && u.attempt.Some? && u.attempt.value.selection == listing then a == u.attempt
        else a.value.task.None? && a.value.idempotencyKey == u.next)
    && (a.value.task.Some? ==> v == u.(attempt := a, next := v.next))
    && (a.value.task.None? ==>
          && v.submitting && v.submitError.None? && v.next > u.next + 1
          && v.sent == u.sent + [SubmitCall(a.value.idempotencyKey, listing)]
          && v.calls == u.calls[u.next + 1 := Request(ss.epoch, ss.identity,
               SubmitCall(a.value.idempotencyKey, listing))])
  }

  lemma StartSubmitMeans(ss: Session, u: Submission, listing: seq<Key>, anew: bool)
    requires u.attempt.Some? ==> u.attempt.value.fingerprint == Fingerprint(u.attempt.value.selection)
    ensures Submitted(ss, u, listing, anew, StartSubmit(ss, u, listing, anew))
  {
    if u.attempt.Some? && u.attempt.value.fingerprint == Fingerprint(listing) {
      FingerprintInjective(u.attempt.value.selection, listing);
    }
    hide Fingerprint;
  }

  /** A submit sends the listing, or shows the task its attempt already has. */
  lemma SubmitSends(limits: Limits, p: Page, anew: bool)
    requires PageOk(p)
    ensures var q := Step(limits, p, OnSubmit(anew));
      if !Submittable(limits, p) then q == p
      else
        && q == p.(submission := q.submission, jobs := p.jobs.(active := q.jobs.active))
        && Submitted(p.session, p.submission, Listing(p.selected), anew, q.submission)
        && q.jobs.active == q.submission.attempt.value.task
  {
    assert KeysFaithful(p.submission);
    StartSubmitMeans(p.session, p.submission, Listing(p.selected), anew);
    SubmitStep(limits, p, anew);
    hide PageOk, Summarise, KeysFaithful, StartSubmit, Listing, Fingerprint, Step;
  }

  lemma SubmitStep(limits: Limits, p: Page, anew: bool)
    requires PageOk(p)
    ensures var u := StartSubmit(p.session, p.submission, Listing(p.selected), anew);
      var q := Step(limits, p, OnSubmit(anew));
      if !Submittable(limits, p) then q == p
      else u.attempt.Some? && q == p.(submission := u, jobs := p.jobs.(active := u.attempt.value.task))
  {
    hide PartsOk, RecoveryQuiet, SessionOk, Summarise, Listing, Fingerprint;
  }

  /** An accepted submit of this epoch lists its task first and shows it: with the request the server
      named, its status, and the selection that was sent. It belongs to the attempt that sent it, and
      is polled if it is not finished. A late one changes nothing. */
  lemma TaskIsListed(limits: Limits, p: Page, id: Id, requestId: Text, status: TaskStatus)
    requires PageOk(p) && id in p.submission.calls
    ensures var q, c, t := Step(limits, p, GotTask(id, requestId, status)), p.submission.calls[id].call, p.jobs.next;
      if p.submission.calls[id].epoch != p.session.epoch
      then q == p.(submission := p.submission.(calls := p.submission.calls - {id}))
      else
        && q == p.(submission := q.submission, jobs := q.jobs)
        && q.jobs.order == [t] + p.jobs.order && q.jobs.active == Some(t) && t !in p.jobs.tasks
        && q.jobs.tasks == p.jobs.tasks[t := Task(requestId, status, c.selection, false, false, None, false, None)]
        && q.jobs.polls == p.jobs.polls && q.jobs.links == p.jobs.links
        && (if status == Queued || status == Running
            then q.jobs.timers == p.jobs.timers[t := t + 1] && q.jobs.live == p.jobs.live[t + 1 := t]
            else q.jobs.timers == p.jobs.timers && q.jobs.live == p.jobs.live)
        && p.submission.attempt.Some? && c == SubmitCall(p.submission.attempt.value.idempotencyKey,
                                                         p.submission.attempt.value.selection)
        && q.submission == p.submission.(calls := p.submission.calls - {id}, submitting := false,
             attempt := Some(p.submission.attempt.value.(task := Some(t))),
             made := p.submission.made + [(c.idempotencyKey, t)])
  {
    hide PageOk, AddTask, SubmitArrives, TimersMatch, TimersDue, TasksListed, BoardOk, ViewerOk, WellKept, SessionOk;
    PageParts(p);
    if p.submission.calls[id].epoch != p.session.epoch {
      LateTask(limits, p, id, requestId, status);
    } else {
      LiveSubmit(p, id);
      AddTaskMeans(p.session, p.jobs, Task(requestId, status, p.submission.calls[id].call.selection, false, false, None,
        false, None));
      SubmitArrivesMeans(p.session, p.submission, id, p.jobs.next);
    }
  }

  lemma LateTask(limits: Limits, p: Page, id: Id, requestId: Text, status: TaskStatus)
    requires PageOk(p) && id in p.submission.calls && p.submission.calls[id].epoch != p.session.epoch
    ensures Step(limits, p, GotTask(id, requestId, status)) ==
      p.(submission := p.submission.(calls := p.submission.calls - {id}))
  {
    hide PageOk;
  }

  lemma SubmitArrivesMeans(ss: Session, u: Submission, id: Id, t: Id)
    requires id in u.calls && u.calls[id].epoch == ss.epoch && u.attempt.Some?
    requires u.calls[id].call == SubmitCall(u.attempt.value.idempotencyKey, u.attempt.value.selection)
    ensures SubmitArrives(ss, u, id, t) == u.(calls := u.calls - {id}, submitting := false,
      attempt := Some(u.attempt.value.(task := Some(t))), made := u.made + [(u.calls[id].call.idempotencyKey, t)])
  {
  }

  /** A new task is listed first, shown, and given a timer if it is not finished. */
  lemma AddTaskMeans(ss: Session, j: Jobs, task: Task)
    requires ss.authenticated && TasksListed(j) && TimersDue(j)
    ensures var k, t := AddTask(ss, j, task), j.next;
      && k.order == [t] + j.order && k.active == Some(t) && t !in j.tasks && k.tasks == j.tasks[t := task]
      && k.polls == j.polls && k.links == j.links
      && (if Unfinished(task) then k.timers == j.timers[t := t + 1] && k.live == j.live[t + 1 := t]
          else k.timers == j.timers && k.live == j.live)
  {
  }

  lemma LiveSubmit(p: Page, id: Id)
    requires PageOk(p) && id in p.submission.calls && p.submission.calls[id].epoch == p.session.epoch
    ensures p.submission.attempt.Some? && p.session.authenticated
    ensures p.submission.calls[id].call ==
      SubmitCall(p.submission.attempt.value.idempotencyKey, p.submission.attempt.value.selection)
  {
    assert p.submission.calls[id].call in Submitting(p.submission);
  }

  // ---------------------------------------------------------------- choosing files

  /** Ticking and unticking change the selection and nothing else, signed in or not. */
  lemma SelectMeans(limits: Limits, p: Page, item: Item, checked: bool, at: nat)
    requires PageOk(p)
    ensures var q := Step(limits, p, OnSelect(item, checked));
      && q == p.(selected := q.selected)
      && (!checked ==> q.selected.items == p.selected.items - {item.key})
      && (!checked && at < |p.selected.order| && p.selected.order[at] == item.key ==>
            q.selected.order == p.selected.order[..at] + p.selected.order[at + 1..])
      && (checked && item.status == Ready ==>
            && q.selected.items == p.selected.items[item.key := item]
            && q.selected.order == p.selected.order + if item.key in p.selected.items then [] else [item.key])
      && (checked && item.status != Ready ==> q == p)
  {
    ChooseMeans(p.selected, item, checked, at);
    hide Choose;
    assert p.selected.order + [] == p.selected.order;
  }

  /** Of a batch that is ticked each file has its last ready row; one that is unticked is gone. */
  lemma SelectBatchMeans(limits: Limits, p: Page, items: seq<Item>, checked: bool, i: nat, k: Key)
    requires PageOk(p)
    ensures var q := Step(limits, p, OnSelectBatch(items, checked));
      && q == p.(selected := q.selected)
      && (!checked ==>
            (k in q.selected.items <==>
             k in p.selected.items && forall j | 0 <= j < |items| :: items[j].key != k))
      && (checked && i < |items| && items[i].status == Ready && NoneReady(items, i + 1, items[i].key) ==>
            items[i].key in q.selected.items && q.selected.items[items[i].key] == items[i])
      && (checked && NoneReady(items, 0, k) ==>
            (k in q.selected.items <==> k in p.selected.items)
            && (k in p.selected.items ==> q.selected.items[k] == p.selected.items[k]))
  {
    UntickMeans(p.selected, items, k);
    if i < |items| && items[i].status == Ready && NoneReady(items, i + 1, items[i].key) {
      TickMeans(p.selected, items, i);
    }
    if NoneReady(items, 0, k) {
      TickNothing(p.selected, items, k);
    }
    hide ChooseAll, NoneReady;
  }

  lemma ClearMeans(limits: Limits, p: Page)
    requires PageOk(p)
    ensures Step(limits, p, OnClearSelection) == p.(selected := Selected([], map[]))
  {
    hide PageOk;
  }

  // ---------------------------------------------------------------- failures

  /** A failed query: a code that signs out expires the page; otherwise the newest query of this epoch
      shows its code, and any other changes nothing. */
  lemma QueryFailureMeans(limits: Limits, p: Page, id: Id, code: Code)
    requires PageOk(p) && id in p.board.calls
    ensures var q, r := Step(limits, p, QueryFailure(id, code)), p.board.calls[id];
      var done := p.(board := p.board.(calls := p.board.calls - {id}));
      if r.epoch == p.session.epoch && SignsOut(code) then Expired(done, q)
      else if r.epoch == p.session.epoch && r.call.version == p.board.version
      then q == done.(board := done.board.(queryError := Some(code), querying := false))
      else q == done
  {
    hide PageOk, Expire, TimersMatch, TimersDue, TasksListed, ViewerOk, WellKept, SessionOk;
    PageParts(p);
    ExpireMeans(p.(board := p.board.(calls := p.board.calls - {id})));
    assert p.board.calls[id].call.version <= p.board.version;
  }

  /** A failed preview shows its code if the preview is still the open one. */
  lemma PreviewFailureMeans(limits: Limits, p: Page, id: Id, code: Code)
    requires PageOk(p) && id in p.viewer.calls
    ensures var q, r := Step(limits, p, PreviewFailure(id, code)), p.viewer.calls[id];
      var done := p.(viewer := p.viewer.(calls := p.viewer.calls - {id}));
      if r.epoch == p.session.epoch && SignsOut(code) then Expired(done, q)
      else if r.epoch == p.session.epoch && r.call.version == p.viewer.version
      then p.viewer.preview.Some?
           && q == done.(viewer := done.viewer.(preview :=
                Some(p.viewer.preview.value.(error := Some(code), waiting := false))))
      else q == done
  {
    hide PageOk, Expire, TimersMatch, TimersDue, TasksListed, BoardOk, WellKept, SessionOk;
    PageParts(p);
    ExpireMeans(p.(viewer := p.viewer.(calls := p.viewer.calls - {id})));
    assert ViewerOk(p.session, p.viewer) && p.viewer.calls[id].call.version <= p.viewer.version;
  }

  /** A failed download of this epoch leaves its code as the notice of its file. */
  lemma DownloadFailureMeans(limits: Limits, p: Page, id: Id, code: Code)
    requires PageOk(p) && id in p.downloads.calls
    ensures var q, r := Step(limits, p, DownloadFailure(id, code)), p.downloads.calls[id];
      var done := p.(downloads := p.downloads.(calls := p.downloads.calls - {id}));
      if r.epoch == p.session.epoch && SignsOut(code) then Expired(done, q)
      else if r.epoch == p.session.epoch
      then q == done.(downloads := done.downloads.(busy := p.downloads.busy - {r.call},
             notices := p.downloads.notices[r.call := Failed(code)]))
      else q == done
  {
    hide PageOk, Expire, TimersMatch, TimersDue, TasksListed, BoardOk, ViewerOk, WellKept, SessionOk;
    PageParts(p);
    ExpireMeans(p.(downloads := p.downloads.(calls := p.downloads.calls - {id})));
  }

  lemma TimersStillMatch(j: Jobs, k: Jobs)
    requires TimersMatch(j) && k.timers == j.timers && k.live == j.live && k.next == j.next
    ensures TimersMatch(k)
  {
  }

  /** A failed poll of this epoch leaves its code with the task, which waits no longer. */
  lemma StatusFailureMeans(limits: Limits, p: Page, id: Id, code: Code)
    requires PageOk(p) && id in p.jobs.polls
    ensures var q, r := Step(limits, p, StatusFailure(id, code)), p.jobs.polls[id];
      var done := p.(jobs := p.jobs.(polls := p.jobs.polls - {id}));
      if r.epoch == p.session.epoch && SignsOut(code) then Expired(done, q)
      else if r.epoch == p.session.epoch
      then r.call in p.jobs.tasks && q == done.(jobs := done.jobs.(tasks := p.jobs.tasks[r.call :=
             p.jobs.tasks[r.call].(error := Some(code), waiting := false)]))
      else q == done
  {
    if p.jobs.polls[id].epoch == p.session.epoch {
      LivePoll(p, id);
    }
    assert TimersMatch(p.jobs);
    StatusFailureStep(limits, p, id, code);
    hide PageOk, Expire, TimersMatch, Step, Expired;
    var done := p.(jobs := p.jobs.(polls := p.jobs.polls - {id}));
    TimersStillMatch(p.jobs, done.jobs);
    ExpireMeans(done);
  }

  lemma StatusFailureStep(limits: Limits, p: Page, id: Id, code: Code)
    requires PageOk(p) && id in p.jobs.polls
    requires p.jobs.polls[id].epoch == p.session.epoch ==> p.jobs.polls[id].call in p.jobs.tasks
    ensures var r, done := p.jobs.polls[id], p.(jobs := p.jobs.(polls := p.jobs.polls - {id}));
      Step(limits, p, StatusFailure(id, code)) ==
        if r.epoch == p.session.epoch && SignsOut(code) then Expire(done)
        else if r.epoch != p.session.epoch then done
        else done.(jobs := done.jobs.(tasks := p.jobs.tasks[r.call :=
          p.jobs.tasks[r.call].(error := Some(code), waiting := false)]))
  {
    hide PageOk, OutdateBoard, ClosePreview, Release, Held, StopTimers, StopSubmit, StopDownloads;
  }

  /** A failed link of this epoch leaves its code with the task, which can be asked for again. */
  lemma LinkFailureMeans(limits: Limits, p: Page, id: Id, code: Code)
    requires PageOk(p) && id in p.jobs.links
    ensures var q, r := Step(limits, p, LinkFailure(id, code)), p.jobs.links[id];
      var done := p.(jobs := p.jobs.(links := p.jobs.links - {id}));
      if r.epoch == p.session.epoch && SignsOut(code) then Expired(done, q)
      else if r.epoch == p.session.epoch
      then r.call in p.jobs.tasks && q == done.(jobs := done.jobs.(tasks := p.jobs.tasks[r.call :=
             p.jobs.tasks[r.call].(error := Some(code), linking := false)]))
      else q == done
  {
    if p.jobs.links[id].epoch == p.session.epoch {
      LiveLink(p, id);
    }
    assert TimersMatch(p.jobs);
    LinkFailureStep(limits, p, id, code);
    hide PageOk, Expire, TimersMatch, Step, Expired;
    var done := p.(jobs := p.jobs.(links := p.jobs.links - {id}));
    TimersStillMatch(p.jobs, done.jobs);
    ExpireMeans(done);
  }

  lemma LinkFailureStep(limits: Limits, p: Page, id: Id, code: Code)
    requires PageOk(p) && id in p.jobs.links
    requires p.jobs.links[id].epoch == p.session.epoch ==> p.jobs.links[id].call in p.jobs.tasks
    ensures var r, done := p.jobs.links[id], p.(jobs := p.jobs.(links := p.jobs.links - {id}));
      Step(limits, p, LinkFailure(id, code)) ==
        if r.epoch == p.session.epoch && SignsOut(code) then Expire(done)
        else if r.epoch != p.session.epoch then done
        else done.(jobs := done.jobs.(tasks := p.jobs.tasks[r.call :=
          p.jobs.tasks[r.call].(error := Some(code), linking := false)]))
  {
    hide PageOk, OutdateBoard, ClosePreview, Release, Held, StopTimers, StopSubmit, StopDownloads;
  }

  /** A failed submit of this epoch shows its code and can be repeated. */
  lemma SubmitFailureMeans(limits: Limits, p: Page, id: Id, code: Code)
    requires PageOk(p) && id in p.submission.calls
    ensures var q, r := Step(limits, p, SubmitFailure(id, code)), p.submission.calls[id];
      var done := p.(submission := p.submission.(calls := p.submission.calls - {id}));
      if r.epoch == p.session.epoch && SignsOut(code) then Expired(done, q)
      else if r.epoch == p.session.epoch
      then q == done.(submission := done.submission.(submitError := Some(code), submitting := false))
      else q == done
  {
    hide PageOk, Expire, TimersMatch, TimersDue, TasksListed, BoardOk, ViewerOk, WellKept, SessionOk;
    PageParts(p);
    ExpireMeans(p.(submission := p.submission.(calls := p.submission.calls - {id})));
  }
}
