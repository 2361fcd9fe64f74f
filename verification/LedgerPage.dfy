/**
 The whole ledger download page as a transition system: user actions, timers,
 answers and failures, in any order. `PageOk` is what every step keeps.
 */
module LedgerPage {
  import opened Options
  import opened Json
  import opened LedgerModel
  import opened LedgerSession
  import opened LedgerBoard
  import opened LedgerViewer
  import opened LedgerJobs
  import opened LedgerSubmission

  datatype Page = Page(
    session: Session, board: Board, viewer: Viewer, downloads: Downloads, urls: Urls, jobs: Jobs,
    submission: Submission, selected: Selected)

  const START: Page := Page(
    Session(0, None, None, false, false, None, NoRecovery, map[], 0),
    Board(0, [], {}, None, map[0 := None], 0, None, false, None, map[], 0),
    Viewer(0, None, map[], 0), Downloads({}, map[], map[], 0), Urls(multiset{}, multiset{}, multiset{}),
    Jobs([], map[], None, map[], map[], map[], map[], 0), Submission(None, false, None, map[], 0, [], []), EMPTY)

  // ---------------------------------------------------------------- steps

  function Expire(p: Page): Page {
    p.(session := ExpireSession(p.session), board := OutdateBoard(p.board), viewer := ClosePreview(p.viewer),
       urls := Release(p.urls, Held(p.viewer)), jobs := StopTimers(p.jobs),
       submission := StopSubmit(p.submission), downloads := StopDownloads(p.downloads))
  }

  /** `call`: a sign-in failure of the current epoch ends the session. */
  function Refuse(p: Page, epoch: nat, code: Code): Page {
    if epoch == p.session.epoch && SignInCode(code) then Expire(p) else p
  }

  /** A full recovery starts: a new epoch with nothing in progress. */
  function Begin(p: Page): Page {
    p.(session := BeginSession(p.session), board := OutdateBoard(p.board), viewer := ClosePreview(p.viewer),
       urls := Release(p.urls, Held(p.viewer)), jobs := IdleTasks(StopTimers(p.jobs)),
       submission := StopSubmit(p.submission), downloads := StopDownloads(p.downloads))
  }

  /** Everything kept for an employee, given up when another one signs in. */
  function Forget(p: Page): Page {
    p.(board := ForgetBoard(p.board), jobs := ForgetJobs(p.jobs), submission := ForgetSubmission(p.submission),
       downloads := p.downloads.(notices := map[]), selected := EMPTY)
  }

  function Finish(p: Page, results: seq<Item>): Page {
    p.(selected := Reconcile(p.selected, results), jobs := QueuePolls(p.jobs, p.jobs.order),
       session := EndRecovery(p.session.(authenticated := true)))
  }

  /** The next chunk of the selection check, or its end. */
  function NextCheck(limits: Limits, p: Page, all: seq<Key>, start: nat, results: seq<Item>): Page
    requires start <= |all|
  {
    if start < |all| then
      p.(session := FileRecovery(p.session, Check(all, start, ChunkEnd(limits, all, start, start), None, results)))
    else Finish(p, results)
  }

  function AdoptContext(limits: Limits, p: Page, context: Context): Page {
    var q := if SameEmployee(p.session.identity, context.identity) then p else Forget(p);
    var r := q.(session := q.session.(identity := context.identity, csrfToken := context.csrfToken),
                selected := Reconcile(q.selected, []));
    NextCheck(limits, r, Listing(q.selected), 0, [])
  }

  function Resume(p: Page, passive: bool): Page {
    if p.session.recovery != NoRecovery then p
    else
      var q := p.(session := p.session.(recovery := InRecovery));
      if passive && p.session.authenticated then q.(session := FileRecovery(q.session, PassiveContext))
      else var b := Begin(q); b.(session := FileRecovery(b.session, FullContext))
  }

  function ContextArrives(limits: Limits, p: Page, id: Id, context: Context): Page
    requires id in p.session.calls
  {
    var r, q := p.session.calls[id], p.(session := TakeRecovery(p.session, id));
    if r.call.PassiveContext? then
      if r.epoch != p.session.epoch then q.(session := EndPassive(q.session))
      else if SameEmployee(p.session.identity, context.identity) && p.session.csrfToken == context.csrfToken then
        q.(session := EndPassive(q.session).(error := None))
      else AdoptContext(limits, Begin(q), context)
    else if r.epoch != p.session.epoch then q.(session := EndRecovery(q.session))
    else AdoptContext(limits, q, context)
  }

  function CheckArrives(limits: Limits, p: Page, id: Id, items: seq<Item>, cursor: Option<Cursor>): Page
    requires id in p.session.calls && p.session.calls[id].call.Check?
    requires p.session.calls[id].call.end <= |p.session.calls[id].call.all|
  {
    var r, q := p.session.calls[id], p.(session := TakeRecovery(p.session, id));
    if r.epoch != p.session.epoch then q.(session := EndRecovery(q.session))
    else if cursor.Some? then
      q.(session := FileRecovery(q.session, r.call.(cursor := cursor, results := r.call.results + items)))
    else NextCheck(limits, q, r.call.all, r.call.end, r.call.results + items)
  }

  function NoteError(p: Page, epoch: nat, code: Code): Page {
    if epoch == p.session.epoch then p.(session := p.session.(error := Some(code))) else p
  }

  /** A recovery call fails; the passive probe and the context request bypass
      `call`, the passive probe with its own sign-in check. */
  function RecoveryFails(p: Page, id: Id, code: Code): Page
    requires id in p.session.calls
  {
    var r, q := p.session.calls[id], p.(session := TakeRecovery(p.session, id));
    match r.call
    case PassiveContext =>
      var n := if r.epoch == p.session.epoch && SignInCode(code) then Expire(q) else NoteError(q, r.epoch, code);
      n.(session := EndPassive(n.session))
    case FullContext =>
      var n := NoteError(q, r.epoch, code);
      n.(session := EndRecovery(n.session))
    case Check(_, _, _, _, _) =>
      var n := NoteError(Refuse(q, r.epoch, code), r.epoch, code);
      n.(session := EndRecovery(n.session))
  }

  ghost predicate MaySubmit(limits: Limits, p: Page)
    requires WellKept(p.selected)
  {
    SignedIn(p.session) && !p.submission.submitting && Summarise(limits, p.selected).allowed
  }

  ghost function Submit(limits: Limits, p: Page, anew: bool): Page
    requires WellKept(p.selected)
  {
    if !MaySubmit(limits, p) then p
    else
      var u := StartSubmit(p.session, p.submission, Listing(p.selected), anew);
      p.(submission := u, jobs := p.jobs.(active := u.attempt.value.task))
  }

  function SubmitCame(p: Page, id: Id, requestId: Text, status: TaskStatus): Page
    requires id in p.submission.calls
  {
    var r := p.submission.calls[id];
    var task := Task(requestId, status, r.call.selection, false, false, None, false, None);
    p.(submission := SubmitArrives(p.session, p.submission, id, p.jobs.next),
       jobs := if r.epoch == p.session.epoch then AddTask(p.session, p.jobs, task) else p.jobs)
  }

  function LinkCame(p: Page, id: Id, url: Url, expiresAt: Option<Text>): Page
    requires id in p.jobs.links
  {
    var r := p.jobs.links[id];
    p.(jobs := LinkArrives(p.session, p.jobs, id, expiresAt),
       urls := if r.epoch == p.session.epoch && r.call in p.jobs.tasks then Save(Bring(p.urls, url), url) else p.urls)
  }

  function QueryCame(p: Page, id: Id, rows: seq<Item>, cursor: Option<Cursor>): Page
    requires id in p.board.calls
  {
    p.(board := QueryArrives(p.session, p.board, id, rows, cursor),
       selected := if Wanted(p.session, p.board, id) then Refresh(p.selected, rows) else p.selected)
  }

  // Failures of ordinary calls: `call` looks at the code first, the rest of the
  // function afterwards, with the locals it captured before.

  function QueryFailed(p: Page, id: Id, code: Code): Page
    requires id in p.board.calls
  {
    var r := p.board.calls[id];
    var q := Refuse(p.(board := p.board.(calls := p.board.calls - {id})), r.epoch, code);
    q.(board := QueryFails(q.session, q.board, r, code))
  }

  function PreviewFailed(p: Page, id: Id, code: Code): Page
    requires id in p.viewer.calls
  {
    var r := p.viewer.calls[id];
    var q := Refuse(p.(viewer := p.viewer.(calls := p.viewer.calls - {id})), r.epoch, code);
    q.(viewer := PreviewFails(q.session, q.viewer, r, code))
  }

  function DownloadFailed(p: Page, id: Id, code: Code): Page
    requires id in p.downloads.calls
  {
    var r := p.downloads.calls[id];
    if r.epoch == p.session.epoch && SignInCode(code) then
      Expire(p.(downloads := p.downloads.(calls := p.downloads.calls - {id})))
    else p.(downloads := EndDownload(p.session, p.downloads, id, Failed(code)))
  }

  function StatusFailed(p: Page, id: Id, code: Code): Page
    requires id in p.jobs.polls
  {
    var r := p.jobs.polls[id];
    var q := Refuse(p.(jobs := p.jobs.(polls := p.jobs.polls - {id})), r.epoch, code);
    q.(jobs := PollFails(q.session, q.jobs, r, code))
  }

  function LinkFailed(p: Page, id: Id, code: Code): Page
    requires id in p.jobs.links
  {
    var r := p.jobs.links[id];
    var q := Refuse(p.(jobs := p.jobs.(links := p.jobs.links - {id})), r.epoch, code);
    q.(jobs := LinkFails(q.session, q.jobs, r, code))
  }

  function SubmitFailed(p: Page, id: Id, code: Code): Page
    requires id in p.submission.calls
  {
    var r := p.submission.calls[id];
    var q := Refuse(p.(submission := p.submission.(calls := p.submission.calls - {id})), r.epoch, code);
    q.(submission := SubmitFails(q.session, q.submission, r, code))
  }

  // ---------------------------------------------------------------- events

  datatype Event =
    | OnResume(passive: bool)
    | OnSettled
    | OnExpire
    | OnQuery(scope: Option<Text>, batch: nat)
    | OnPreview(item: Item)
    | OnClosePreview
    | OnDownload(item: Item)
    | OnPoll(task: Id)
    | OnLink(task: Id)
    | OnSubmit(anew: bool)
    | OnSelect(item: Item, checked: bool)
    | OnSelectBatch(items: seq<Item>, checked: bool)
    | OnClearSelection
    | OnTimer(timer: Id)
    | GotContext(id: Id, context: Context)
    | GotCheck(id: Id, answers: seq<Item>, cursor: Option<Cursor>)
    | GotRows(id: Id, rows: seq<Item>, nextCursor: Option<Cursor>)
    | GotPreview(id: Id, url: Url)
    | GotDownload(id: Id, url: Url)
    | GotStatus(id: Id, status: TaskStatus, errorCode: Option<Code>)
    | GotTask(id: Id, requestId: Text, initial: TaskStatus)
    | GotLink(id: Id, url: Url, expiresAt: Option<Text>)
    | RecoveryFailure(id: Id, code: Code)
    | QueryFailure(id: Id, code: Code)
    | PreviewFailure(id: Id, code: Code)
    | DownloadFailure(id: Id, code: Code)
    | StatusFailure(id: Id, code: Code)
    | SubmitFailure(id: Id, code: Code)
    | LinkFailure(id: Id, code: Code)

  /** An answer belongs to a call in flight, a fired timer is live, and a task's
      buttons belong to a listed task. */
  predicate Enabled(p: Page, e: Event) {
    match e
    case OnSettled => p.session.recovery == RecoveryDone
    case OnPoll(t) => t in p.jobs.tasks
    case OnLink(t) => t in p.jobs.tasks
    case OnTimer(h) => h in p.jobs.live
    case GotContext(id, _) => id in p.session.calls && !p.session.calls[id].call.Check?
    case GotCheck(id, _, _) =>
      && id in p.session.calls && p.session.calls[id].call.Check?
      && p.session.calls[id].call.end <= |p.session.calls[id].call.all|
    case GotRows(id, _, _) => id in p.board.calls
    case GotPreview(id, _) => id in p.viewer.calls
    case GotDownload(id, _) => id in p.downloads.calls
    case GotStatus(id, _, _) => id in p.jobs.polls
    case GotTask(id, _, _) => id in p.submission.calls
    case GotLink(id, _, _) => id in p.jobs.links
    case RecoveryFailure(id, _) => id in p.session.calls
    case QueryFailure(id, _) => id in p.board.calls
    case PreviewFailure(id, _) => id in p.viewer.calls
    case DownloadFailure(id, _) => id in p.downloads.calls
    case StatusFailure(id, _) => id in p.jobs.polls
    case SubmitFailure(id, _) => id in p.submission.calls
    case LinkFailure(id, _) => id in p.jobs.links
    case _ => true
  }

  ghost function Step(limits: Limits, p: Page, e: Event): Page
    requires WellKept(p.selected) && Enabled(p, e)
  {
    match e
    case OnResume(passive) => Resume(p, passive)
    case OnSettled => p.(session := p.session.(recovery := NoRecovery))
    case OnExpire => Expire(p)
    case OnQuery(scope, batch) =>
      if SignedIn(p.session) then p.(board := StartQuery(p.session, p.board, scope, batch)) else p
    case OnPreview(item) =>
      if SignedIn(p.session)
      then p.(viewer := StartPreview(p.session, p.viewer, item), urls := Release(p.urls, Held(p.viewer))) else p
    case OnClosePreview => p.(viewer := ClosePreview(p.viewer), urls := Release(p.urls, Held(p.viewer)))
    case OnDownload(item) =>
      if SignedIn(p.session) && item.key !in p.downloads.busy
      then p.(downloads := StartDownload(p.session, p.downloads, item.key)) else p
    case OnPoll(t) => p.(jobs := StartPoll(p.session, p.jobs, t))
    case OnLink(t) => p.(jobs := StartLink(p.session, p.jobs, t))
    case OnSubmit(anew) => Submit(limits, p, anew)
    case OnSelect(item, checked) => p.(selected := Choose(p.selected, item, checked))
    case OnSelectBatch(items, checked) => p.(selected := ChooseAll(p.selected, items, checked))
    case OnClearSelection => p.(selected := EMPTY)
    case OnTimer(h) => p.(jobs := FireTimer(p.session, p.jobs, h))
    case GotContext(id, context) => ContextArrives(limits, p, id, context)
    case GotCheck(id, answers, cursor) => CheckArrives(limits, p, id, answers, cursor)
    case GotRows(id, rows, cursor) => QueryCame(p, id, rows, cursor)
    case GotPreview(id, url) =>
      p.(viewer := PreviewArrives(p.session, p.viewer, id, url),
        urls := PreviewUrls(p.session, p.viewer, id, p.urls, url))
    case GotDownload(id, url) =>
      p.(downloads := EndDownload(p.session, p.downloads, id, DownloadStarted),
         urls := DownloadUrls(p.session, p.downloads, id, p.urls, url))
    case GotStatus(id, status, errorCode) => p.(jobs := PollArrives(p.session, p.jobs, id, status, errorCode))
    case GotTask(id, requestId, status) => SubmitCame(p, id, requestId, status)
    case GotLink(id, url, expiresAt) => LinkCame(p, id, url, expiresAt)
    case RecoveryFailure(id, code) => RecoveryFails(p, id, code)
    case QueryFailure(id, code) => QueryFailed(p, id, code)
    case PreviewFailure(id, code) => PreviewFailed(p, id, code)
    case DownloadFailure(id, code) => DownloadFailed(p, id, code)
    case StatusFailure(id, code) => StatusFailed(p, id, code)
    case SubmitFailure(id, code) => SubmitFailed(p, id, code)
    case LinkFailure(id, code) => LinkFailed(p, id, code)
  }
}
