/**
 Calls of earlier epochs cannot reach the page. Two pages that differ only in
 such calls stay alike through every run, and a page on which another employee
 signs in is alike to one that started afresh for that employee.
 */
module LedgerIsolation {
  import opened Options
  import opened Json
  import opened LedgerModel
  import opened LedgerSession
  import opened LedgerBoard
  import opened LedgerViewer
  import opened LedgerJobs
  import opened LedgerSubmission
  import opened LedgerPage
  import opened LedgerSafety
  import opened LedgerTheorems

  function LiveCalls<C>(epoch: nat, calls: map<Id, Request<C>>): map<Id, Request<C>> {
    map i | i in calls && calls[i].epoch == epoch :: calls[i]
  }

  function EraseBoard(epoch: nat, b: Board): Board { b.(calls := LiveCalls(epoch, b.calls)) }
  function EraseViewer(epoch: nat, v: Viewer): Viewer { v.(calls := LiveCalls(epoch, v.calls)) }
  function EraseDownloads(epoch: nat, d: Downloads): Downloads { d.(calls := LiveCalls(epoch, d.calls)) }
  function EraseJobs(epoch: nat, j: Jobs): Jobs {
    j.(polls := LiveCalls(epoch, j.polls), links := LiveCalls(epoch, j.links))
  }
  function EraseSubmission(epoch: nat, u: Submission): Submission {
    u.(calls := LiveCalls(epoch, u.calls), sent := [], made := [])
  }

  /** The same page but for calls of earlier epochs and the record kept for the proofs. */
  ghost predicate Alike(p: Page, q: Page) {
    && p.session == q.session && p.selected == q.selected
    && EraseBoard(p.session.epoch, p.board) == EraseBoard(p.session.epoch, q.board)
    && EraseViewer(p.session.epoch, p.viewer) == EraseViewer(p.session.epoch, q.viewer)
    && EraseDownloads(p.session.epoch, p.downloads) == EraseDownloads(p.session.epoch, q.downloads)
    && EraseJobs(p.session.epoch, p.jobs) == EraseJobs(p.session.epoch, q.jobs)
    && EraseSubmission(p.session.epoch, p.submission) == EraseSubmission(p.session.epoch, q.submission)
  }

  /** The event is the answer to, or the failure of, an ordinary call of an earlier epoch. */
  predicate Late(p: Page, e: Event)
    requires Enabled(p, e)
  {
    match e
    case GotRows(id, _, _) => p.board.calls[id].epoch != p.session.epoch
    case QueryFailure(id, _) => p.board.calls[id].epoch != p.session.epoch
    case GotPreview(id, _) => p.viewer.calls[id].epoch != p.session.epoch
    case PreviewFailure(id, _) => p.viewer.calls[id].epoch != p.session.epoch
    case GotDownload(id, _) => p.downloads.calls[id].epoch != p.session.epoch
    case DownloadFailure(id, _) => p.downloads.calls[id].epoch != p.session.epoch
    case GotStatus(id, _, _) => p.jobs.polls[id].epoch != p.session.epoch
    case StatusFailure(id, _) => p.jobs.polls[id].epoch != p.session.epoch
    case GotLink(id, _, _) => p.jobs.links[id].epoch != p.session.epoch
    case LinkFailure(id, _) => p.jobs.links[id].epoch != p.session.epoch
    case GotTask(id, _, _) => p.submission.calls[id].epoch != p.session.epoch
    case SubmitFailure(id, _) => p.submission.calls[id].epoch != p.session.epoch
    case _ => false
  }

  lemma LateQuery(ss: Session, b: Board, id: Id, rows: seq<Item>, cursor: Option<Cursor>, code: Code)
    requires BoardOk(ss, b) && id in b.calls && b.calls[id].epoch != ss.epoch
    ensures QueryArrives(ss, b, id, rows, cursor) == b.(calls := b.calls - {id}) && !Wanted(ss, b, id)
    ensures QueryFails(ss, b.(calls := b.calls - {id}), b.calls[id], code) == b.(calls := b.calls - {id})
  {
  }

  lemma LatePreview(ss: Session, v: Viewer, id: Id, url: Url, code: Code)
    requires ViewerOk(ss, v) && id in v.calls && v.calls[id].epoch != ss.epoch
    ensures PreviewArrives(ss, v, id, url) == v.(calls := v.calls - {id})
    ensures PreviewFails(ss, v.(calls := v.calls - {id}), v.calls[id], code) == v.(calls := v.calls - {id})
  {
  }

  /** The page after its call is taken off; a late pdf is released at once. */
  function TakenOff(p: Page, e: Event): Page
    requires Enabled(p, e)
  {
    match e
    case GotRows(id, _, _) => p.(board := p.board.(calls := p.board.calls - {id}))
    case QueryFailure(id, _) => p.(board := p.board.(calls := p.board.calls - {id}))
    case GotPreview(id, url) =>
      p.(viewer := p.viewer.(calls := p.viewer.calls - {id}), urls := Release(Bring(p.urls, url), Some(url)))
    case PreviewFailure(id, _) => p.(viewer := p.viewer.(calls := p.viewer.calls - {id}))
    case GotDownload(id, url) =>
      p.(downloads := p.downloads.(calls := p.downloads.calls - {id}), urls := Release(Bring(p.urls, url), Some(url)))
    case DownloadFailure(id, _) => p.(downloads := p.downloads.(calls := p.downloads.calls - {id}))
    case GotStatus(id, _, _) => p.(jobs := p.jobs.(polls := p.jobs.polls - {id}))
    case StatusFailure(id, _) => p.(jobs := p.jobs.(polls := p.jobs.polls - {id}))
    case GotLink(id, _, _) => p.(jobs := p.jobs.(links := p.jobs.links - {id}))
    case LinkFailure(id, _) => p.(jobs := p.jobs.(links := p.jobs.links - {id}))
    case GotTask(id, _, _) => p.(submission := p.submission.(calls := p.submission.calls - {id}))
    case SubmitFailure(id, _) => p.(submission := p.submission.(calls := p.submission.calls - {id}))
    case _ => p
  }

  /** A late answer or failure only takes its own call off: no row, preview,
      notice, mark, task, attempt, selection or session field changes. */
  lemma LateTakesOff(limits: Limits, p: Page, e: Event)
    requires PageOk(p) && Enabled(p, e) && Late(p, e)
    ensures Step(limits, p, e) == TakenOff(p, e)
  {
    match e
    case GotRows(id, rows, cursor) => LateQuery(p.session, p.board, id, rows, cursor, NetworkError);
    case QueryFailure(id, code) => LateQuery(p.session, p.board, id, [], None, code);
    case GotPreview(id, url) => LatePreview(p.session, p.viewer, id, url, NetworkError);
    case PreviewFailure(id, code) => LatePreview(p.session, p.viewer, id, [], code);
    case _ =>
  }

  lemma LateAlike(p: Page, e: Event)
    requires Enabled(p, e) && Late(p, e)
    ensures Alike(TakenOff(p, e), p)
  {
    match e
    case GotRows(id, _, _) => TakeLate(p.session.epoch, p.board.calls, id);
    case QueryFailure(id, _) => TakeLate(p.session.epoch, p.board.calls, id);
    case GotPreview(id, _) => TakeLate(p.session.epoch, p.viewer.calls, id);
    case PreviewFailure(id, _) => TakeLate(p.session.epoch, p.viewer.calls, id);
    case GotDownload(id, _) => TakeLate(p.session.epoch, p.downloads.calls, id);
    case DownloadFailure(id, _) => TakeLate(p.session.epoch, p.downloads.calls, id);
    case GotStatus(id, _, _) => TakeLate(p.session.epoch, p.jobs.polls, id);
    case StatusFailure(id, _) => TakeLate(p.session.epoch, p.jobs.polls, id);
    case GotLink(id, _, _) => TakeLate(p.session.epoch, p.jobs.links, id);
    case LinkFailure(id, _) => TakeLate(p.session.epoch, p.jobs.links, id);
    case GotTask(id, _, _) => TakeLate(p.session.epoch, p.submission.calls, id);
    case SubmitFailure(id, _) => TakeLate(p.session.epoch, p.submission.calls, id);
    case _ =>
  }

  lemma TakeLate<C>(epoch: nat, calls: map<Id, Request<C>>, id: Id)
    requires id in calls && calls[id].epoch != epoch
    ensures LiveCalls(epoch, calls - {id}) == LiveCalls(epoch, calls)
  {
  }

  /** A late context or check only ends the recovery it belongs to. */
  lemma LateRecoveryEndsOnly(limits: Limits, p: Page, e: Event)
    requires PageOk(p) && Enabled(p, e) && (e.GotContext? || e.GotCheck? || e.RecoveryFailure?)
    requires p.session.calls[e.id].epoch != p.session.epoch
    ensures Step(limits, p, e) ==
            p.(session := p.session.(calls := map[], recovering := false, recovery := RecoveryDone))
  {
    NoneLeft(p.session, e.id);
  }

  // ---------------------------------------------------------------- live events see only the live page

  lemma LiveFile<C>(ss: Session, next: Id, calls: map<Id, Request<C>>, call: C)
    ensures LiveCalls(ss.epoch, File(ss, next, calls, call)) == File(ss, next, LiveCalls(ss.epoch, calls), call)
  {
  }

  lemma LiveTake<C>(epoch: nat, calls: map<Id, Request<C>>, id: Id)
    ensures LiveCalls(epoch, calls - {id}) == LiveCalls(epoch, calls) - {id}
  {
  }

  lemma LiveNone<C>(ss: Session, epoch: nat, next: Id, calls: map<Id, Request<C>>)
    requires Dated(ss, next, calls) && epoch > ss.epoch
    ensures LiveCalls(epoch, calls) == map[]
  {
  }

  ghost predicate AllDated(p: Page) {
    && Dated(p.session, p.board.next, p.board.calls) && Dated(p.session, p.viewer.next, p.viewer.calls)
    && Dated(p.session, p.downloads.next, p.downloads.calls) && Dated(p.session, p.jobs.next, p.jobs.polls)
    && Dated(p.session, p.jobs.next, p.jobs.links) && Dated(p.session, p.submission.next, p.submission.calls)
  }

  lemma OutdatedCalls(p: Page, epoch: nat)
    requires AllDated(p) && epoch > p.session.epoch
    ensures LiveCalls(epoch, p.board.calls) == map[] && LiveCalls(epoch, p.viewer.calls) == map[]
    ensures LiveCalls(epoch, p.downloads.calls) == map[] && LiveCalls(epoch, p.jobs.polls) == map[]
    ensures LiveCalls(epoch, p.jobs.links) == map[] && LiveCalls(epoch, p.submission.calls) == map[]
  {
    LiveNone(p.session, epoch, p.board.next, p.board.calls);
    LiveNone(p.session, epoch, p.viewer.next, p.viewer.calls);
    LiveNone(p.session, epoch, p.downloads.next, p.downloads.calls);
    LiveNone(p.session, epoch, p.jobs.next, p.jobs.polls);
    LiveNone(p.session, epoch, p.jobs.next, p.jobs.links);
    LiveNone(p.session, epoch, p.submission.next, p.submission.calls);
  }

  lemma ExpireAlike(p: Page, q: Page)
    requires AllDated(p) && AllDated(q) && Alike(p, q)
    ensures Alike(Expire(p), Expire(q))
  {
    OutdatedCalls(p, p.session.epoch + 1);
    OutdatedCalls(q, q.session.epoch + 1);
  }

  lemma BeginAlike(p: Page, q: Page)
    requires AllDated(p) && AllDated(q) && Alike(p, q)
    ensures Alike(Begin(p), Begin(q))
  {
    OutdatedCalls(p, p.session.epoch + 1);
    OutdatedCalls(q, q.session.epoch + 1);
  }

  lemma RefuseAlike(p: Page, q: Page, epoch: nat, code: Code)
    requires AllDated(p) && AllDated(q) && Alike(p, q)
    ensures Alike(Refuse(p, epoch, code), Refuse(q, epoch, code))
  {
    ExpireAlike(p, q);
  }

  /** A call of this epoch is in flight on both pages or on neither. */
  lemma LiveAgree<C>(epoch: nat, a: map<Id, Request<C>>, b: map<Id, Request<C>>, id: Id)
    requires LiveCalls(epoch, a) == LiveCalls(epoch, b) && id in a && a[id].epoch == epoch
    ensures id in b && b[id] == a[id]
    ensures LiveCalls(epoch, a - {id}) == LiveCalls(epoch, b - {id})
  {
    assert id in LiveCalls(epoch, a);
    assert id in LiveCalls(epoch, b);
    LiveTake(epoch, a, id);
    LiveTake(epoch, b, id);
  }

  lemma FileAgree<C>(ss: Session, next: Id, a: map<Id, Request<C>>, b: map<Id, Request<C>>, call: C)
    requires LiveCalls(ss.epoch, a) == LiveCalls(ss.epoch, b)
    ensures LiveCalls(ss.epoch, File(ss, next, a, call)) == LiveCalls(ss.epoch, File(ss, next, b, call))
  {
    LiveFile(ss, next, a, call);
    LiveFile(ss, next, b, call);
  }

  // ---------------------------------------------------------------- one part at a time

  lemma BoardStartAlike(ss: Session, b: Board, c: Board, scope: Option<Text>, batch: nat)
    requires EraseBoard(ss.epoch, b) == EraseBoard(ss.epoch, c)
    ensures EraseBoard(ss.epoch, StartQuery(ss, b, scope, batch)) ==
      EraseBoard(ss.epoch, StartQuery(ss, c, scope, batch))
  {
    assert b == c.(calls := b.calls);
    var page := if batch != 0 && batch in b.cursors then b.cursors[batch] else None;
    FileAgree(ss, b.next, b.calls, c.calls, QueryCall(b.version + 1, scope, batch, page));
  }

  lemma BoardEndAlike(ss: Session, b: Board, c: Board, id: Id, rows: seq<Item>, cursor: Option<Cursor>)
    requires EraseBoard(ss.epoch, b) == EraseBoard(ss.epoch, c) && id in b.calls && b.calls[id].epoch == ss.epoch
    ensures id in c.calls && c.calls[id] == b.calls[id]
    ensures Wanted(ss, b, id) == Wanted(ss, c, id)
    ensures EraseBoard(ss.epoch, QueryArrives(ss, b, id, rows, cursor)) ==
      EraseBoard(ss.epoch, QueryArrives(ss, c, id, rows, cursor))
    ensures EraseBoard(ss.epoch, b.(calls := b.calls - {id})) == EraseBoard(ss.epoch, c.(calls := c.calls - {id}))
  {
    assert b == c.(calls := b.calls);
    assert LiveCalls(ss.epoch, b.calls) == LiveCalls(ss.epoch, c.calls);
    LiveAgree(ss.epoch, b.calls, c.calls, id);
  }

  lemma ViewerStartAlike(ss: Session, v: Viewer, w: Viewer, item: Item)
    requires EraseViewer(ss.epoch, v) == EraseViewer(ss.epoch, w)
    ensures EraseViewer(ss.epoch, StartPreview(ss, v, item)) == EraseViewer(ss.epoch, StartPreview(ss, w, item))
  {
    assert v == w.(calls := v.calls);
    FileAgree(ss, v.next, v.calls, w.calls, PreviewCall(v.version + 1, item.key));
  }

  lemma ViewerEndAlike(ss: Session, v: Viewer, w: Viewer, id: Id, url: Url)
    requires EraseViewer(ss.epoch, v) == EraseViewer(ss.epoch, w) && id in v.calls && v.calls[id].epoch == ss.epoch
    ensures id in w.calls && w.calls[id] == v.calls[id]
    ensures EraseViewer(ss.epoch, PreviewArrives(ss, v, id, url)) ==
      EraseViewer(ss.epoch, PreviewArrives(ss, w, id, url))
    ensures EraseViewer(ss.epoch, v.(calls := v.calls - {id})) == EraseViewer(ss.epoch, w.(calls := w.calls - {id}))
  {
    assert v == w.(calls := v.calls);
    assert LiveCalls(ss.epoch, v.calls) == LiveCalls(ss.epoch, w.calls);
    LiveAgree(ss.epoch, v.calls, w.calls, id);
  }

  lemma DownloadStartAlike(ss: Session, d: Downloads, f: Downloads, key: Key)
    requires EraseDownloads(ss.epoch, d) == EraseDownloads(ss.epoch, f)
    ensures EraseDownloads(ss.epoch, StartDownload(ss, d, key)) == EraseDownloads(ss.epoch, StartDownload(ss, f, key))
  {
    assert d == f.(calls := d.calls);
    FileAgree(ss, d.next, d.calls, f.calls, key);
  }

  lemma DownloadEndAlike(ss: Session, d: Downloads, f: Downloads, id: Id, notice: Notice)
    requires EraseDownloads(ss.epoch, d) == EraseDownloads(ss.epoch, f) && id in d.calls
    requires d.calls[id].epoch == ss.epoch
    ensures id in f.calls && f.calls[id] == d.calls[id]
    ensures EraseDownloads(ss.epoch, EndDownload(ss, d, id, notice)) ==
      EraseDownloads(ss.epoch, EndDownload(ss, f, id, notice))
    ensures EraseDownloads(ss.epoch, d.(calls := d.calls - {id})) ==
      EraseDownloads(ss.epoch, f.(calls := f.calls - {id}))
  {
    assert d == f.(calls := d.calls);
    assert LiveCalls(ss.epoch, d.calls) == LiveCalls(ss.epoch, f.calls);
    LiveAgree(ss.epoch, d.calls, f.calls, id);
  }

  lemma SubmitStartAlike(ss: Session, u: Submission, v: Submission, selection: seq<Key>, anew: bool)
    requires EraseSubmission(ss.epoch, u) == EraseSubmission(ss.epoch, v)
    ensures StartSubmit(ss, u, selection, anew).attempt == StartSubmit(ss, v, selection, anew).attempt
    ensures EraseSubmission(ss.epoch, StartSubmit(ss, u, selection, anew)) ==
      EraseSubmission(ss.epoch, StartSubmit(ss, v, selection, anew))
  {
    assert u == v.(calls := u.calls, sent := u.sent, made := u.made);
    FileAgree(ss, u.next + 1, u.calls, v.calls, CallOf(AttemptFor(u, selection, anew)));
  }

  lemma SubmitEndAlike(ss: Session, u: Submission, v: Submission, id: Id, task: Id)
    requires EraseSubmission(ss.epoch, u) == EraseSubmission(ss.epoch, v) && id in u.calls
    requires u.calls[id].epoch == ss.epoch
    ensures id in v.calls && v.calls[id] == u.calls[id]
    ensures EraseSubmission(ss.epoch, SubmitArrives(ss, u, id, task)) ==
      EraseSubmission(ss.epoch, SubmitArrives(ss, v, id, task))
    ensures EraseSubmission(ss.epoch, u.(calls := u.calls - {id})) ==
      EraseSubmission(ss.epoch, v.(calls := v.calls - {id}))
  {
    assert u == v.(calls := u.calls, sent := u.sent, made := u.made);
    assert LiveCalls(ss.epoch, u.calls) == LiveCalls(ss.epoch, v.calls);
    LiveAgree(ss.epoch, u.calls, v.calls, id);
  }

  /** Jobs that differ in their calls only. */
  predicate SameJobs(j: Jobs, k: Jobs) { j == k.(polls := j.polls, links := j.links) }

  predicate JobsAlike(epoch: nat, j: Jobs, k: Jobs) { EraseJobs(epoch, j) == EraseJobs(epoch, k) }

  lemma JobsParts(epoch: nat, j: Jobs, k: Jobs)
    ensures JobsAlike(epoch, j, k) <==>
      SameJobs(j, k) && LiveCalls(epoch, j.polls) == LiveCalls(epoch, k.polls)
        && LiveCalls(epoch, j.links) == LiveCalls(epoch, k.links)
  {
    var a, b := EraseJobs(epoch, j), EraseJobs(epoch, k);
    if a == b {
      assert a.polls == b.polls && a.links == b.links;
    }
  }

  lemma PollStartAlike(ss: Session, j: Jobs, k: Jobs, t: Id)
    requires JobsAlike(ss.epoch, j, k) && t in j.tasks
    ensures t in k.tasks && JobsAlike(ss.epoch, StartPoll(ss, j, t), StartPoll(ss, k, t))
  {
    JobsParts(ss.epoch, j, k);
    FileAgree(ss, j.next, j.polls, k.polls, t);
    JobsParts(ss.epoch, StartPoll(ss, j, t), StartPoll(ss, k, t));
  }

  lemma TimerAlike(ss: Session, j: Jobs, k: Jobs, h: Id)
    requires JobsAlike(ss.epoch, j, k) && h in j.live
    ensures h in k.live && JobsAlike(ss.epoch, FireTimer(ss, j, h), FireTimer(ss, k, h))
  {
    JobsParts(ss.epoch, j, k);
    var t := j.live[h];
    var d := j.(timers := j.timers - {t}, live := j.live - {h});
    var f := k.(timers := k.timers - {t}, live := k.live - {h});
    JobsParts(ss.epoch, d, f);
    if t in j.tasks {
      PollStartAlike(ss, d, f, t);
    }
  }

  lemma PollEndAlike(ss: Session, j: Jobs, k: Jobs, id: Id, status: TaskStatus, errorCode: Option<Code>)
    requires JobsAlike(ss.epoch, j, k) && id in j.polls && j.polls[id].epoch == ss.epoch
    ensures id in k.polls && k.polls[id] == j.polls[id]
    ensures JobsAlike(ss.epoch, PollArrives(ss, j, id, status, errorCode), PollArrives(ss, k, id, status, errorCode))
    ensures JobsAlike(ss.epoch, j.(polls := j.polls - {id}), k.(polls := k.polls - {id}))
  {
    JobsParts(ss.epoch, j, k);
    LiveAgree(ss.epoch, j.polls, k.polls, id);
    JobsParts(ss.epoch, j.(polls := j.polls - {id}), k.(polls := k.polls - {id}));
    JobsParts(ss.epoch, PollArrives(ss, j, id, status, errorCode), PollArrives(ss, k, id, status, errorCode));
  }

  lemma LinkStartAlike(ss: Session, j: Jobs, k: Jobs, t: Id)
    requires JobsAlike(ss.epoch, j, k) && t in j.tasks
    ensures t in k.tasks && JobsAlike(ss.epoch, StartLink(ss, j, t), StartLink(ss, k, t))
  {
    JobsParts(ss.epoch, j, k);
    FileAgree(ss, j.next, j.links, k.links, t);
    JobsParts(ss.epoch, StartLink(ss, j, t), StartLink(ss, k, t));
  }

  lemma LinkEndAlike(ss: Session, j: Jobs, k: Jobs, id: Id, expiresAt: Option<Text>)
    requires JobsAlike(ss.epoch, j, k) && id in j.links && j.links[id].epoch == ss.epoch
    ensures id in k.links && k.links[id] == j.links[id]
    ensures JobsAlike(ss.epoch, LinkArrives(ss, j, id, expiresAt), LinkArrives(ss, k, id, expiresAt))
    ensures JobsAlike(ss.epoch, j.(links := j.links - {id}), k.(links := k.links - {id}))
  {
    JobsParts(ss.epoch, j, k);
    LiveAgree(ss.epoch, j.links, k.links, id);
    JobsParts(ss.epoch, j.(links := j.links - {id}), k.(links := k.links - {id}));
    JobsParts(ss.epoch, LinkArrives(ss, j, id, expiresAt), LinkArrives(ss, k, id, expiresAt));
  }

  lemma JobsFailAlike(ss: Session, j: Jobs, k: Jobs, r: Request<Id>, code: Code)
    requires JobsAlike(ss.epoch, j, k)
    ensures JobsAlike(ss.epoch, PollFails(ss, j, r, code), PollFails(ss, k, r, code))
    ensures JobsAlike(ss.epoch, LinkFails(ss, j, r, code), LinkFails(ss, k, r, code))
  {
    JobsParts(ss.epoch, j, k);
    JobsParts(ss.epoch, PollFails(ss, j, r, code), PollFails(ss, k, r, code));
    JobsParts(ss.epoch, LinkFails(ss, j, r, code), LinkFails(ss, k, r, code));
  }

  lemma AddTaskAlike(ss: Session, j: Jobs, k: Jobs, task: Task)
    requires JobsAlike(ss.epoch, j, k)
    ensures JobsAlike(ss.epoch, AddTask(ss, j, task), AddTask(ss, k, task))
  {
    JobsParts(ss.epoch, j, k);
    JobsParts(ss.epoch, AddTask(ss, j, task), AddTask(ss, k, task));
  }

  lemma {:induction false} QueuePollsSame(j: Jobs, k: Jobs, ids: seq<Id>)
    requires SameJobs(j, k)
    ensures SameJobs(QueuePolls(j, ids), QueuePolls(k, ids))
    ensures QueuePolls(j, ids).polls == j.polls && QueuePolls(j, ids).links == j.links
    ensures QueuePolls(k, ids).polls == k.polls && QueuePolls(k, ids).links == k.links
    decreases |ids|
  {
    if ids != [] {
      var d := if ids[0] in j.tasks && Pending(j.tasks[ids[0]]) then QueuePoll(true, j, ids[0]) else j;
      var f := if ids[0] in k.tasks && Pending(k.tasks[ids[0]]) then QueuePoll(true, k, ids[0]) else k;
      QueuePollsSame(d, f, ids[1..]);
    }
  }

  // ---------------------------------------------------------------- the whole page

  lemma FinishAlike(p: Page, q: Page, results: seq<Item>)
    requires Alike(p, q)
    ensures Alike(Finish(p, results), Finish(q, results))
  {
    JobsParts(p.session.epoch, p.jobs, q.jobs);
    QueuePollsSame(p.jobs, q.jobs, p.jobs.order);
    JobsParts(p.session.epoch, Finish(p, results).jobs, Finish(q, results).jobs);
  }

  lemma NextCheckAlike(limits: Limits, p: Page, q: Page, all: seq<Key>, start: nat, results: seq<Item>)
    requires Alike(p, q) && start <= |all|
    ensures Alike(NextCheck(limits, p, all, start, results), NextCheck(limits, q, all, start, results))
  {
    if start == |all| {
      FinishAlike(p, q, results);
    }
  }

  lemma ForgetAlike(p: Page, q: Page)
    requires Alike(p, q)
    ensures Alike(Forget(p), Forget(q))
  {
    JobsParts(p.session.epoch, p.jobs, q.jobs);
    JobsParts(p.session.epoch, ForgetJobs(p.jobs), ForgetJobs(q.jobs));
    assert p.board == q.board.(calls := p.board.calls);
    assert LiveCalls(p.session.epoch, p.board.calls) == EraseBoard(p.session.epoch, p.board).calls;
    assert LiveCalls(p.session.epoch, q.board.calls) == EraseBoard(p.session.epoch, q.board).calls;
    assert LiveCalls(p.session.epoch, p.submission.calls) == EraseSubmission(p.session.epoch, p.submission).calls;
    assert LiveCalls(p.session.epoch, q.submission.calls) == EraseSubmission(p.session.epoch, q.submission).calls;
    assert LiveCalls(p.session.epoch, p.downloads.calls) == EraseDownloads(p.session.epoch, p.downloads).calls;
    assert LiveCalls(p.session.epoch, q.downloads.calls) == EraseDownloads(p.session.epoch, q.downloads).calls;
  }

  lemma AdoptAlike(limits: Limits, p: Page, q: Page, context: Context)
    requires Alike(p, q)
    ensures Alike(AdoptContext(limits, p, context), AdoptContext(limits, q, context))
  {
    ForgetAlike(p, q);
    var a := if SameEmployee(p.session.identity, context.identity) then p else Forget(p);
    var b := if SameEmployee(q.session.identity, context.identity) then q else Forget(q);
    var t := a.session.(identity := context.identity, csrfToken := context.csrfToken);
    NextCheckAlike(limits, a.(session := t, selected := Reconcile(a.selected, [])),
                   b.(session := t, selected := Reconcile(b.selected, [])), Listing(a.selected), 0, []);
  }

  lemma SessionAlike(p: Page, q: Page, t: Session)
    requires Alike(p, q) && t.epoch == p.session.epoch
    ensures Alike(p.(session := t), q.(session := t))
  {
  }

  lemma SessionDated(p: Page, t: Session)
    requires AllDated(p) && Moved(p.session, t)
    ensures AllDated(p.(session := t))
  {
  }

  lemma ResumeAlike(p: Page, q: Page, passive: bool)
    requires AllDated(p) && AllDated(q) && Alike(p, q)
    ensures Alike(Resume(p, passive), Resume(q, passive))
  {
    var t := p.session.(recovery := InRecovery);
    SessionAlike(p, q, t);
    SessionDated(p, t);
    SessionDated(q, t);
    var a, b := p.(session := t), q.(session := t);
    BeginAlike(a, b);
    SessionAlike(Begin(a), Begin(b), FileRecovery(Begin(a).session, FullContext));
    SessionAlike(a, b, FileRecovery(t, PassiveContext));
  }

  lemma ContextAlike(limits: Limits, p: Page, q: Page, id: Id, context: Context)
    requires AllDated(p) && AllDated(q) && Alike(p, q) && id in p.session.calls
    ensures Alike(ContextArrives(limits, p, id, context), ContextArrives(limits, q, id, context))
  {
    var r, t := p.session.calls[id], TakeRecovery(p.session, id);
    SessionAlike(p, q, t);
    var a, b := p.(session := t), q.(session := t);
    if r.call.PassiveContext? {
      if r.epoch != p.session.epoch {
        SessionAlike(a, b, EndPassive(t));
      } else if SameEmployee(p.session.identity, context.identity) && p.session.csrfToken == context.csrfToken {
        SessionAlike(a, b, EndPassive(t).(error := None));
      } else {
        SessionDated(p, t);
        SessionDated(q, t);
        BeginAlike(a, b);
        AdoptAlike(limits, Begin(a), Begin(b), context);
      }
    } else if r.epoch != p.session.epoch {
      SessionAlike(a, b, EndRecovery(t));
    } else {
      AdoptAlike(limits, a, b, context);
    }
  }

  lemma CheckAlike(limits: Limits, p: Page, q: Page, id: Id, items: seq<Item>, cursor: Option<Cursor>)
    requires Alike(p, q) && id in p.session.calls && p.session.calls[id].call.Check?
    requires p.session.calls[id].call.end <= |p.session.calls[id].call.all|
    ensures Alike(CheckArrives(limits, p, id, items, cursor), CheckArrives(limits, q, id, items, cursor))
  {
    var r, t := p.session.calls[id], TakeRecovery(p.session, id);
    SessionAlike(p, q, t);
    var a, b := p.(session := t), q.(session := t);
    if r.epoch != p.session.epoch {
      SessionAlike(a, b, EndRecovery(t));
    } else if cursor.Some? {
      SessionAlike(a, b, FileRecovery(t, r.call.(cursor := cursor, results := r.call.results + items)));
    } else {
      NextCheckAlike(limits, a, b, r.call.all, r.call.end, r.call.results + items);
    }
  }

  lemma RecoveryFailAlike(p: Page, q: Page, id: Id, code: Code)
    requires AllDated(p) && AllDated(q) && Alike(p, q) && id in p.session.calls
    ensures Alike(RecoveryFails(p, id, code), RecoveryFails(q, id, code))
  {
    RecoveryFailsForm(p, id, code);
    RecoveryFailsForm(q, id, code);
    var r, t := p.session.calls[id], TakeRecovery(p.session, id);
    var ended := if r.call.PassiveContext? then EndPassive(t) else EndRecovery(t);
    SessionAlike(p, q, ended.(error := Some(code)));
    SessionAlike(p, q, ended.(error := p.session.error));
    if r.epoch == p.session.epoch && SignInCode(code) {
      EndedDated(p, ended.(error := p.session.error));
      EndedDated(q, ended.(error := p.session.error));
      ExpireAlike(p.(session := ended.(error := p.session.error)), q.(session := ended.(error := p.session.error)));
    }
  }

  /** Ending a recovery may only sign the page in, never out. */
  lemma EndedDated(p: Page, t: Session)
    requires AllDated(p) && t.epoch == p.session.epoch && t.identity == p.session.identity
    requires SignedIn(p.session) ==> SignedIn(t)
    ensures AllDated(p.(session := t))
  {
  }

  lemma PageDated(p: Page)
    requires PageOk(p)
    ensures AllDated(p)
  {
  }

  // ---------------------------------------------------------------- failures of live calls

  lemma BoardFailAlike(ss: Session, b: Board, c: Board, r: Request<QueryCall>, code: Code)
    requires EraseBoard(ss.epoch, b) == EraseBoard(ss.epoch, c)
    ensures EraseBoard(ss.epoch, QueryFails(ss, b, r, code)) == EraseBoard(ss.epoch, QueryFails(ss, c, r, code))
  {
    assert b == c.(calls := b.calls);
    assert LiveCalls(ss.epoch, b.calls) == EraseBoard(ss.epoch, b).calls == LiveCalls(ss.epoch, c.calls);
  }

  lemma ViewerFailAlike(ss: Session, v: Viewer, w: Viewer, r: Request<PreviewCall>, code: Code)
    requires EraseViewer(ss.epoch, v) == EraseViewer(ss.epoch, w)
    ensures EraseViewer(ss.epoch, PreviewFails(ss, v, r, code)) == EraseViewer(ss.epoch, PreviewFails(ss, w, r, code))
  {
    assert v == w.(calls := v.calls);
    assert LiveCalls(ss.epoch, v.calls) == EraseViewer(ss.epoch, v).calls == LiveCalls(ss.epoch, w.calls);
  }

  lemma SubmissionFailAlike(ss: Session, u: Submission, v: Submission, r: Request<SubmitCall>, code: Code)
    requires EraseSubmission(ss.epoch, u) == EraseSubmission(ss.epoch, v)
    ensures EraseSubmission(ss.epoch, SubmitFails(ss, u, r, code)) ==
      EraseSubmission(ss.epoch, SubmitFails(ss, v, r, code))
  {
    assert u == v.(calls := u.calls, sent := u.sent, made := u.made);
    assert LiveCalls(ss.epoch, u.calls) == EraseSubmission(ss.epoch, u).calls == LiveCalls(ss.epoch, v.calls);
  }

  lemma QueryFailAlike(p: Page, q: Page, id: Id, code: Code)
    requires AllDated(p) && AllDated(q) && Alike(p, q) && id in p.board.calls
    requires p.board.calls[id].epoch == p.session.epoch
    ensures id in q.board.calls && Alike(QueryFailed(p, id, code), QueryFailed(q, id, code))
  {
    BoardEndAlike(p.session, p.board, q.board, id, [], None);
    var a, b := p.(board := p.board.(calls := p.board.calls - {id})),
            q.(board := q.board.(calls := q.board.calls - {id}));
    var r := p.board.calls[id];
    RefuseAlike(a, b, r.epoch, code);
    var c, d := Refuse(a, r.epoch, code), Refuse(b, r.epoch, code);
    BoardFailAlike(c.session, c.board, d.board, r, code);
  }

  lemma PreviewFailAlike(p: Page, q: Page, id: Id, code: Code)
    requires AllDated(p) && AllDated(q) && Alike(p, q) && id in p.viewer.calls
    requires p.viewer.calls[id].epoch == p.session.epoch
    ensures id in q.viewer.calls && Alike(PreviewFailed(p, id, code), PreviewFailed(q, id, code))
  {
    ViewerEndAlike(p.session, p.viewer, q.viewer, id, []);
    var a, b := p.(viewer := p.viewer.(calls := p.viewer.calls - {id})),
            q.(viewer := q.viewer.(calls := q.viewer.calls - {id}));
    var r := p.viewer.calls[id];
    RefuseAlike(a, b, r.epoch, code);
    var c, d := Refuse(a, r.epoch, code), Refuse(b, r.epoch, code);
    ViewerFailAlike(c.session, c.viewer, d.viewer, r, code);
  }

  lemma DownloadFailAlike(p: Page, q: Page, id: Id, code: Code)
    requires AllDated(p) && AllDated(q) && Alike(p, q) && id in p.downloads.calls
    requires p.downloads.calls[id].epoch == p.session.epoch
    ensures id in q.downloads.calls && Alike(DownloadFailed(p, id, code), DownloadFailed(q, id, code))
  {
    DownloadEndAlike(p.session, p.downloads, q.downloads, id, Failed(code));
    ExpireAlike(p.(downloads := p.downloads.(calls := p.downloads.calls - {id})),
      q.(downloads := q.downloads.(calls := q.downloads.calls - {id})));
  }

  lemma StatusFailAlike(p: Page, q: Page, id: Id, code: Code)
    requires AllDated(p) && AllDated(q) && Alike(p, q) && id in p.jobs.polls
    requires p.jobs.polls[id].epoch == p.session.epoch
    ensures id in q.jobs.polls && Alike(StatusFailed(p, id, code), StatusFailed(q, id, code))
  {
    PollEndAlike(p.session, p.jobs, q.jobs, id, Queued, None);
    var a, b := p.(jobs := p.jobs.(polls := p.jobs.polls - {id})), q.(jobs := q.jobs.(polls := q.jobs.polls - {id}));
    var r := p.jobs.polls[id];
    RefuseAlike(a, b, r.epoch, code);
    JobsFailAlike(Refuse(a, r.epoch, code).session, Refuse(a, r.epoch, code).jobs, Refuse(b, r.epoch, code).jobs, r,
      code);
  }

  lemma LinkFailAlike(p: Page, q: Page, id: Id, code: Code)
    requires AllDated(p) && AllDated(q) && Alike(p, q) && id in p.jobs.links
    requires p.jobs.links[id].epoch == p.session.epoch
    ensures id in q.jobs.links && Alike(LinkFailed(p, id, code), LinkFailed(q, id, code))
  {
    LinkEndAlike(p.session, p.jobs, q.jobs, id, None);
    var a, b := p.(jobs := p.jobs.(links := p.jobs.links - {id})), q.(jobs := q.jobs.(links := q.jobs.links - {id}));
    var r := p.jobs.links[id];
    RefuseAlike(a, b, r.epoch, code);
    JobsFailAlike(Refuse(a, r.epoch, code).session, Refuse(a, r.epoch, code).jobs, Refuse(b, r.epoch, code).jobs, r,
      code);
  }

  lemma SubmitFailAlike(p: Page, q: Page, id: Id, code: Code)
    requires AllDated(p) && AllDated(q) && Alike(p, q) && id in p.submission.calls
    requires p.submission.calls[id].epoch == p.session.epoch
    ensures id in q.submission.calls && Alike(SubmitFailed(p, id, code), SubmitFailed(q, id, code))
  {
    SubmitEndAlike(p.session, p.submission, q.submission, id, 0);
    var a := p.(submission := p.submission.(calls := p.submission.calls - {id}));
    var b := q.(submission := q.submission.(calls := q.submission.calls - {id}));
    var r := p.submission.calls[id];
    RefuseAlike(a, b, r.epoch, code);
    var c, d := Refuse(a, r.epoch, code), Refuse(b, r.epoch, code);
    SubmissionFailAlike(c.session, c.submission, d.submission, r, code);
  }

  // ---------------------------------------------------------------- every live event

  lemma SubmitAlike(limits: Limits, p: Page, q: Page, anew: bool)
    requires Alike(p, q) && WellKept(p.selected)
    ensures Alike(Submit(limits, p, anew), Submit(limits, q, anew))
  {
    assert p.submission.submitting == EraseSubmission(p.session.epoch, p.submission).submitting
           == EraseSubmission(p.session.epoch, q.submission).submitting == q.submission.submitting;
    SubmitStartAlike(p.session, p.submission, q.submission, Listing(p.selected), anew);
    var active := StartSubmit(p.session, p.submission, Listing(p.selected), anew).attempt.value.task;
    JobsParts(p.session.epoch, p.jobs, q.jobs);
    JobsParts(p.session.epoch, p.jobs.(active := active), q.jobs.(active := active));
  }

  lemma SubmitCameAlike(p: Page, q: Page, id: Id, requestId: Text, status: TaskStatus)
    requires Alike(p, q) && id in p.submission.calls && p.submission.calls[id].epoch == p.session.epoch
    ensures id in q.submission.calls
    ensures Alike(SubmitCame(p, id, requestId, status), SubmitCame(q, id, requestId, status))
  {
    JobsParts(p.session.epoch, p.jobs, q.jobs);
    SubmitEndAlike(p.session, p.submission, q.submission, id, p.jobs.next);
    AddTaskAlike(p.session, p.jobs, q.jobs,
                 Task(requestId, status, p.submission.calls[id].call.selection, false, false, None, false, None));
  }

  lemma ActionAlike(limits: Limits, p: Page, q: Page, e: Event)
    requires WellKept(p.selected) && Alike(p, q) && Enabled(p, e)
    requires e.OnQuery? || e.OnPreview? || e.OnClosePreview? || e.OnDownload? || e.OnPoll? || e.OnLink? || e.OnTimer?
    ensures Enabled(q, e) && Alike(Step(limits, p, e), Step(limits, q, e))
  {
    match e
    case OnQuery(scope, batch) => BoardStartAlike(p.session, p.board, q.board, scope, batch);
    case OnPreview(item) => ViewerStartAlike(p.session, p.viewer, q.viewer, item);
    case OnClosePreview =>
      assert p.viewer == q.viewer.(calls := p.viewer.calls);
      assert LiveCalls(p.session.epoch, p.viewer.calls) == EraseViewer(p.session.epoch, p.viewer).calls ==
        LiveCalls(p.session.epoch, q.viewer.calls);
    case OnDownload(item) =>
      DownloadStartAlike(p.session, p.downloads, q.downloads, item.key);
      assert p.downloads == q.downloads.(calls := p.downloads.calls);
    case OnPoll(t) => PollStartAlike(p.session, p.jobs, q.jobs, t);
    case OnLink(t) => LinkStartAlike(p.session, p.jobs, q.jobs, t);
    case OnTimer(h) => TimerAlike(p.session, p.jobs, q.jobs, h);
  }

  lemma AnswerAlike(limits: Limits, p: Page, q: Page, e: Event)
    requires WellKept(p.selected) && Alike(p, q) && Enabled(p, e) && !Late(p, e)
    requires e.GotRows? || e.GotPreview? || e.GotDownload? || e.GotStatus? || e.GotLink?
    ensures Enabled(q, e) && Alike(Step(limits, p, e), Step(limits, q, e))
  {
    match e
    case GotRows(id, rows, cursor) => BoardEndAlike(p.session, p.board, q.board, id, rows, cursor);
    case GotPreview(id, url) => ViewerEndAlike(p.session, p.viewer, q.viewer, id, url);
    case GotDownload(id, url) => DownloadEndAlike(p.session, p.downloads, q.downloads, id, DownloadStarted);
    case GotStatus(id, status, errorCode) => PollEndAlike(p.session, p.jobs, q.jobs, id, status, errorCode);
    case GotLink(id, url, expiresAt) => LinkEndAlike(p.session, p.jobs, q.jobs, id, expiresAt);
  }

  lemma FailureAlike(limits: Limits, p: Page, q: Page, e: Event)
    requires WellKept(p.selected) && AllDated(p) && AllDated(q) && Alike(p, q) && Enabled(p, e) && !Late(p, e)
    requires e.QueryFailure? || e.PreviewFailure? || e.DownloadFailure? || e.StatusFailure? || e.SubmitFailure?
      || e.LinkFailure?
    ensures Enabled(q, e) && Alike(Step(limits, p, e), Step(limits, q, e))
  {
    match e
    case QueryFailure(id, code) => QueryFailAlike(p, q, id, code);
    case PreviewFailure(id, code) => PreviewFailAlike(p, q, id, code);
    case DownloadFailure(id, code) => DownloadFailAlike(p, q, id, code);
    case StatusFailure(id, code) => StatusFailAlike(p, q, id, code);
    case SubmitFailure(id, code) => SubmitFailAlike(p, q, id, code);
    case LinkFailure(id, code) => LinkFailAlike(p, q, id, code);
  }

  lemma LiveAlike(limits: Limits, p: Page, q: Page, e: Event)
    requires PageOk(p) && PageOk(q) && Alike(p, q) && Enabled(p, e) && !Late(p, e)
    ensures Enabled(q, e) && Alike(Step(limits, p, e), Step(limits, q, e))
  {
    PageDated(p);
    PageDated(q);
    match e
    case OnResume(passive) => ResumeAlike(p, q, passive);
    case OnSettled => SessionAlike(p, q, p.session.(recovery := NoRecovery));
    case OnExpire => ExpireAlike(p, q);
    case OnSubmit(anew) => SubmitAlike(limits, p, q, anew);
    case OnSelect(_, _) =>
    case OnSelectBatch(_, _) =>
    case OnClearSelection =>
    case GotContext(id, context) => ContextAlike(limits, p, q, id, context);
    case GotCheck(id, answers, cursor) => CheckAlike(limits, p, q, id, answers, cursor);
    case GotTask(id, requestId, status) => SubmitCameAlike(p, q, id, requestId, status);
    case RecoveryFailure(id, code) => RecoveryFailAlike(p, q, id, code);
    case _ =>
      if e.QueryFailure? || e.PreviewFailure? || e.DownloadFailure? || e.StatusFailure? || e.SubmitFailure?
        || e.LinkFailure? {
        FailureAlike(limits, p, q, e);
      } else if e.GotRows? || e.GotPreview? || e.GotDownload? || e.GotStatus? || e.GotLink? {
        AnswerAlike(limits, p, q, e);
      } else {
        ActionAlike(limits, p, q, e);
      }
  }

  // ---------------------------------------------------------------- runs

  /** The events of a run without the late answers and failures. */
  ghost function OnTime(limits: Limits, p: Page, events: seq<Event>): seq<Event>
    requires PageOk(p) && IsRun(limits, p, events)
    decreases |events|
  {
    if events == [] then []
    else
      StepOk(limits, p, events[0]);
      var rest := OnTime(limits, Step(limits, p, events[0]), events[1..]);
      if Late(p, events[0]) then rest else [events[0]] + rest
  }

  lemma OnTimeStep(limits: Limits, p: Page, events: seq<Event>)
    requires PageOk(p) && IsRun(limits, p, events) && events != []
    ensures Enabled(p, events[0]) && PageOk(Step(limits, p, events[0]))
    ensures IsRun(limits, Step(limits, p, events[0]), events[1..])
    ensures var rest := OnTime(limits, Step(limits, p, events[0]), events[1..]);
      OnTime(limits, p, events) == if Late(p, events[0]) then rest else [events[0]] + rest
    ensures After(limits, p, events) == After(limits, Step(limits, p, events[0]), events[1..])
  {
    StepOk(limits, p, events[0]);
  }

  /** After a late step the page is still like the other one. */
  lemma LateStepAlike(limits: Limits, p: Page, q: Page, e: Event)
    requires PageOk(p) && PageOk(q) && Alike(p, q) && Enabled(p, e) && Late(p, e)
    ensures Alike(Step(limits, p, e), q)
  {
    LateTakesOff(limits, p, e);
    LateAlike(p, e);
  }

  /** Isolation: a page that differs only in calls of earlier epochs goes through
      the same states, and late answers might as well never have come. */
  lemma {:induction false} Isolation(limits: Limits, p: Page, q: Page, events: seq<Event>)
    requires PageOk(p) && PageOk(q) && Alike(p, q) && IsRun(limits, p, events)
    ensures IsRun(limits, q, OnTime(limits, p, events))
    ensures Alike(After(limits, p, events), After(limits, q, OnTime(limits, p, events)))
    decreases |events|
  {
    if events != [] {
      var e, next := events[0], Step(limits, p, events[0]);
      OnTimeStep(limits, p, events);
      if Late(p, e) {
        LateStepAlike(limits, p, q, e);
        Isolation(limits, next, q, events[1..]);
      } else {
        LiveAlike(limits, p, q, e);
        StepOk(limits, q, e);
        Isolation(limits, next, Step(limits, q, e), events[1..]);
        var rest := OnTime(limits, next, events[1..]);
        assert ([e] + rest)[1..] == rest;
        RunStep(limits, q, [e] + rest);
        AfterStep(limits, q, [e] + rest);
      }
    }
  }

  /** A page that starts afresh with the given session, counters and query error. */
  function Afresh(p: Page): Page {
    START.(session := p.session,
           board := START.board.(version := p.board.version, next := p.board.next, queryError := p.board.queryError),
           viewer := START.viewer.(version := p.viewer.version, next := p.viewer.next),
           downloads := START.downloads.(next := p.downloads.next),
           jobs := START.jobs.(next := p.jobs.next),
           submission := START.submission.(next := p.submission.next))
  }

  lemma FreshOk(p: Page)
    requires SessionOk(p.session) && SignedIn(p.session) && p.session.calls == map[]
    ensures PageOk(Afresh(p))
  {
  }

  /** What remains once the new employee is adopted and the (empty) selection checked. */
  lemma ForgottenIsFresh(limits: Limits, p: Page, context: Context)
    requires MidRecovery(p) && !SameEmployee(p.session.identity, context.identity)
    ensures var s := AdoptContext(limits, p, context);
      && Alike(s, Afresh(s)) && s.session.identity == context.identity && SignedIn(s.session)
      && s.session.calls == map[]
  {
    ForgottenParts(p);
    var s := AdoptContext(limits, p, context);
    assert Listing(EMPTY) == [];
    assert Reconcile(EMPTY, []) == EMPTY;
    assert s.jobs == ForgetJobs(p.jobs);
  }

  lemma ForgottenParts(p: Page)
    requires MidRecovery(p)
    ensures var epoch := p.session.epoch;
      && LiveCalls(epoch, p.board.calls) == map[] && LiveCalls(epoch, p.viewer.calls) == map[]
      && LiveCalls(epoch, p.downloads.calls) == map[] && LiveCalls(epoch, p.jobs.polls) == map[]
      && LiveCalls(epoch, p.jobs.links) == map[] && LiveCalls(epoch, p.submission.calls) == map[]
    ensures !p.board.querying && p.downloads.busy == {} && !p.submission.submitting
    ensures p.jobs.timers == map[] == p.jobs.live && p.viewer.preview.None?
  {
    assert !SignedIn(p.session);
    LiveAreTimers(p.jobs);
  }

  /** When a context names another employee, nothing of the old one stays but the
      last query's error code: the page is alike to one that starts afresh. */
  lemma SwitchStartsAfresh(limits: Limits, p: Page, id: Id, context: Context)
    requires PageOk(p) && id in p.session.calls && !p.session.calls[id].call.Check?
    requires p.session.calls[id].epoch == p.session.epoch && !SameEmployee(p.session.identity, context.identity)
    ensures var s := ContextArrives(limits, p, id, context);
      && PageOk(s) && PageOk(Afresh(s)) && Alike(s, Afresh(s))
      && s.session.identity == context.identity && SignedIn(s.session)
  {
    var q := p.(session := TakeRecovery(p.session, id));
    ContextArrivesOk(limits, p, id, context);
    if p.session.calls[id].call.PassiveContext? {
      NoneLeft(p.session, id);
      PartsMoved(p.session, q.session, q);
      BeginParts(q);
      ForgottenIsFresh(limits, Begin(q), context);
    } else {
      MidOk(p, id);
      ForgottenIsFresh(limits, q, context);
    }
    FreshOk(ContextArrives(limits, p, id, context));
  }

  /** Every call the page still listens to was issued by the employee now signed in. */
  ghost predicate CallsOwn(p: Page) {
    && IssuedBy(p.session, p.board.calls) && IssuedBy(p.session, p.viewer.calls)
    && IssuedBy(p.session, p.downloads.calls)
    && IssuedBy(p.session, p.jobs.polls) && IssuedBy(p.session, p.jobs.links) && IssuedBy(p.session, p.submission.calls)
    && IssuedBy(p.session, p.session.calls)
  }

  ghost predicate IssuedBy<C>(ss: Session, calls: map<Id, Request<C>>) {
    forall i | i in calls && calls[i].epoch == ss.epoch :: calls[i].issuer == ss.identity
  }

  lemma PageCallsOwn(p: Page)
    requires PageOk(p)
    ensures CallsOwn(p)
  {
    PageDated(p);
  }

  /** No context of this epoch names another employee during the run. */
  ghost predicate NoSwitch(limits: Limits, p: Page, events: seq<Event>)
    requires PageOk(p) && IsRun(limits, p, events)
    decreases |events|
  {
    events == [] ||
    (StepOk(limits, p, events[0]);
     && (events[0].GotContext? && p.session.calls[events[0].id].epoch == p.session.epoch ==>
           SameEmployee(p.session.identity, events[0].context.identity))
     && NoSwitch(limits, Step(limits, p, events[0]), events[1..]))
  }

  lemma FailureKeepsEmployee(limits: Limits, p: Page, e: Event)
    requires PageOk(p) && Enabled(p, e) && (e.QueryFailure? || e.PreviewFailure? || e.DownloadFailure?
      || e.StatusFailure? || e.SubmitFailure? || e.LinkFailure? || e.RecoveryFailure?)
    ensures Step(limits, p, e).session.identity == p.session.identity
  {
    hide PageOk, QueryFails, PreviewFails, EndDownload, PollFails, LinkFails, SubmitFails, OutdateBoard, ClosePreview,
      Release, Held, StopTimers, StopSubmit, StopDownloads;
  }

  lemma ContextKeepsEmployee(limits: Limits, p: Page, id: Id, context: Context)
    requires id in p.session.calls
    requires p.session.calls[id].epoch == p.session.epoch ==> SameEmployee(p.session.identity, context.identity)
    ensures SameEmployee(p.session.identity, ContextArrives(limits, p, id, context).session.identity)
  {
  }

  /** Only a context of this epoch changes who is signed in. */
  lemma StepKeepsEmployee(limits: Limits, p: Page, e: Event)
    requires PageOk(p) && Enabled(p, e)
    requires e.GotContext? && p.session.calls[e.id].epoch == p.session.epoch ==>
      SameEmployee(p.session.identity, e.context.identity)
    ensures SameEmployee(p.session.identity, Step(limits, p, e).session.identity)
  {
    if e.GotContext? {
      ContextKeepsEmployee(limits, p, e.id, e.context);
    } else if e.QueryFailure? || e.PreviewFailure? || e.DownloadFailure? || e.StatusFailure? || e.SubmitFailure?
              || e.LinkFailure? || e.RecoveryFailure? {
      FailureKeepsEmployee(limits, p, e);
    }
  }

  lemma NoSwitchStep(limits: Limits, p: Page, events: seq<Event>) returns (next: Page)
    requires PageOk(p) && IsRun(limits, p, events) && events != [] && NoSwitch(limits, p, events)
    ensures PageOk(next) && IsRun(limits, next, events[1..]) && NoSwitch(limits, next, events[1..])
    ensures After(limits, p, events) == After(limits, next, events[1..])
    ensures SameEmployee(p.session.identity, next.session.identity)
  {
    next := RunSplits(limits, p, events);
    StepKeepsEmployee(limits, p, events[0]);
  }

  lemma {:induction false} RunKeepsEmployee(limits: Limits, p: Page, events: seq<Event>)
    requires PageOk(p) && IsRun(limits, p, events) && NoSwitch(limits, p, events)
    ensures SameEmployee(p.session.identity, After(limits, p, events).session.identity)
    decreases |events|
  {
    if events != [] {
      var next := NoSwitchStep(limits, p, events);
      RunKeepsEmployee(limits, next, events[1..]);
    }
  }

  /** After a switch, whatever the page goes on to show or keep is what it would show had
      it started for the new employee and seen only that session's own events. Every call
      it still listens to was issued as the employee then signed in, and that is the new
      employee until a context of its epoch names another one. */
  lemma KeptIsOwn(limits: Limits, p: Page, id: Id, context: Context, events: seq<Event>)
    requires PageOk(p) && id in p.session.calls && !p.session.calls[id].call.Check?
    requires p.session.calls[id].epoch == p.session.epoch && !SameEmployee(p.session.identity, context.identity)
    requires PageOk(ContextArrives(limits, p, id, context))
    requires IsRun(limits, ContextArrives(limits, p, id, context), events)
    ensures var s := ContextArrives(limits, p, id, context);
      && PageOk(Afresh(s)) && IsRun(limits, Afresh(s), OnTime(limits, s, events))
      && Alike(After(limits, s, events), After(limits, Afresh(s), OnTime(limits, s, events)))
      && CallsOwn(After(limits, s, events))
      && (NoSwitch(limits, s, events) ==> SameEmployee(context.identity, After(limits, s, events).session.identity))
  {
    SwitchStartsAfresh(limits, p, id, context);
    var s := ContextArrives(limits, p, id, context);
    Isolation(limits, s, Afresh(s), events);
    PageCallsOwn(After(limits, s, events));
    if NoSwitch(limits, s, events) {
      RunKeepsEmployee(limits, s, events);
    }
  }

  /** The one leftover: whatever error code the old employee's last query left is still shown. */
  lemma QueryErrorSurvives(limits: Limits, p: Page, id: Id, context: Context)
    requires id in p.session.calls && !p.session.calls[id].call.Check?
    ensures ContextArrives(limits, p, id, context).board.queryError == p.board.queryError
  {
  }

  /** Such pages exist: employee A's query fails with any code that does not end the session, employee B
      signs in, and B is shown A's error. */
  lemma OldErrorIsShown(limits: Limits, a: Context, b: Context, code: Code) returns (p: Page, q: Page)
    requires a.identity.Some? && !SameEmployee(a.identity, b.identity) && !SignInCode(code)
    ensures Reachable(limits, p) && SignedIn(p.session) && p.session.identity == a.identity
    ensures p.board.queryError == Some(code) && p.session.recovery == NoRecovery
    ensures Reachable(limits, q) && SignedIn(q.session) && q.session.identity == b.identity
    ensures q.board.queryError == Some(code)
  {
    p := FailedQuery(limits, a, code);
    ReachableOk(limits, p);
    StepIsReachable(limits, p, OnResume(false));
    var r := Step(limits, p, OnResume(false));
    var id := p.session.next;
    assert id in r.session.calls && r.session.calls[id].call == FullContext;
    ReachableOk(limits, r);
    StepIsReachable(limits, r, GotContext(id, b));
    q := ContextArrives(limits, r, id, b);
    SwitchStartsAfresh(limits, r, id, b);
    QueryErrorSurvives(limits, r, id, b);
  }

  /** An employee signs in, and the first query fails. */
  lemma FailedQuery(limits: Limits, a: Context, code: Code) returns (p: Page)
    requires a.identity.Some? && !SignInCode(code)
    ensures Reachable(limits, p) && SignedIn(p.session) && p.session.identity == a.identity
    ensures p.board.queryError == Some(code) && p.session.recovery == NoRecovery
  {
    var s := SignInIsReachable(limits, a);
    ReachableOk(limits, s);
    StepIsReachable(limits, s, OnQuery(None, 0));
    var t := Step(limits, s, OnQuery(None, 0));
    var id := s.board.next;
    assert id in t.board.calls && t.board.calls[id].epoch == t.session.epoch;
    ReachableOk(limits, t);
    StepIsReachable(limits, t, QueryFailure(id, code));
    var u := Step(limits, t, QueryFailure(id, code));
    ReachableOk(limits, u);
    StepIsReachable(limits, u, OnSettled);
    p := Step(limits, u, OnSettled);
  }

  /** Afresh, and with no query error either. */
  function Clean(p: Page): Page { Afresh(p).(board := Afresh(p).board.(queryError := None)) }

  /** So nothing at all of the old employee stays exactly when no query error was shown. */
  lemma SwitchIsCleanIff(limits: Limits, p: Page, id: Id, context: Context)
    requires PageOk(p) && id in p.session.calls && !p.session.calls[id].call.Check?
    requires p.session.calls[id].epoch == p.session.epoch && !SameEmployee(p.session.identity, context.identity)
    ensures var s := ContextArrives(limits, p, id, context); Alike(s, Clean(s)) <==> p.board.queryError.None?
  {
    var s := ContextArrives(limits, p, id, context);
    SwitchStartsAfresh(limits, p, id, context);
    QueryErrorSurvives(limits, p, id, context);
    if p.board.queryError.None? {
      assert Clean(s) == Afresh(s);
    } else {
      assert EraseBoard(s.session.epoch, s.board).queryError == s.board.queryError;
    }
  }
}
