/**
 The ledger controller as an object whose methods update its fields: one method
 for each stretch of code between two awaits. Every method is proved to take the
 page from one state of the transition system to the next.
 */
module LedgerController {
  import opened Options
  import opened Json
  import opened LedgerModel
  import opened LedgerSession
  import opened LedgerBoard
  import opened LedgerViewer
  import opened LedgerJobs
  import opened LedgerSubmission
  import opened LedgerPage
  import opened LedgerSelection
  import opened LedgerSafety
  import opened LedgerTheorems

  class Controller {
    const limits: Limits
    const model: Selection
    var session: Session
    var board: Board
    var viewer: Viewer
    var downloads: Downloads
    var urls: Urls
    var jobs: Jobs
    var submission: Submission

    /** The page this object stands for. */
    ghost function View(): Page
      reads this, model
    {
      Page(session, board, viewer, downloads, urls, jobs, submission, model.View())
    }

    constructor (limits: Limits)
      ensures View() == START && this.limits == limits && fresh(model)
    {
      this.limits := limits;
      model := new Selection();
      session, board, viewer, downloads := START.session, START.board, START.viewer, START.downloads;
      urls, jobs, submission := START.urls, START.jobs, START.submission;
    }

    // -------------------------------------------------------------- session

    method ClearPreview()
      modifies this
      ensures View() == old(View()).(viewer := ClosePreview(old(viewer)), urls := Release(old(urls), Held(old(viewer))))
    {
      viewer := viewer.(version := viewer.version + 1);
      if viewer.preview.Some? && viewer.preview.value.url.Some? {
        urls := Release(urls, viewer.preview.value.url);
      }
      viewer := viewer.(preview := None);
    }

    method StopTimers()
      modifies this
      ensures View() == old(View()).(jobs := LedgerJobs.StopTimers(old(jobs)))
    {
      var handles := jobs.timers.Values;
      while handles != {}
        invariant handles <= jobs.timers.Values
        invariant forall h :: h in jobs.live <==> h in old(jobs.live) && (h in jobs.timers.Values ==> h in handles)
        invariant forall h | h in jobs.live :: jobs.live[h] == old(jobs.live)[h]
        invariant View() == old(View()).(jobs := old(jobs).(live := jobs.live))
        decreases |handles|
      {
        var h :| h in handles;
        jobs := jobs.(live := jobs.live - {h});
        handles := handles - {h};
      }
      jobs := jobs.(timers := map[]);
    }

    method Expire()
      modifies this
      ensures View() == LedgerPage.Expire(old(View()))
    {
      session := session.(epoch := session.epoch + 1);
      board := board.(version := board.version + 1);
      ClearPreview();
      StopTimers();
      session := session.(authenticated := false);
      session := session.(csrfToken := None);
      board := board.(querying := false);
      submission := submission.(submitting := false);
      downloads := downloads.(busy := {});
      session := session.(error := Some(SignInRequired));
    }

    /** The catch of `call`: a sign-in failure of the current epoch ends the session. */
    method Refused(captured: nat, code: Code)
      modifies this
      ensures View() == Refuse(old(View()), captured, code)
    {
      if captured == session.epoch && SignInCode(code) {
        Expire();
      }
    }

    // -------------------------------------------------------------- recovery

    method FileStep(step: RecoveryStep)
      modifies this
      ensures View() == old(View()).(session := FileRecovery(old(session), step))
    {
      session := session.(calls := session.calls[session.next := Request(session.epoch, session.identity, step)]);
      session := session.(next := session.next + 1);
    }

    method BeginRecovery()
      modifies this
      ensures View() == Begin(old(View()))
    {
      session := session.(epoch := session.epoch + 1);
      board := board.(version := board.version + 1);
      board := board.(querying := false);
      submission := submission.(submitting := false);
      downloads := downloads.(busy := {});
      jobs := jobs.(tasks := map t | t in jobs.tasks :: jobs.tasks[t].(waiting := false, linking := false));
      session := session.(recovering := true);
      session := session.(authenticated := false);
      session := session.(error := None);
      StopTimers();
      ClearPreview();
    }

    method Resume(passive: bool)
      modifies this
      ensures View() == LedgerPage.Resume(old(View()), passive)
    {
      if session.recovery != NoRecovery {
        return;
      }
      session := session.(recovery := InRecovery);
      if passive && session.authenticated {
        FileStep(PassiveContext);
      } else {
        BeginRecovery();
        FileStep(FullContext);
      }
    }

    method ForgetEmployee()
      modifies this, model
      ensures View() == Forget(old(View()))
    {
      model.Clear();
      board := board.(rows := [], stores := {}, cursors := map[0 := None], batch := 0, nextCursor := None);
      jobs := jobs.(order := [], tasks := map[], active := None);
      submission := submission.(attempt := None, submitError := None);
      board := board.(scope := None);
      downloads := downloads.(notices := map[]);
    }

    method QueueAll()
      requires session.authenticated
      modifies this
      ensures View() == old(View()).(jobs := QueuePolls(old(jobs), old(jobs.order)))
    {
      var i := 0;
      while i < |jobs.order|
        invariant 0 <= i <= |jobs.order| && jobs.order == old(jobs.order) && session.authenticated
        invariant View() == old(View()).(jobs := jobs)
        invariant QueuePolls(jobs, jobs.order[i..]) == QueuePolls(old(jobs), old(jobs.order))
      {
        assert jobs.order[i..][0] == jobs.order[i] && jobs.order[i..][1..] == jobs.order[i + 1..];
        if jobs.order[i] in jobs.tasks && Pending(jobs.tasks[jobs.order[i]]) {
          QueuePoll(jobs.order[i]);
        }
        i := i + 1;
      }
    }

    /** The rest of `revalidate` and, when it is through, the rest of `resume`. */
    method NextCheck(all: seq<Key>, start: nat, results: seq<Item>)
      requires start <= |all| && WellKept(model.View())
      modifies this, model
      ensures View() == LedgerPage.NextCheck(limits, old(View()), all, start, results)
    {
      if start < |all| {
        var end := NextChunk(limits, all, start);
        FileStep(Check(all, start, end, None, results));
      } else {
        model.Reconcile(results);
        session := session.(authenticated := true);
        QueueAll();
        session := session.(recovering := false);
        session := session.(recovery := RecoveryDone);
      }
    }

    method AdoptContext(context: Context)
      requires WellKept(model.View())
      modifies this, model
      ensures View() == LedgerPage.AdoptContext(limits, old(View()), context)
    {
      if !SameEmployee(session.identity, context.identity) {
        ForgetEmployee();
      }
      session := session.(identity := context.identity, csrfToken := context.csrfToken);
      var all := SortKeys(model.order);
      ReconcileExact(model.View(), []);
      model.Reconcile([]);
      NextCheck(all, 0, []);
    }

    method ContextAnswered(id: Id, context: Context)
      requires id in session.calls && WellKept(model.View())
      modifies this, model
      ensures View() == ContextArrives(limits, old(View()), id, context)
    {
      var r := session.calls[id];
      session := session.(calls := session.calls - {id});
      if r.call.PassiveContext? {
        if r.epoch != session.epoch {
          session := session.(recovery := RecoveryDone);
        } else if SameEmployee(session.identity, context.identity) && session.csrfToken == context.csrfToken {
          session := session.(error := None);
          session := session.(recovery := RecoveryDone);
        } else {
          BeginRecovery();
          AdoptContext(context);
        }
      } else if r.epoch != session.epoch {
        session := session.(recovering := false);
        session := session.(recovery := RecoveryDone);
      } else {
        AdoptContext(context);
      }
    }

    method CheckAnswered(id: Id, answers: seq<Item>, cursor: Option<Cursor>)
      requires id in session.calls && session.calls[id].call.Check? && WellKept(model.View())
      requires session.calls[id].call.end <= |session.calls[id].call.all|
      modifies this, model
      ensures View() == CheckArrives(limits, old(View()), id, answers, cursor)
    {
      var r := session.calls[id];
      session := session.(calls := session.calls - {id});
      if r.epoch != session.epoch {
        session := session.(recovering := false);
        session := session.(recovery := RecoveryDone);
      } else if cursor.Some? {
        FileStep(r.call.(cursor := cursor, results := r.call.results + answers));
      } else {
        NextCheck(r.call.all, r.call.end, r.call.results + answers);
      }
    }

    method RecoveryFailed(id: Id, code: Code)
      requires id in session.calls
      modifies this
      ensures View() == RecoveryFails(old(View()), id, code)
    {
      var r := session.calls[id];
      session := session.(calls := session.calls - {id});
      if r.call.PassiveContext? {
        if r.epoch == session.epoch {
          if SignInCode(code) {
            Expire();
          } else {
            session := session.(error := Some(code));
          }
        }
        session := session.(recovery := RecoveryDone);
      } else {
        if r.call.Check? {
          Refused(r.epoch, code);
        }
        if r.epoch == session.epoch {
          session := session.(error := Some(code));
        }
        session := session.(recovering := false);
        session := session.(recovery := RecoveryDone);
      }
    }

    // -------------------------------------------------------------- queries

    method Query(wanted: Option<Text>, page: nat)
      modifies this
      ensures View() == if SignedIn(old(session))
                        then old(View()).(board := StartQuery(old(session), old(board), wanted, page))
                        else old(View())
    {
      if !session.authenticated || session.recovering {
        return;
      }
      board := board.(version := board.version + 1);
      board := board.(querying := true);
      board := board.(queryError := None);
      var cursor := if page != 0 && page in board.cursors then board.cursors[page] else None;
      board := board.(calls := board.calls[board.next := Request(session.epoch, session.identity,
        QueryCall(board.version, wanted, page, cursor))]);
      board := board.(next := board.next + 1);
    }

    method QueryAnswered(id: Id, partitions: seq<Item>, cursor: Option<Cursor>)
      requires id in board.calls
      modifies this, model
      ensures View() == QueryCame(old(View()), id, partitions, cursor)
    {
      var r := board.calls[id];
      board := board.(calls := board.calls - {id});
      if r.call.version == board.version && r.epoch == session.epoch {
        board := board.(scope := r.call.scope);
        board := board.(batch := r.call.batch);
        if r.call.batch == 0 {
          board := board.(cursors := map[0 := None]);
        }
        board := board.(rows := partitions);
        board := board.(nextCursor := cursor);
        board := board.(cursors := board.cursors[r.call.batch + 1 := cursor]);
        board := board.(stores := board.stores + set i | i in partitions :: i.key.storeName);
        model.Refresh(partitions);
      }
      if r.call.version == board.version {
        board := board.(querying := false);
      }
    }

    method QueryFailure(id: Id, code: Code)
      requires id in board.calls
      modifies this
      ensures View() == QueryFailed(old(View()), id, code)
    {
      var r := board.calls[id];
      board := board.(calls := board.calls - {id});
      Refused(r.epoch, code);
      if r.call.version == board.version && r.epoch == session.epoch {
        board := board.(queryError := Some(code));
      }
      if r.call.version == board.version {
        board := board.(querying := false);
      }
    }

    // -------------------------------------------------------------- preview and download

    method ShowPreview(item: Item)
      modifies this
      ensures View() == if SignedIn(old(session))
                        then old(View()).(viewer := StartPreview(old(session), old(viewer), item),
                          urls := Release(old(urls), Held(old(viewer))))
                        else old(View())
    {
      if !session.authenticated || session.recovering {
        return;
      }
      ClearPreview();
      viewer := viewer.(preview := Some(Preview(item, true, None, None)));
      viewer := viewer.(calls := viewer.calls[viewer.next := Request(session.epoch, session.identity,
        PreviewCall(viewer.version, item.key))]);
      viewer := viewer.(next := viewer.next + 1);
    }

    method PreviewAnswered(id: Id, url: Url)
      requires id in viewer.calls
      modifies this
      ensures View() == old(View()).(viewer := PreviewArrives(old(session), old(viewer), id, url),
                                     urls := PreviewUrls(old(session), old(viewer), id, old(urls), url))
    {
      var r := viewer.calls[id];
      viewer := viewer.(calls := viewer.calls - {id});
      urls := Bring(urls, url);
      if r.call.version != viewer.version || r.epoch != session.epoch || viewer.preview.None? {
        urls := Release(urls, Some(url));
      } else {
        viewer := viewer.(preview := Some(viewer.preview.value.(url := Some(url))));
      }
      if r.call.version == viewer.version && viewer.preview.Some? {
        viewer := viewer.(preview := Some(viewer.preview.value.(waiting := false)));
      }
    }

    method PreviewFailure(id: Id, code: Code)
      requires id in viewer.calls
      modifies this
      ensures View() == PreviewFailed(old(View()), id, code)
    {
      var r := viewer.calls[id];
      viewer := viewer.(calls := viewer.calls - {id});
      Refused(r.epoch, code);
      if r.call.version == viewer.version && r.epoch == session.epoch && viewer.preview.Some? {
        viewer := viewer.(preview := Some(viewer.preview.value.(error := Some(code))));
      }
      if r.call.version == viewer.version && viewer.preview.Some? {
        viewer := viewer.(preview := Some(viewer.preview.value.(waiting := false)));
      }
    }

    method Download(item: Item)
      modifies this
      ensures View() == if SignedIn(old(session)) && item.key !in old(downloads.busy)
                        then old(View()).(downloads := StartDownload(old(session), old(downloads), item.key))
                        else old(View())
    {
      if !session.authenticated || session.recovering || item.key in downloads.busy {
        return;
      }
      downloads := downloads.(busy := downloads.busy + {item.key});
      downloads := downloads.(notices := downloads.notices - {item.key});
      downloads := downloads.(
        calls := downloads.calls[downloads.next := Request(session.epoch, session.identity, item.key)]);
      downloads := downloads.(next := downloads.next + 1);
    }

    method DownloadAnswered(id: Id, url: Url)
      requires id in downloads.calls
      modifies this
      ensures View() == old(View()).(downloads := EndDownload(old(session), old(downloads), id, DownloadStarted),
                                     urls := DownloadUrls(old(session), old(downloads), id, old(urls), url))
    {
      var r := downloads.calls[id];
      downloads := downloads.(calls := downloads.calls - {id});
      urls := Bring(urls, url);
      if r.epoch != session.epoch {
        urls := Release(urls, Some(url));
        return;
      }
      urls := Save(urls, url);
      downloads := downloads.(notices := downloads.notices[r.call := DownloadStarted]);
      downloads := downloads.(busy := downloads.busy - {r.call});
    }

    method DownloadFailure(id: Id, code: Code)
      requires id in downloads.calls
      modifies this
      ensures View() == DownloadFailed(old(View()), id, code)
    {
      var r := downloads.calls[id];
      downloads := downloads.(calls := downloads.calls - {id});
      Refused(r.epoch, code);
      if r.epoch == session.epoch {
        downloads := downloads.(notices := downloads.notices[r.call := Failed(code)]);
        downloads := downloads.(busy := downloads.busy - {r.call});
      }
    }

    // -------------------------------------------------------------- tasks

    method QueuePoll(t: Id)
      requires t in jobs.tasks
      modifies this
      ensures View() == old(View()).(jobs := LedgerJobs.QueuePoll(old(session.authenticated), old(jobs), t))
    {
      if t in jobs.timers {
        jobs := jobs.(live := jobs.live - {jobs.timers[t]});
      }
      if session.authenticated && Pending(jobs.tasks[t]) {
        jobs := jobs.(timers := jobs.timers[t := jobs.next]);
        jobs := jobs.(live := jobs.live[jobs.next := t]);
        jobs := jobs.(next := jobs.next + 1);
      }
    }

    method Poll(t: Id)
      requires t in jobs.tasks
      modifies this
      ensures View() == old(View()).(jobs := StartPoll(old(session), old(jobs), t))
    {
      if !session.authenticated || session.recovering || jobs.tasks[t].waiting || !Pending(jobs.tasks[t]) {
        return;
      }
      if t in jobs.timers {
        jobs := jobs.(live := jobs.live - {jobs.timers[t]});
        jobs := jobs.(timers := jobs.timers - {t});
      }
      jobs := jobs.(tasks := jobs.tasks[t := jobs.tasks[t].(waiting := true, error := None)]);
      jobs := jobs.(polls := jobs.polls[jobs.next := Request(session.epoch, session.identity, t)]);
      jobs := jobs.(next := jobs.next + 1);
    }

    method TimerFired(timer: Id)
      requires timer in jobs.live
      modifies this
      ensures View() == old(View()).(jobs := FireTimer(old(session), old(jobs), timer))
    {
      var t := jobs.live[timer];
      jobs := jobs.(live := jobs.live - {timer});
      jobs := jobs.(timers := jobs.timers - {t});
      if t in jobs.tasks {
        Poll(t);
      }
    }

    method PollAnswered(id: Id, status: TaskStatus, errorCode: Option<Code>)
      requires id in jobs.polls
      modifies this
      ensures View() == old(View()).(jobs := PollArrives(old(session), old(jobs), id, status, errorCode))
    {
      var r := jobs.polls[id];
      jobs := jobs.(polls := jobs.polls - {id});
      if r.epoch != session.epoch || r.call !in jobs.tasks {
        return;
      }
      jobs := jobs.(tasks := jobs.tasks[r.call := jobs.tasks[r.call].(status := status, error := errorCode)]);
      if Pending(jobs.tasks[r.call]) {
        QueuePoll(r.call);
      }
      jobs := jobs.(tasks := jobs.tasks[r.call := jobs.tasks[r.call].(waiting := false)]);
    }

    method PollFailure(id: Id, code: Code)
      requires id in jobs.polls
      modifies this
      ensures View() == StatusFailed(old(View()), id, code)
    {
      var r := jobs.polls[id];
      jobs := jobs.(polls := jobs.polls - {id});
      Refused(r.epoch, code);
      if r.epoch == session.epoch && r.call in jobs.tasks {
        jobs := jobs.(tasks := jobs.tasks[r.call := jobs.tasks[r.call].(error := Some(code), waiting := false)]);
      }
    }

    method Link(t: Id)
      requires t in jobs.tasks
      modifies this
      ensures View() == old(View()).(jobs := StartLink(old(session), old(jobs), t))
    {
      if !session.authenticated || session.recovering || jobs.tasks[t].linking || jobs.tasks[t].status != Succeeded {
        return;
      }
      jobs := jobs.(tasks := jobs.tasks[t := jobs.tasks[t].(linking := true, error := None)]);
      jobs := jobs.(links := jobs.links[jobs.next := Request(session.epoch, session.identity, t)]);
      jobs := jobs.(next := jobs.next + 1);
    }

    method LinkAnswered(id: Id, url: Url, expiresAt: Option<Text>)
      requires id in jobs.links
      modifies this
      ensures View() == LinkCame(old(View()), id, url, expiresAt)
    {
      var r := jobs.links[id];
      jobs := jobs.(links := jobs.links - {id});
      if r.epoch != session.epoch || r.call !in jobs.tasks {
        return;
      }
      urls := Save(Bring(urls, url), url);
      jobs := jobs.(
        tasks := jobs.tasks[r.call := jobs.tasks[r.call].(started := true, expiresAt := expiresAt, linking := false)]);
    }

    method LinkFailure(id: Id, code: Code)
      requires id in jobs.links
      modifies this
      ensures View() == LinkFailed(old(View()), id, code)
    {
      var r := jobs.links[id];
      jobs := jobs.(links := jobs.links - {id});
      Refused(r.epoch, code);
      if r.epoch == session.epoch && r.call in jobs.tasks {
        jobs := jobs.(tasks := jobs.tasks[r.call := jobs.tasks[r.call].(error := Some(code), linking := false)]);
      }
    }

    // -------------------------------------------------------------- submitting

    /** The part of `submit` behind its guard. */
    method SendSelection(selection: seq<Key>, anew: bool)
      modifies this
      ensures View() == var u := StartSubmit(old(session), old(submission), selection, anew);
                        old(View()).(submission := u, jobs := old(jobs).(active := u.attempt.value.task))
    {
      var fingerprint := Fingerprint(selection);
      if anew || submission.attempt.None? || submission.attempt.value.fingerprint != fingerprint {
        submission := submission.(attempt := Some(Attempt(fingerprint, selection, submission.next, None)));
      }
      submission := submission.(next := submission.next + 1);
      jobs := jobs.(active := submission.attempt.value.task);
      if submission.attempt.value.task.Some? {
        return;
      }
      submission := submission.(submitting := true, submitError := None);
      var c := SubmitCall(submission.attempt.value.idempotencyKey, submission.attempt.value.selection);
      submission := submission.(sent := submission.sent + [c],
                                calls := submission.calls[
                                  submission.next := Request(session.epoch, session.identity, c)]);
      submission := submission.(next := submission.next + 1);
    }

    method Submit(anew: bool)
      requires WellKept(model.View())
      modifies this
      ensures View() == LedgerPage.Submit(limits, old(View()), anew)
    {
      if !session.authenticated || session.recovering || submission.submitting {
        return;
      }
      var summary := model.Summary(limits);
      if summary.allowed {
        SendSelection(SortKeys(model.order), anew);
      }
    }

    method SubmitAnswered(id: Id, requestId: Text, status: TaskStatus)
      requires id in submission.calls
      modifies this
      ensures View() == SubmitCame(old(View()), id, requestId, status)
    {
      var r := submission.calls[id];
      submission := submission.(calls := submission.calls - {id});
      if r.epoch != session.epoch {
        return;
      }
      var t := jobs.next;
      jobs := jobs.(next := jobs.next + 1);
      jobs := jobs.(
        tasks := jobs.tasks[t := Task(requestId, status, r.call.selection, false, false, None, false, None)]);
      if submission.attempt.Some? && submission.attempt.value.idempotencyKey == r.call.idempotencyKey {
        submission := submission.(attempt := Some(submission.attempt.value.(task := Some(t))));
      }
      submission := submission.(made := submission.made + [(r.call.idempotencyKey, t)]);
      jobs := jobs.(order := [t] + jobs.order);
      jobs := jobs.(active := Some(t));
      QueuePoll(t);
      submission := submission.(submitting := false);
    }

    method SubmitFailure(id: Id, code: Code)
      requires id in submission.calls
      modifies this
      ensures View() == SubmitFailed(old(View()), id, code)
    {
      var r := submission.calls[id];
      submission := submission.(calls := submission.calls - {id});
      Refused(r.epoch, code);
      if r.epoch == session.epoch {
        submission := submission.(submitError := Some(code));
        submission := submission.(submitting := false);
      }
    }

    // -------------------------------------------------------------- any event, any run

    /** What the user does, and what the timers and the settled recovery do. */
    method Act(e: Event)
      requires WellKept(model.View()) && Enabled(View(), e) && IsAction(e)
      modifies this, model
      ensures View() == Step(limits, old(View()), e)
    {
      match e
      case OnResume(passive) => Resume(passive);
      case OnSettled => session := session.(recovery := NoRecovery);
      case OnExpire => Expire();
      case OnQuery(scope, batch) => Query(scope, batch);
      case OnPreview(item) => ShowPreview(item);
      case OnClosePreview => ClearPreview();
      case OnDownload(item) => Download(item);
      case OnPoll(t) => Poll(t);
      case OnLink(t) => Link(t);
      case OnSubmit(anew) => Submit(anew);
      case OnSelect(item, checked) => model.Select(item, checked);
      case OnSelectBatch(items, checked) => model.SelectBatch(items, checked);
      case OnClearSelection => model.Clear();
      case OnTimer(h) => TimerFired(h);
    }

    /** An answer arrives. */
    method Answer(e: Event)
      requires WellKept(model.View()) && Enabled(View(), e) && !IsAction(e) && !IsFailure(e)
      modifies this, model
      ensures View() == Step(limits, old(View()), e)
    {
      match e
      case GotContext(id, context) => ContextAnswered(id, context);
      case GotCheck(id, answers, cursor) => CheckAnswered(id, answers, cursor);
      case GotRows(id, rows, cursor) => QueryAnswered(id, rows, cursor);
      case GotPreview(id, url) => PreviewAnswered(id, url);
      case GotDownload(id, url) => DownloadAnswered(id, url);
      case GotStatus(id, status, errorCode) => PollAnswered(id, status, errorCode);
      case GotTask(id, requestId, status) => SubmitAnswered(id, requestId, status);
      case GotLink(id, url, expiresAt) => LinkAnswered(id, url, expiresAt);
    }

    /** A call fails. */
    method Fail(e: Event)
      requires WellKept(model.View()) && Enabled(View(), e) && IsFailure(e)
      modifies this, model
      ensures View() == Step(limits, old(View()), e)
    {
      match e
      case RecoveryFailure(id, code) => RecoveryFailed(id, code);
      case QueryFailure(id, code) => QueryFailure(id, code);
      case PreviewFailure(id, code) => PreviewFailure(id, code);
      case DownloadFailure(id, code) => DownloadFailure(id, code);
      case StatusFailure(id, code) => PollFailure(id, code);
      case SubmitFailure(id, code) => SubmitFailure(id, code);
      case LinkFailure(id, code) => LinkFailure(id, code);
    }

    /** Whatever happens to the object, it makes the step of the transition system. */
    method Handle(e: Event)
      requires WellKept(model.View()) && Enabled(View(), e)
      modifies this, model
      ensures View() == Step(limits, old(View()), e)
    {
      if IsAction(e) {
        Act(e);
      } else if IsFailure(e) {
        Fail(e);
      } else {
        Answer(e);
      }
    }

    /** The object stands for a page that can be reached. */
    ghost predicate Valid()
      reads this, model
    {
      Reachable(limits, View())
    }

    /** One event keeps the object on reachable pages, where all promises of the page hold. */
    method HandleReachable(e: Event)
      requires Valid() && Enabled(View(), e)
      modifies this, model
      ensures Valid() && PageOk(old(View())) && View() == Step(limits, old(View()), e)
    {
      ReachableOk(limits, View());
      StepIsReachable(limits, View(), e);
      Handle(e);
    }

    /** A whole run of the page is a run of the object: what is proved of every run holds of it. */
    method Run(events: seq<Event>)
      requires Valid() && PageOk(View()) && IsRun(limits, View(), events)
      modifies this, model
      ensures Valid() && View() == After(limits, old(View()), events)
    {
      hide *;
      var i := 0;
      ghost var start := View();
      assert events[0..] == events;
      while i < |events|
        invariant 0 <= i <= |events| && Valid() && PageOk(View()) && IsRun(limits, View(), events[i..])
        invariant After(limits, View(), events[i..]) == After(limits, start, events)
      {
        ghost var next := RunSplits(limits, View(), events[i..]);
        assert events[i..][0] == events[i] && events[i..][1..] == events[i + 1..];
        HandleReachable(events[i]);
        i := i + 1;
      }
      NoRun(limits, View());
      assert events[i..] == [];
    }
  }

  predicate IsAction(e: Event) {
    || e.OnResume? || e.OnSettled? || e.OnExpire? || e.OnQuery? || e.OnPreview? || e.OnClosePreview? || e.OnDownload?
    || e.OnPoll? || e.OnLink? || e.OnSubmit? || e.OnSelect? || e.OnSelectBatch? || e.OnClearSelection? || e.OnTimer?
  }

  predicate IsFailure(e: Event) {
    || e.RecoveryFailure? || e.QueryFailure? || e.PreviewFailure? || e.DownloadFailure? || e.StatusFailure?
    || e.SubmitFailure? || e.LinkFailure?
  }

  /** A new object runs like a page from its start. */
  method Serve(limits: Limits, events: seq<Event>) returns (controller: Controller)
    requires PageOk(START) && IsRun(limits, START, events)
    ensures fresh(controller) && controller.limits == limits && controller.Valid()
    ensures controller.View() == After(limits, START, events)
  {
    controller := new Controller(limits);
    StartIsReachable(limits);
    controller.Run(events);
  }
}
