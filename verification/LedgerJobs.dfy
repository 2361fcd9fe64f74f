/** Package tasks: polling by timer, download links, and the timers themselves. */
module LedgerJobs {
  import opened Options
  import opened Json
  import opened LedgerModel
  import opened LedgerSession

  datatype TaskStatus = Queued | Running | Succeeded | OtherTaskStatus(name: Text)

  datatype Task = Task(
    requestId: Text, status: TaskStatus, selection: seq<Key>, waiting: bool, linking: bool,
    error: Option<Code>, started: bool, expiresAt: Option<Text>)

  /** `timers` is the page's own map from task to timer; `live` maps each timer
      the browser will still fire to the task its callback polls. */
  datatype Jobs = Jobs(
    order: seq<Id>, tasks: map<Id, Task>, active: Option<Id>, timers: map<Id, Id>, live: map<Id, Id>,
    polls: map<Id, Request<Id>>, links: map<Id, Request<Id>>, next: Id)

  predicate Pending(task: Task) { task.status == Queued || task.status == Running }

  function WithTask(j: Jobs, t: Id, task: Task): Jobs { j.(tasks := j.tasks[t := task]) }

  function StopTimers(j: Jobs): Jobs {
    j.(timers := map[], live := map h | h in j.live && h !in j.timers.Values :: j.live[h])
  }

  function Idle(task: Task): Task { task.(waiting := false, linking := false) }

  function IdleTasks(j: Jobs): Jobs { j.(tasks := map t | t in j.tasks :: Idle(j.tasks[t])) }

  function ForgetJobs(j: Jobs): Jobs { j.(order := [], tasks := map[], active := None) }

  function QueuePoll(authenticated: bool, j: Jobs, t: Id): Jobs
    requires t in j.tasks
  {
    var live := if t in j.timers then j.live - {j.timers[t]} else j.live;
    if authenticated && Pending(j.tasks[t])
    then j.(timers := j.timers[t := j.next], live := live[j.next := t], next := j.next + 1)
    else j.(live := live)
  }

  /** After a recovery every pending task is queued again. */
  function QueuePolls(j: Jobs, ids: seq<Id>): Jobs
    decreases |ids|
  {
    if ids == [] then j
    else QueuePolls(if ids[0] in j.tasks && Pending(j.tasks[ids[0]]) then QueuePoll(true, j, ids[0]) else j, ids[1..])
  }

  function DropTimer(j: Jobs, t: Id): Jobs {
    if t in j.timers then j.(timers := j.timers - {t}, live := j.live - {j.timers[t]}) else j
  }

  predicate MayPoll(ss: Session, j: Jobs, t: Id)
    requires t in j.tasks
  {
    SignedIn(ss) && !j.tasks[t].waiting && Pending(j.tasks[t])
  }

  function StartPoll(ss: Session, j: Jobs, t: Id): Jobs
    requires t in j.tasks
  {
    if !MayPoll(ss, j, t) then j
    else
      var d := WithTask(DropTimer(j, t), t, j.tasks[t].(waiting := true, error := None));
      d.(polls := File(ss, d.next, d.polls, t), next := d.next + 1)
  }

  /** A timer fires: its callback forgets it and polls its task. */
  function FireTimer(ss: Session, j: Jobs, timer: Id): Jobs
    requires timer in j.live
  {
    var t := j.live[timer];
    var d := j.(timers := j.timers - {t}, live := j.live - {timer});
    if t in j.tasks then StartPoll(ss, d, t) else d
  }

  function PollArrives(ss: Session, j: Jobs, id: Id, status: TaskStatus, errorCode: Option<Code>): Jobs
    requires id in j.polls
  {
    var r, d := j.polls[id], j.(polls := j.polls - {id});
    if r.epoch != ss.epoch || r.call !in j.tasks then d
    else
      var u := WithTask(d, r.call, j.tasks[r.call].(status := status, error := errorCode));
      var v := if Pending(u.tasks[r.call]) then QueuePoll(ss.authenticated, u, r.call) else u;
      WithTask(v, r.call, v.tasks[r.call].(waiting := false))
  }

  function PollFails(ss: Session, j: Jobs, r: Request<Id>, code: Code): Jobs {
    if r.epoch != ss.epoch || r.call !in j.tasks then j
    else WithTask(j, r.call, j.tasks[r.call].(error := Some(code), waiting := false))
  }

  function StartLink(ss: Session, j: Jobs, t: Id): Jobs
    requires t in j.tasks
  {
    var task := j.tasks[t];
    if !SignedIn(ss) || task.linking || task.status != Succeeded then j
    else
      WithTask(j, t, task.(linking := true, error := None)).(links := File(ss, j.next, j.links, t), next := j.next + 1)
  }

  function LinkArrives(ss: Session, j: Jobs, id: Id, expiresAt: Option<Text>): Jobs
    requires id in j.links
  {
    var r, d := j.links[id], j.(links := j.links - {id});
    if r.epoch != ss.epoch || r.call !in j.tasks then d
    else WithTask(d, r.call, j.tasks[r.call].(started := true, expiresAt := expiresAt, linking := false))
  }

  function LinkFails(ss: Session, j: Jobs, r: Request<Id>, code: Code): Jobs {
    if r.epoch != ss.epoch || r.call !in j.tasks then j
    else WithTask(j, r.call, j.tasks[r.call].(error := Some(code), linking := false))
  }

  function Listed(j: Jobs, task: Task): Jobs {
    j.(order := [j.next] + j.order, tasks := j.tasks[j.next := task], active := Some(j.next), next := j.next + 1)
  }

  /** A submit was accepted: its task is listed first, shown, and polled if pending. */
  function AddTask(ss: Session, j: Jobs, task: Task): Jobs {
    QueuePoll(ss.authenticated, Listed(j, task), j.next)
  }

  // ---------------------------------------------------------------- invariants

  /** The page's timers and the browser's are the same, one per task. */
  ghost predicate TimersMatch(j: Jobs) {
    && (forall t | t in j.timers :: j.timers[t] in j.live && j.live[j.timers[t]] == t && j.timers[t] < j.next)
    && (forall h | h in j.live :: j.live[h] in j.timers && j.timers[j.live[h]] == h)
  }

  /** A timer runs only for a task that waits to be polled. */
  ghost predicate TimersDue(j: Jobs) {
    forall t | t in j.timers :: t in j.tasks && Pending(j.tasks[t]) && !j.tasks[t].waiting
  }

  ghost predicate TasksListed(j: Jobs) {
    && (forall t :: t in j.order <==> t in j.tasks)
    && (forall t | t in j.tasks :: t < j.next)
  }

  function Waiting(j: Jobs): set<Id> { set t | t in j.tasks && j.tasks[t].waiting }

  function Linking(j: Jobs): set<Id> { set t | t in j.tasks && j.tasks[t].linking }

  /** No wake-up is lost: a pending task has a timer, is being polled, or shows an error. */
  ghost predicate Awake(j: Jobs) {
    forall t | t in j.tasks && Pending(j.tasks[t]) :: t in j.timers || j.tasks[t].waiting || j.tasks[t].error.Some?
  }

  /** The parts of the invariant that do not speak of calls. */
  ghost predicate Scheduled(ss: Session, j: Jobs) {
    && TimersMatch(j) && TimersDue(j) && TasksListed(j)
    && (j.timers != map[] ==> SignedIn(ss))
    && (SignedIn(ss) ==> Awake(j))
  }

  /** A task is marked as waiting, or as linking, exactly while its call is in flight. */
  ghost predicate Marked(ss: Session, j: Jobs) {
    Claimed(ss, j.next, j.polls, Waiting(j)) && Claimed(ss, j.next, j.links, Linking(j))
  }

  ghost predicate JobsOk(ss: Session, j: Jobs) {
    Scheduled(ss, j) && Marked(ss, j)
  }

  /** Nothing is in progress and nothing is scheduled. */
  ghost predicate Quiet(j: Jobs) {
    && j.timers == map[]
    && forall t | t in j.tasks :: !j.tasks[t].waiting && !j.tasks[t].linking
  }

  lemma LiveAreTimers(j: Jobs)
    requires TimersMatch(j)
    ensures j.live.Keys == j.timers.Values
  {
    forall t | t in j.timers
      ensures j.timers[t] in j.live
    {
    }
    forall h | h in j.live
      ensures h in j.timers.Values
    {
      assert j.timers[j.live[h]] == h;
    }
  }

  lemma StopTimersClears(j: Jobs)
    requires TimersMatch(j)
    ensures StopTimers(j).live == map[]
  {
    forall h | h in j.live
      ensures h in j.timers.Values
    {
      assert j.timers[j.live[h]] == h;
    }
  }

  /** A new epoch stops every timer and outdates every poll. */
  lemma StopJobsOk(ss: Session, t: Session, j: Jobs)
    requires JobsOk(ss, j) && t.epoch > ss.epoch && !t.authenticated
    ensures JobsOk(t, StopTimers(j)) && StopTimers(j).live == map[]
    ensures JobsOk(t, IdleTasks(StopTimers(j))) && Quiet(IdleTasks(StopTimers(j)))
  {
    StopTimersClears(j);
    var k, l := StopTimers(j), IdleTasks(StopTimers(j));
    ClaimOutdated(ss, t, j.next, j.polls, Waiting(j), Waiting(k));
    ClaimOutdated(ss, t, j.next, j.links, Linking(j), Linking(k));
    ClaimOutdated(ss, t, j.next, j.polls, Waiting(j), Waiting(l));
    ClaimOutdated(ss, t, j.next, j.links, Linking(j), Linking(l));
  }

  lemma ForgetJobsOk(ss: Session, j: Jobs)
    requires JobsOk(ss, j) && Quiet(j) && !SignedIn(ss)
    ensures JobsOk(ss, ForgetJobs(j)) && Quiet(ForgetJobs(j))
  {
    assert Waiting(ForgetJobs(j)) == Waiting(j) == {} && Linking(ForgetJobs(j)) == Linking(j) == {};
  }

  lemma QueuePollAdds(j: Jobs, t: Id)
    requires TimersMatch(j) && TimersDue(j) && t in j.tasks && Pending(j.tasks[t]) && !j.tasks[t].waiting
    ensures TimersMatch(QueuePoll(true, j, t)) && TimersDue(QueuePoll(true, j, t))
  {
  }

  /** What queueing adds: a timer for each pending task listed, and nothing else. */
  lemma {:induction false} QueuePollsAdds(j: Jobs, ids: seq<Id>)
    requires TimersMatch(j) && TimersDue(j)
    requires forall t | t in j.tasks :: !j.tasks[t].waiting
    ensures var k := QueuePolls(j, ids);
      && TimersMatch(k) && TimersDue(k) && k == j.(timers := k.timers, live := k.live, next := k.next)
      && j.next <= k.next
      && (forall t | t in j.timers :: t in k.timers)
      && (forall t | t in ids && t in j.tasks && Pending(j.tasks[t]) :: t in k.timers)
    decreases |ids|
  {
    if ids != [] {
      var t := ids[0];
      var k := if t in j.tasks && Pending(j.tasks[t]) then QueuePoll(true, j, t) else j;
      if t in j.tasks && Pending(j.tasks[t]) {
        QueuePollAdds(j, t);
      }
      QueuePollsAdds(k, ids[1..]);
      assert forall u | u in ids :: u == t || u in ids[1..];
    }
  }

  /** A finished recovery leaves every pending task with a timer. */
  lemma QueueAllOk(ss: Session, t: Session, j: Jobs)
    requires JobsOk(ss, j) && Quiet(j) && !SignedIn(ss)
    requires t.epoch == ss.epoch && SignedIn(t)
    ensures var k := QueuePolls(j, j.order);
      && JobsOk(t, k) && k.tasks == j.tasks
      && forall i | i in k.tasks && Pending(k.tasks[i]) ::
           i in k.timers && k.timers[i] in k.live && k.live[k.timers[i]] == i
  {
    var k := QueuePolls(j, j.order);
    QueuePollsAdds(j, j.order);
    assert Waiting(k) == Waiting(j) == {} && Linking(k) == Linking(j) == {};
    ClaimMoved(ss, t, j.next, j.polls, {});
    ClaimMoved(ss, t, j.next, j.links, {});
    ClaimWider(t, j.next, k.next, j.polls, {});
    ClaimWider(t, j.next, k.next, j.links, {});
  }

  // A step that starts a call adds one mark; a step that ends a call of this
  // epoch takes one away; everything else about the calls stays.

  lemma PollMarked(ss: Session, j: Jobs, k: Jobs, t: Id)
    requires Marked(ss, j) && SignedIn(ss) && t !in Waiting(j)
    requires k.next == j.next + 1 && k.polls == File(ss, j.next, j.polls, t) && k.links == j.links
    requires Waiting(k) == Waiting(j) + {t} && Linking(k) == Linking(j)
    ensures Marked(ss, k)
  {
    ClaimAdded(ss, j.next, j.polls, Waiting(j), t);
    ClaimWider(ss, j.next, k.next, j.links, Linking(j));
  }

  lemma PollUnmarked(ss: Session, j: Jobs, k: Jobs, id: Id)
    requires Marked(ss, j) && id in j.polls
    requires k.next >= j.next && k.polls == j.polls - {id} && k.links == j.links
    requires Waiting(k) == (if j.polls[id].epoch == ss.epoch then Waiting(j) - {j.polls[id].call} else Waiting(j))
    requires Linking(k) == Linking(j)
    ensures Marked(ss, k)
  {
    ClaimTaken(ss, j.next, j.polls, Waiting(j), id);
    ClaimWider(ss, j.next, k.next, k.polls, Waiting(k));
    ClaimWider(ss, j.next, k.next, j.links, Linking(j));
  }

  lemma LinkMarked(ss: Session, j: Jobs, k: Jobs, t: Id)
    requires Marked(ss, j) && SignedIn(ss) && t !in Linking(j)
    requires k.next == j.next + 1 && k.links == File(ss, j.next, j.links, t) && k.polls == j.polls
    requires Linking(k) == Linking(j) + {t} && Waiting(k) == Waiting(j)
    ensures Marked(ss, k)
  {
    ClaimAdded(ss, j.next, j.links, Linking(j), t);
    ClaimWider(ss, j.next, k.next, j.polls, Waiting(j));
  }

  lemma LinkUnmarked(ss: Session, j: Jobs, k: Jobs, id: Id)
    requires Marked(ss, j) && id in j.links
    requires k.next == j.next && k.links == j.links - {id} && k.polls == j.polls
    requires Linking(k) == (if j.links[id].epoch == ss.epoch then Linking(j) - {j.links[id].call} else Linking(j))
    requires Waiting(k) == Waiting(j)
    ensures Marked(ss, k)
  {
    ClaimTaken(ss, j.next, j.links, Linking(j), id);
  }

  lemma LiveCallsMarked(ss: Session, j: Jobs)
    requires Marked(ss, j)
    ensures forall i | i in j.polls && j.polls[i].epoch == ss.epoch :: j.polls[i].call in Waiting(j) && SignedIn(ss)
    ensures forall i | i in j.links && j.links[i].epoch == ss.epoch :: j.links[i].call in Linking(j) && SignedIn(ss)
  {
  }

  function Toggle(marks: set<Id>, t: Id, on: bool): set<Id> { if on then marks + {t} else marks - {t} }

  lemma RetaskMarks(j: Jobs, t: Id, task: Task)
    requires t in j.tasks
    ensures Waiting(WithTask(j, t, task)) == Toggle(Waiting(j), t, task.waiting)
    ensures Linking(WithTask(j, t, task)) == Toggle(Linking(j), t, task.linking)
  {
  }

  lemma RetaskScheduled(ss: Session, j: Jobs, t: Id, task: Task)
    requires Scheduled(ss, j) && t in j.tasks
    requires t in j.timers ==> Pending(task) && !task.waiting
    requires Pending(task) ==> t in j.timers || task.waiting || task.error.Some?
    ensures Scheduled(ss, WithTask(j, t, task))
  {
  }

  /** Queueing a task, new or changed, that has no timer and is not being polled. */
  lemma QueueScheduled(ss: Session, j: Jobs, w: Jobs, t: Id)
    requires SignedIn(ss) && Scheduled(ss, j) && TasksListed(w)
    requires w.timers == j.timers && w.live == j.live && w.next >= j.next
    requires t in w.tasks && t !in j.timers && !w.tasks[t].waiting
    requires forall u | u != t :: (u in w.tasks <==> u in j.tasks) && (u in w.tasks ==> w.tasks[u] == j.tasks[u])
    ensures Scheduled(ss, QueuePoll(ss.authenticated, w, t))
  {
    assert TimersMatch(w) && TimersDue(w);
    if Pending(w.tasks[t]) {
      QueuePollAdds(w, t);
    }
  }

  lemma DropTimerMatch(j: Jobs, t: Id)
    requires TimersMatch(j) && TimersDue(j)
    ensures TimersMatch(DropTimer(j, t)) && TimersDue(DropTimer(j, t)) && DropTimer(j, t).timers == j.timers - {t}
  {
  }

  /** A task that gave up its timer and waits for its poll keeps the schedule. */
  lemma WaitingScheduled(ss: Session, j: Jobs, d: Jobs, t: Id, task: Task)
    requires Scheduled(ss, j) && t in j.tasks && task.waiting
    requires TimersMatch(d) && TimersDue(d) && d.timers == j.timers - {t} && d == j.(timers := d.timers, live := d.live)
    ensures Scheduled(ss, WithTask(d, t, task))
  {
  }

  lemma NextScheduled(ss: Session, j: Jobs, polls: map<Id, Request<Id>>)
    requires Scheduled(ss, j)
    ensures Scheduled(ss, j.(polls := polls, next := j.next + 1))
  {
  }

  lemma StartPollScheduled(ss: Session, j: Jobs, t: Id)
    requires Scheduled(ss, j) && t in j.tasks && MayPoll(ss, j, t)
    ensures Scheduled(ss, StartPoll(ss, j, t))
  {
    var d, task := DropTimer(j, t), j.tasks[t].(waiting := true, error := None);
    assert TimersMatch(d) && TimersDue(d) && d.timers == j.timers - {t} by {
      DropTimerMatch(j, t);
    }
    WaitingScheduled(ss, j, d, t, task);
    NextScheduled(ss, WithTask(d, t, task), File(ss, d.next, d.polls, t));
  }

  lemma StartPollMarks(ss: Session, j: Jobs, t: Id)
    requires t in j.tasks && MayPoll(ss, j, t)
    ensures var k := StartPoll(ss, j, t); Waiting(k) == Waiting(j) + {t} && Linking(k) == Linking(j)
  {
    RetaskMarks(DropTimer(j, t), t, j.tasks[t].(waiting := true, error := None));
  }

  lemma StartPollOk(ss: Session, j: Jobs, t: Id)
    requires JobsOk(ss, j) && t in j.tasks
    ensures JobsOk(ss, StartPoll(ss, j, t))
  {
    if MayPoll(ss, j, t) {
      StartPollScheduled(ss, j, t);
      StartPollMarks(ss, j, t);
      PollMarked(ss, j, StartPoll(ss, j, t), t);
    }
  }

  /** A timer always finds its task ready to be polled, so firing starts a poll. */
  lemma FireTimerOk(ss: Session, j: Jobs, timer: Id)
    requires JobsOk(ss, j) && timer in j.live
    ensures j.live[timer] in j.tasks && MayPoll(ss, j, j.live[timer])
    ensures FireTimer(ss, j, timer) == StartPoll(ss, j, j.live[timer])
    ensures JobsOk(ss, FireTimer(ss, j, timer))
  {
    var t := j.live[timer];
    var d := j.(timers := j.timers - {t}, live := j.live - {timer});
    assert DropTimer(j, t) == d && DropTimer(d, t) == d;
    StartPollOk(ss, j, t);
  }

  /** The task after an accepted status answer. */
  function Updated(task: Task, status: TaskStatus, errorCode: Option<Code>): Task {
    task.(status := status, error := errorCode, waiting := false)
  }

  lemma PollArrivesForm(ss: Session, j: Jobs, id: Id, status: TaskStatus, errorCode: Option<Code>)
    requires id in j.polls && j.polls[id].call in j.tasks && j.polls[id].epoch == ss.epoch
    ensures var t := j.polls[id].call;
      var w := WithTask(j.(polls := j.polls - {id}), t, Updated(j.tasks[t], status, errorCode));
      PollArrives(ss, j, id, status, errorCode) == if Pending(w.tasks[t]) then QueuePoll(ss.authenticated, w, t) else w
  {
  }

  lemma PollArrivesScheduled(ss: Session, j: Jobs, id: Id, status: TaskStatus, errorCode: Option<Code>)
    requires Scheduled(ss, j) && id in j.polls && j.polls[id].call in Waiting(j)
    requires j.polls[id].epoch == ss.epoch && SignedIn(ss)
    ensures Scheduled(ss, PollArrives(ss, j, id, status, errorCode))
  {
    var t := j.polls[id].call;
    var d := j.(polls := j.polls - {id});
    var w := WithTask(d, t, Updated(j.tasks[t], status, errorCode));
    PollArrivesForm(ss, j, id, status, errorCode);
    if Pending(w.tasks[t]) {
      QueueScheduled(ss, j, w, t);
    } else {
      RetaskScheduled(ss, d, t, w.tasks[t]);
    }
  }

  lemma PollArrivesMarks(ss: Session, j: Jobs, id: Id, status: TaskStatus, errorCode: Option<Code>)
    requires id in j.polls && j.polls[id].call in Waiting(j) && j.polls[id].epoch == ss.epoch
    ensures var k := PollArrives(ss, j, id, status, errorCode);
      Waiting(k) == Waiting(j) - {j.polls[id].call} && Linking(k) == Linking(j)
  {
    var t := j.polls[id].call;
    PollArrivesForm(ss, j, id, status, errorCode);
    RetaskMarks(j, t, Updated(j.tasks[t], status, errorCode));
    assert PollArrives(ss, j, id, status, errorCode).tasks ==
      WithTask(j, t, Updated(j.tasks[t], status, errorCode)).tasks;
  }

  lemma PollArrivesFrame(ss: Session, j: Jobs, id: Id, status: TaskStatus, errorCode: Option<Code>)
    requires id in j.polls
    ensures var k := PollArrives(ss, j, id, status, errorCode);
      k.next >= j.next && k.polls == j.polls - {id} && k.links == j.links
    ensures j.polls[id].epoch != ss.epoch ==> PollArrives(ss, j, id, status, errorCode) == j.(polls := j.polls - {id})
  {
  }

  lemma PollTakenScheduled(ss: Session, j: Jobs, id: Id)
    requires Scheduled(ss, j)
    ensures Scheduled(ss, j.(polls := j.polls - {id}))
  {
  }

  lemma PollArrivesOk(ss: Session, j: Jobs, id: Id, status: TaskStatus, errorCode: Option<Code>)
    requires JobsOk(ss, j) && id in j.polls
    ensures JobsOk(ss, PollArrives(ss, j, id, status, errorCode))
  {
    var k := PollArrives(ss, j, id, status, errorCode);
    PollArrivesFrame(ss, j, id, status, errorCode);
    if j.polls[id].epoch == ss.epoch {
      LiveCallsMarked(ss, j);
      PollArrivesScheduled(ss, j, id, status, errorCode);
      PollArrivesMarks(ss, j, id, status, errorCode);
    } else {
      PollTakenScheduled(ss, j, id);
      assert Waiting(k) == Waiting(j) && Linking(k) == Linking(j);
    }
    PollUnmarked(ss, j, k, id);
  }

  lemma PollFailsScheduled(ss: Session, j: Jobs, id: Id, code: Code)
    requires Scheduled(ss, j) && id in j.polls
    requires j.polls[id].epoch == ss.epoch ==> j.polls[id].call in Waiting(j)
    ensures var k := PollFails(ss, j.(polls := j.polls - {id}), j.polls[id], code);
      && Scheduled(ss, k) && Linking(k) == Linking(j)
      && Waiting(k) == if j.polls[id].epoch == ss.epoch then Waiting(j) - {j.polls[id].call} else Waiting(j)
  {
  }

  lemma PollFailsOk(ss: Session, j: Jobs, id: Id, code: Code)
    requires JobsOk(ss, j) && id in j.polls
    ensures JobsOk(ss, PollFails(ss, j.(polls := j.polls - {id}), j.polls[id], code))
  {
    LiveCallsMarked(ss, j);
    PollFailsScheduled(ss, j, id, code);
    PollUnmarked(ss, j, PollFails(ss, j.(polls := j.polls - {id}), j.polls[id], code), id);
  }

  lemma StartLinkScheduled(ss: Session, j: Jobs, t: Id)
    requires Scheduled(ss, j) && t in j.tasks
    ensures var k := StartLink(ss, j, t);
      && Scheduled(ss, k) && Waiting(k) == Waiting(j)
      && (k != j ==> SignedIn(ss) && t !in Linking(j) && Linking(k) == Linking(j) + {t})
  {
    var task := j.tasks[t].(linking := true, error := None);
    RetaskMarks(j, t, task);
    if j.tasks[t].status == Succeeded {
      RetaskScheduled(ss, j, t, task);
    }
  }

  lemma StartLinkOk(ss: Session, j: Jobs, t: Id)
    requires JobsOk(ss, j) && t in j.tasks
    ensures JobsOk(ss, StartLink(ss, j, t))
  {
    StartLinkScheduled(ss, j, t);
    if StartLink(ss, j, t) != j {
      LinkMarked(ss, j, StartLink(ss, j, t), t);
    }
  }

  /** A link that ends: its task stops linking and is otherwise scheduled as before. */
  lemma LinkEndsScheduled(ss: Session, j: Jobs, t: Id, task: Task, id: Id)
    requires SignedIn(ss) && Scheduled(ss, j) && t in j.tasks && !task.linking
    requires task.status == j.tasks[t].status && task.waiting == j.tasks[t].waiting
    requires task.error.Some? || task.error == j.tasks[t].error
    ensures var k := WithTask(j.(links := j.links - {id}), t, task);
      Scheduled(ss, k) && Waiting(k) == Waiting(j) && Linking(k) == Linking(j) - {t}
  {
    var d := j.(links := j.links - {id});
    LinkTakenScheduled(ss, j, id);
    RetaskScheduled(ss, d, t, task);
    RetaskMarks(d, t, task);
  }

  lemma LinkTakenScheduled(ss: Session, j: Jobs, id: Id)
    requires Scheduled(ss, j)
    ensures var d := j.(links := j.links - {id});
      Scheduled(ss, d) && Waiting(d) == Waiting(j) && Linking(d) == Linking(j)
  {
  }

  lemma LinkArrivesOk(ss: Session, j: Jobs, id: Id, expiresAt: Option<Text>)
    requires JobsOk(ss, j) && id in j.links
    ensures JobsOk(ss, LinkArrives(ss, j, id, expiresAt))
  {
    LiveCallsMarked(ss, j);
    var t := j.links[id].call;
    if j.links[id].epoch == ss.epoch {
      LinkEndsScheduled(ss, j, t, j.tasks[t].(started := true, expiresAt := expiresAt, linking := false), id);
    } else {
      LinkTakenScheduled(ss, j, id);
    }
    LinkUnmarked(ss, j, LinkArrives(ss, j, id, expiresAt), id);
  }

  lemma LinkFailsOk(ss: Session, j: Jobs, id: Id, code: Code)
    requires JobsOk(ss, j) && id in j.links
    ensures JobsOk(ss, LinkFails(ss, j.(links := j.links - {id}), j.links[id], code))
  {
    LiveCallsMarked(ss, j);
    var t := j.links[id].call;
    if j.links[id].epoch == ss.epoch {
      LinkEndsScheduled(ss, j, t, j.tasks[t].(error := Some(code), linking := false), id);
    } else {
      LinkTakenScheduled(ss, j, id);
    }
    LinkUnmarked(ss, j, LinkFails(ss, j.(links := j.links - {id}), j.links[id], code), id);
  }

  lemma AddTaskScheduled(ss: Session, j: Jobs, task: Task)
    requires Scheduled(ss, j) && SignedIn(ss) && !task.waiting
    ensures Scheduled(ss, AddTask(ss, j, task))
  {
    QueueScheduled(ss, j, Listed(j, task), j.next);
  }

  lemma AddTaskMarks(ss: Session, j: Jobs, task: Task)
    requires TasksListed(j) && !task.waiting && !task.linking
    ensures var k := AddTask(ss, j, task); Waiting(k) == Waiting(j) && Linking(k) == Linking(j)
  {
    assert AddTask(ss, j, task).tasks == j.tasks[j.next := task];
  }

  lemma AddTaskOk(ss: Session, j: Jobs, task: Task)
    requires JobsOk(ss, j) && SignedIn(ss) && !task.waiting && !task.linking
    ensures JobsOk(ss, AddTask(ss, j, task))
  {
    var k := AddTask(ss, j, task);
    AddTaskScheduled(ss, j, task);
    AddTaskMarks(ss, j, task);
    ClaimWider(ss, j.next, k.next, j.polls, Waiting(j));
    ClaimWider(ss, j.next, k.next, j.links, Linking(j));
  }

  lemma JobsMoved(ss: Session, t: Session, j: Jobs)
    requires JobsOk(ss, j) && Moved(ss, t) && (SignedIn(t) ==> SignedIn(ss))
    ensures JobsOk(t, j)
  {
    ClaimMoved(ss, t, j.next, j.polls, Waiting(j));
    ClaimMoved(ss, t, j.next, j.links, Linking(j));
  }

  lemma ActiveOk(ss: Session, j: Jobs, active: Option<Id>)
    requires JobsOk(ss, j)
    ensures JobsOk(ss, j.(active := active))
  {
    assert Waiting(j.(active := active)) == Waiting(j) && Linking(j.(active := active)) == Linking(j);
  }
}
