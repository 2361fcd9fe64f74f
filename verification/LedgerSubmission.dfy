/** Submitting the selection as a package, once per idempotency key. */
module LedgerSubmission {
  import opened Options
  import opened Json
  import opened LedgerModel
  import opened LedgerSession

  datatype Attempt = Attempt(fingerprint: Text, selection: seq<Key>, idempotencyKey: Id, task: Option<Id>)

  datatype SubmitCall = SubmitCall(idempotencyKey: Id, selection: seq<Key>)

  /** `sent` and `made` record every submit sent and every task made from one,
      in order; `next` hands out idempotency keys no key was ever equal to. */
  datatype Submission = Submission(
    attempt: Option<Attempt>, submitting: bool, submitError: Option<Code>,
    calls: map<Id, Request<SubmitCall>>, next: Id, sent: seq<SubmitCall>, made: seq<(Id, Id)>)

  function CallOf(a: Attempt): SubmitCall { SubmitCall(a.idempotencyKey, a.selection) }

  function StopSubmit(u: Submission): Submission { u.(submitting := false) }

  function ForgetSubmission(u: Submission): Submission { u.(attempt := None, submitError := None) }

  /** The attempt a submit uses: the last one, if the selection is unchanged. */
  function AttemptFor(u: Submission, selection: seq<Key>, anew: bool): Attempt {
    if anew || u.attempt.None? || u.attempt.value.fingerprint != Fingerprint(selection)
    then Attempt(Fingerprint(selection), selection, u.next, None)
    else u.attempt.value
  }

  function Adopt(u: Submission, selection: seq<Key>, anew: bool): Submission {
    u.(attempt := Some(AttemptFor(u, selection, anew)), next := u.next + 1)
  }

  function Send(ss: Session, u: Submission): Submission
    requires u.attempt.Some?
  {
    var c := CallOf(u.attempt.value);
    u.(submitting := true, submitError := None, calls := File(ss, u.next, u.calls, c), next := u.next + 1,
      sent := u.sent + [c])
  }

  /** A submit whose attempt already has its task only shows that task. */
  function StartSubmit(ss: Session, u: Submission, selection: seq<Key>, anew: bool): Submission {
    var v := Adopt(u, selection, anew);
    if v.attempt.value.task.Some? then v else Send(ss, v)
  }

  function SubmitArrives(ss: Session, u: Submission, id: Id, task: Id): Submission
    requires id in u.calls
  {
    var r, v := u.calls[id], u.(calls := u.calls - {id});
    if r.epoch != ss.epoch then v
    else
      var a := if u.attempt.Some? && u.attempt.value.idempotencyKey == r.call.idempotencyKey
               then Some(u.attempt.value.(task := Some(task))) else u.attempt;
      v.(attempt := a, submitting := false, made := u.made + [(r.call.idempotencyKey, task)])
  }

  function SubmitFails(ss: Session, u: Submission, r: Request<SubmitCall>, code: Code): Submission {
    if r.epoch != ss.epoch then u else u.(submitError := Some(code), submitting := false)
  }

  // ---------------------------------------------------------------- invariants

  function Submitting(u: Submission): set<SubmitCall> {
    if u.submitting && u.attempt.Some? then {CallOf(u.attempt.value)} else {}
  }

  /** A key never carries two selections, and all keys are older than `next`. */
  ghost predicate KeysFaithful(u: Submission) {
    && (forall i | 0 <= i < |u.sent| :: u.sent[i].idempotencyKey < u.next)
    && (forall i, j | 0 <= i < |u.sent| && 0 <= j < |u.sent| && u.sent[i].idempotencyKey == u.sent[j].idempotencyKey ::
          u.sent[i].selection == u.sent[j].selection)
    && (u.attempt.Some? ==>
          && u.attempt.value.idempotencyKey < u.next
          && u.attempt.value.fingerprint == Fingerprint(u.attempt.value.selection)
          && forall i | 0 <= i < |u.sent| && u.sent[i].idempotencyKey == u.attempt.value.idempotencyKey ::
               u.sent[i].selection == u.attempt.value.selection)
  }

  predicate MadeWith(u: Submission, key: Id) { exists i | 0 <= i < |u.made| :: u.made[i].0 == key }

  /** At most one task per key, and the open attempt's key has none yet. */
  ghost predicate TasksOnce(u: Submission) {
    && (forall i | 0 <= i < |u.made| :: u.made[i].0 < u.next)
    && (forall i, j | 0 <= i < j < |u.made| :: u.made[i].0 != u.made[j].0)
    && (u.attempt.Some? ==> (u.attempt.value.task.Some? <==> MadeWith(u, u.attempt.value.idempotencyKey)))
    && (u.submitting ==> u.attempt.Some? && u.attempt.value.task.None?)
  }

  ghost predicate SubmissionOk(ss: Session, u: Submission) {
    && KeysFaithful(u) && TasksOnce(u)
    && Claimed(ss, u.next, u.calls, Submitting(u))
    && (u.submitting ==> SignedIn(ss))
  }

  lemma StopSubmitOk(ss: Session, t: Session, u: Submission)
    requires SubmissionOk(ss, u) && t.epoch > ss.epoch && !SignedIn(t)
    ensures SubmissionOk(t, StopSubmit(u))
  {
    ClaimOutdated(ss, t, u.next, u.calls, Submitting(u), {});
  }

  lemma ForgetSubmissionOk(ss: Session, u: Submission)
    requires SubmissionOk(ss, u) && !u.submitting
    ensures SubmissionOk(ss, ForgetSubmission(u))
  {
  }

  lemma AdoptOk(ss: Session, u: Submission, selection: seq<Key>, anew: bool)
    requires SubmissionOk(ss, u) && !u.submitting
    ensures SubmissionOk(ss, Adopt(u, selection, anew))
    ensures Adopt(u, selection, anew).attempt.value.selection == selection
  {
    var v := Adopt(u, selection, anew);
    if v.attempt == u.attempt {
      FingerprintInjective(v.attempt.value.selection, selection);
    }
    ClaimWider(ss, u.next, v.next, u.calls, {});
  }

  lemma SendOk(ss: Session, u: Submission)
    requires SubmissionOk(ss, u) && SignedIn(ss) && !u.submitting && u.attempt.Some? && u.attempt.value.task.None?
    ensures SubmissionOk(ss, Send(ss, u))
  {
    SendKeys(ss, u);
    ClaimAdded(ss, u.next, u.calls, {}, CallOf(u.attempt.value));
    assert {} + {CallOf(u.attempt.value)} == Submitting(Send(ss, u));
  }

  lemma SendKeys(ss: Session, u: Submission)
    requires KeysFaithful(u) && TasksOnce(u) && u.attempt.Some? && u.attempt.value.task.None?
    ensures KeysFaithful(Send(ss, u)) && TasksOnce(Send(ss, u))
  {
  }

  lemma StartSubmitOk(ss: Session, u: Submission, selection: seq<Key>, anew: bool)
    requires SubmissionOk(ss, u) && SignedIn(ss) && !u.submitting
    ensures SubmissionOk(ss, StartSubmit(ss, u, selection, anew))
  {
    AdoptOk(ss, u, selection, anew);
    var v := Adopt(u, selection, anew);
    if v.attempt.value.task.None? {
      SendOk(ss, v);
    }
  }

  /** An accepted answer is always the answer to the open attempt. */
  lemma SubmitArrivesTasks(ss: Session, u: Submission, id: Id, task: Id)
    requires SubmissionOk(ss, u) && id in u.calls
    ensures TasksOnce(SubmitArrives(ss, u, id, task)) && KeysFaithful(SubmitArrives(ss, u, id, task))
    ensures u.calls[id].epoch == ss.epoch ==>
      u.submitting && u.attempt.Some? && u.calls[id].call == CallOf(u.attempt.value)
  {
    var v := SubmitArrives(ss, u, id, task);
    if u.calls[id].epoch == ss.epoch {
      var key := u.attempt.value.idempotencyKey;
      assert v.made[|u.made|] == (key, task);
      assert !MadeWith(u, key);
    }
  }

  lemma SubmitArrivesOk(ss: Session, u: Submission, id: Id, task: Id)
    requires SubmissionOk(ss, u) && id in u.calls
    ensures SubmissionOk(ss, SubmitArrives(ss, u, id, task))
  {
    SubmitArrivesTasks(ss, u, id, task);
    ClaimTaken(ss, u.next, u.calls, Submitting(u), id);
    assert Submitting(u) - {u.calls[id].call} == {} || u.calls[id].epoch != ss.epoch;
  }

  lemma SubmitFailsOk(ss: Session, u: Submission, id: Id, code: Code)
    requires SubmissionOk(ss, u) && id in u.calls
    ensures SubmissionOk(ss, SubmitFails(ss, u.(calls := u.calls - {id}), u.calls[id], code))
  {
    ClaimTaken(ss, u.next, u.calls, Submitting(u), id);
    assert Submitting(u) - {u.calls[id].call} == {} || u.calls[id].epoch != ss.epoch;
  }

  lemma SubmissionMoved(ss: Session, t: Session, u: Submission)
    requires SubmissionOk(ss, u) && Moved(ss, t)
    ensures SubmissionOk(t, u)
  {
    ClaimMoved(ss, t, u.next, u.calls, Submitting(u));
  }
}
