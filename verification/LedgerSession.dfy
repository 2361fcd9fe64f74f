/**
 The sign-in session of the ledger download page: the epoch that dates every
 call, the employee, and the recovery that re-establishes both. An asynchronous
 function is cut at its awaits; a suspended call is kept with the locals it
 captured, under a fresh number, until its answer or failure arrives.
 */
module LedgerSession {
  import opened Options
  import opened Json
  import opened LedgerModel

  type Id = nat
  type Url = Text
  type Cursor = Text

  datatype Code = SignInRequired | SecurityCheckFailed | NetworkError | OtherCode(name: Text)

  datatype Identity = Identity(orgId: Text, employeeId: Text, displayName: Text)

  datatype Context = Context(identity: Option<Identity>, csrfToken: Option<Text>)

  /** A call in flight: the epoch captured when it was issued, the employee then
      signed in (kept for the proofs), and what the suspended function captured. */
  datatype Request<+C> = Request(epoch: nat, issuer: Option<Identity>, call: C)

  datatype RecoveryStep =
    | PassiveContext
    | FullContext
    | Check(all: seq<Key>, start: nat, end: nat, cursor: Option<Cursor>, results: seq<Item>)

  datatype Recovery = NoRecovery | InRecovery | RecoveryDone

  datatype Session = Session(
    epoch: nat, identity: Option<Identity>, csrfToken: Option<Text>, authenticated: bool,
    recovering: bool, error: Option<Code>, recovery: Recovery, calls: map<Id, Request<RecoveryStep>>,
    next: Id)

  predicate SignInCode(code: Code) { code == SignInRequired || code == SecurityCheckFailed }

  predicate SameEmployee(a: Option<Identity>, b: Option<Identity>) {
    match (a, b)
    case (Some(x), Some(y)) => x.orgId == y.orgId && x.employeeId == y.employeeId
    case (None, None) => true
    case _ => false
  }

  predicate SignedIn(ss: Session) { ss.authenticated && !ss.recovering }

  function File<C>(ss: Session, next: Id, calls: map<Id, Request<C>>, call: C): map<Id, Request<C>> {
    calls[next := Request(ss.epoch, ss.identity, call)]
  }

  /** Calls of the current epoch were issued while signed in as the present employee. */
  ghost predicate Dated<C>(ss: Session, next: Id, calls: map<Id, Request<C>>) {
    forall i | i in calls ::
      && i < next
      && calls[i].epoch <= ss.epoch
      && (calls[i].epoch == ss.epoch ==> calls[i].issuer == ss.identity && SignedIn(ss))
  }

  /** Marks of work in progress: each call of this epoch is marked, no two for
      the same thing, and while signed in each mark has its call in flight. */
  ghost predicate Claimed<K(!new)>(ss: Session, next: Id, calls: map<Id, Request<K>>, marks: set<K>) {
    && Dated(ss, next, calls)
    && (forall i | i in calls && calls[i].epoch == ss.epoch :: calls[i].call in marks)
    && (forall i, j | i in calls && j in calls && calls[i].epoch == ss.epoch == calls[j].epoch
                      && calls[i].call == calls[j].call :: i == j)
    && (SignedIn(ss) ==> forall k | k in marks :: HasCall(ss, calls, k))
  }

  ghost predicate HasCall<K(!new)>(ss: Session, calls: map<Id, Request<K>>, k: K) {
    exists i | i in calls :: calls[i].epoch == ss.epoch && calls[i].call == k
  }

  lemma ClaimWider<K(!new)>(ss: Session, next: Id, more: Id, calls: map<Id, Request<K>>, marks: set<K>)
    requires Claimed(ss, next, calls, marks) && next <= more
    ensures Claimed(ss, more, calls, marks)
  {
  }

  /** The session changed without a new epoch. */
  predicate Moved(ss: Session, t: Session) {
    && t.epoch == ss.epoch
    && (SignedIn(ss) ==> SignedIn(t) && t.identity == ss.identity)
  }

  lemma ClaimMoved<K(!new)>(ss: Session, t: Session, next: Id, calls: map<Id, Request<K>>, marks: set<K>)
    requires Claimed(ss, next, calls, marks) && Moved(ss, t)
    requires SignedIn(t) && !SignedIn(ss) ==> marks == {}
    ensures Claimed(t, next, calls, marks)
  {
    if SignedIn(ss) && SignedIn(t) {
      forall k | k in marks
        ensures HasCall(t, calls, k)
      {
        assert HasCall(ss, calls, k);
      }
    }
  }

  lemma ClaimOutdated<K(!new)>(
    ss: Session, t: Session, next: Id, calls: map<Id, Request<K>>, marks: set<K>, left: set<K>)
    requires Claimed(ss, next, calls, marks) && t.epoch > ss.epoch && !SignedIn(t)
    ensures Claimed(t, next, calls, left)
  {
  }

  lemma ClaimAdded<K(!new)>(ss: Session, next: Id, calls: map<Id, Request<K>>, marks: set<K>, k: K)
    requires Claimed(ss, next, calls, marks) && SignedIn(ss) && k !in marks
    ensures Claimed(ss, next + 1, File(ss, next, calls, k), marks + {k})
  {
    var more := File(ss, next, calls, k);
    assert next in more && more[next].call == k;
    forall m | m in marks
      ensures HasCall(ss, more, m)
    {
      assert HasCall(ss, calls, m);
      var i :| i in calls && calls[i].epoch == ss.epoch && calls[i].call == m;
      assert i in more && more[i] == calls[i];
    }
  }

  lemma ClaimTaken<K(!new)>(ss: Session, next: Id, calls: map<Id, Request<K>>, marks: set<K>, id: Id)
    requires Claimed(ss, next, calls, marks) && id in calls
    ensures Claimed(ss, next, calls - {id}, if calls[id].epoch == ss.epoch then marks - {calls[id].call} else marks)
  {
    var less := calls - {id};
    assert forall i | i in less :: i in calls && less[i] == calls[i];
    if SignedIn(ss) {
      forall m | m in marks && !(calls[id].epoch == ss.epoch && calls[id].call == m)
        ensures HasCall(ss, less, m)
      {
        assert HasCall(ss, calls, m);
        var i :| i in calls && calls[i].epoch == ss.epoch && calls[i].call == m;
        assert i in less && less[i] == calls[i];
      }
    }
  }

  // ---------------------------------------------------------------- steps

  function ExpireSession(ss: Session): Session {
    ss.(epoch := ss.epoch + 1, authenticated := false, csrfToken := None, error := Some(SignInRequired))
  }

  function BeginSession(ss: Session): Session {
    ss.(epoch := ss.epoch + 1, recovering := true, authenticated := false, error := None)
  }

  function EndRecovery(ss: Session): Session { ss.(recovering := false, recovery := RecoveryDone) }

  function EndPassive(ss: Session): Session { ss.(recovery := RecoveryDone) }

  function TakeRecovery(ss: Session, id: Id): Session { ss.(calls := ss.calls - {id}) }

  function FileRecovery(ss: Session, step: RecoveryStep): Session {
    ss.(calls := File(ss, ss.next, ss.calls, step), next := ss.next + 1)
  }

  /** A recovery is under way exactly while one of its calls is in flight, and
      there are never two of them; the page shows itself as recovering exactly
      during a full recovery, and is not signed in then. */
  ghost predicate SessionOk(ss: Session) {
    && !(ss.recovering && ss.authenticated)
    && (forall i | i in ss.calls ::
          && i < ss.next
          && ss.calls[i].epoch <= ss.epoch
          && (ss.calls[i].epoch == ss.epoch ==> ss.calls[i].issuer == ss.identity)
          && ss.recovery == InRecovery
          && (ss.recovering <==> !ss.calls[i].call.PassiveContext?)
          && (ss.calls[i].call.PassiveContext? && ss.calls[i].epoch == ss.epoch ==> ss.authenticated)
          && (ss.calls[i].call.Check? ==> ss.calls[i].call.start <= ss.calls[i].call.end <= |ss.calls[i].call.all|))
    && (forall i, j | i in ss.calls && j in ss.calls :: i == j)
    && (ss.calls == map[] ==> ss.recovery != InRecovery && !ss.recovering)
  }

  lemma NoneLeft(ss: Session, id: Id)
    requires SessionOk(ss) && id in ss.calls
    ensures TakeRecovery(ss, id).calls == map[]
  {
  }

  lemma FileRecoveryOk(ss: Session, step: RecoveryStep)
    requires ss.calls == map[] && ss.recovery == InRecovery
    requires step.PassiveContext? ==> ss.authenticated && !ss.recovering
    requires !step.PassiveContext? ==> ss.recovering && !ss.authenticated
    requires step.Check? ==> step.start <= step.end <= |step.all|
    ensures SessionOk(FileRecovery(ss, step))
  {
    assert ss.next in FileRecovery(ss, step).calls;
  }
}
