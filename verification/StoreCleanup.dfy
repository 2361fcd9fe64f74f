/** The fingerprinted two-phase cleanup of a store's partitions. */
module StoreCleanup {
  import opened Options

  type Key = string

  /** What a preview shows of a partition; `state` stands for the fields that only identify its content. */
  datatype Target = Target(
    id: string, enterpriseKey: string, dataset: string, storeName: string, date: string, objectKey: Key, state: string)

  datatype Partition = Partition(org: string, enterpriseName: string, row: Target)

  datatype Scope = Scope(org: string, enterpriseName: string, datasets: seq<string>, storeNames: Option<seq<string>>,
    storeNameContains: Option<seq<string>>, startDate: Option<string>, endDate: Option<string>)

  datatype Error =
    | ScopeInvalid | OrganizationNotFound | EmptyMatch | EnterpriseAmbiguous | FingerprintMismatch | DatabaseFailed

  datatype Result<+T> = Ok(value: T) | Err(error: Error)

  /** The fingerprint of a scope and its targets, taken as injective: it is the pair itself. */
  datatype Fingerprint = Fingerprint(scope: Scope, targets: seq<Target>)

  datatype Inventory = Inventory(
    version: int, scope: Scope, targets: seq<Target>, preserved: nat, fingerprint: Fingerprint)

  datatype Outcome = Outcome(deleted: nat, invalidated: nat, garbage: nat)

  /** Scope normalisation, and the parts of the selection that compare text in the database. */
  datatype Config = Config(
    normalize: Scope -> Option<Scope>, nameContains: (string, seq<string>) -> bool, notAfter: (string, string) -> bool)

  // ---------------------------------------------------------------- selecting

  predicate InScope(c: Config, s: Scope, p: Partition) {
    && p.org == s.org && p.enterpriseName == s.enterpriseName && p.row.dataset in s.datasets
    && (s.storeNames.Some? ==> p.row.storeName in s.storeNames.value)
    && (s.storeNameContains.Some? ==> c.nameContains(p.row.storeName, s.storeNameContains.value))
    && (s.startDate.Some? ==> c.notAfter(s.startDate.value, p.row.date))
    && (s.endDate.Some? ==> c.notAfter(p.row.date, s.endDate.value))
  }

  function Selected(c: Config, s: Scope, ps: seq<Partition>): seq<Target> {
    if ps == [] then []
    else if InScope(c, s, ps[0]) then [ps[0].row] + Selected(c, s, ps[1..])
    else Selected(c, s, ps[1..])
  }

  /** `targets`: the rows in scope, in the table's id order, all of one enterprise. */
  function Targets(c: Config, s: Scope, ps: seq<Partition>): Result<seq<Target>> {
    var rows := Selected(c, s, ps);
    if rows == [] then Err(EmptyMatch)
    else if exists i | 0 <= i < |rows| :: rows[i].enterpriseKey != rows[0].enterpriseKey then Err(EnterpriseAmbiguous)
    else Ok(rows)
  }

  function Ids(rows: seq<Target>): set<string> { set r | r in rows :: r.id }

  /** What `deleteMany` leaves. */
  function Without(ps: seq<Partition>, org: string, ids: set<string>): seq<Partition> {
    if ps == [] then []
    else if ps[0].org == org && ps[0].row.id in ids then Without(ps[1..], org, ids)
    else [ps[0]] + Without(ps[1..], org, ids)
  }

  /** Ids are the table's primary key. */
  predicate UniqueIds(ps: seq<Partition>) {
    forall i, j | 0 <= i < j < |ps| :: ps[i].row.id != ps[j].row.id
  }

  predicate NoneOf(ps: seq<Partition>, ids: set<string>) {
    forall i | 0 <= i < |ps| :: ps[i].row.id !in ids
  }

  predicate Referenced(ps: seq<Partition>, key: Key) {
    exists i | 0 <= i < |ps| :: ps[i].row.objectKey == key
  }

  /** What a scope names: the organization and the enterprise, one of the datasets, one of the stores if stores
      are listed, a store with one of the parts of a name if parts are given, and a date from the first day
      to the last, where there is one. */
  ghost predicate Names(c: Config, s: Scope, p: Partition) {
    && s.org == p.org && s.enterpriseName == p.enterpriseName
    && (exists i | 0 <= i < |s.datasets| :: s.datasets[i] == p.row.dataset)
    && (s.storeNames.None? || exists i | 0 <= i < |s.storeNames.value| :: s.storeNames.value[i] == p.row.storeName)
    && (s.storeNameContains.None? || c.nameContains(p.row.storeName, s.storeNameContains.value))
    && (s.startDate.None? || c.notAfter(s.startDate.value, p.row.date))
    && (s.endDate.None? || c.notAfter(p.row.date, s.endDate.value))
  }

  lemma ScopeMeans(c: Config, s: Scope, p: Partition)
    ensures InScope(c, s, p) <==> Names(c, s, p)
  {
  }

  lemma {:induction false} SelectedExact(c: Config, s: Scope, ps: seq<Partition>, row: Target)
    ensures row in Selected(c, s, ps) <==> exists p | p in ps :: InScope(c, s, p) && p.row == row
  {
    if ps != [] {
      SelectedExact(c, s, ps[1..], row);
      assert ps == [ps[0]] + ps[1..];
    }
  }

  /** The targets are the rows of exactly the partitions the scope names; there must be one, and they must be
      of one enterprise. */
  lemma TargetsMean(c: Config, s: Scope, ps: seq<Partition>, row: Target)
    ensures Targets(c, s, ps).Ok? ==>
      (row in Targets(c, s, ps).value <==> exists p | p in ps :: Names(c, s, p) && p.row == row)
    ensures Targets(c, s, ps) == Err(EmptyMatch) <==> forall p | p in ps :: !Names(c, s, p)
    ensures Targets(c, s, ps) == Err(EnterpriseAmbiguous) <==>
      exists p, q | p in ps && q in ps && Names(c, s, p) && Names(c, s, q) :: p.row.enterpriseKey != q.row.enterpriseKey
  {
    SelectedNames(c, s, ps, row);
    EmptyMeans(c, s, ps);
    AmbiguousMeans(c, s, ps);
    hide Names, Selected;
  }

  lemma SelectedNames(c: Config, s: Scope, ps: seq<Partition>, row: Target)
    ensures row in Selected(c, s, ps) <==> exists p | p in ps :: Names(c, s, p) && p.row == row
  {
    forall p
      ensures InScope(c, s, p) <==> Names(c, s, p)
    {
      ScopeMeans(c, s, p);
    }
    hide InScope, Names, Selected;
    SelectedExact(c, s, ps, row);
  }

  lemma EmptyMeans(c: Config, s: Scope, ps: seq<Partition>)
    ensures Selected(c, s, ps) == [] <==> forall p | p in ps :: !Names(c, s, p)
  {
    hide Names, Selected;
    var rows := Selected(c, s, ps);
    if p :| p in ps && Names(c, s, p) {
      SelectedNames(c, s, ps, p.row);
    }
    if rows != [] {
      SelectedNames(c, s, ps, rows[0]);
      assert rows[0] in rows;
    }
  }

  lemma AmbiguousMeans(c: Config, s: Scope, ps: seq<Partition>)
    ensures var rows := Selected(c, s, ps);
      (exists i | 0 <= i < |rows| :: rows[i].enterpriseKey != rows[0].enterpriseKey) <==>
      exists p, q | p in ps && q in ps && Names(c, s, p) && Names(c, s, q) :: p.row.enterpriseKey != q.row.enterpriseKey
  {
    hide Names, Selected;
    var rows := Selected(c, s, ps);
    if p, q :| p in ps && q in ps && Names(c, s, p) && Names(c, s, q) && p.row.enterpriseKey != q.row.enterpriseKey {
      SelectedNames(c, s, ps, p.row);
      SelectedNames(c, s, ps, q.row);
      var i :| 0 <= i < |rows| && rows[i] == p.row;
      var j :| 0 <= j < |rows| && rows[j] == q.row;
    }
    if i :| 0 <= i < |rows| && rows[i].enterpriseKey != rows[0].enterpriseKey {
      assert rows[i] in rows && rows[0] in rows;
      SelectedNames(c, s, ps, rows[i]);
      SelectedNames(c, s, ps, rows[0]);
    }
  }

  /** The rows of a partition table that a scope does not select, in order. */
  function Kept(c: Config, s: Scope, ps: seq<Partition>): seq<Partition> {
    if ps == [] then []
    else if InScope(c, s, ps[0]) then Kept(c, s, ps[1..])
    else [ps[0]] + Kept(c, s, ps[1..])
  }

  lemma UniqueTail(ps: seq<Partition>)
    requires UniqueIds(ps) && ps != []
    ensures UniqueIds(ps[1..]) && forall p | p in ps[1..] :: p.row.id != ps[0].row.id
  {
  }

  /** Deleting the selected rows by id deletes the rows in scope and nothing else. */
  lemma {:induction false} DeletesScope(c: Config, s: Scope, ps: seq<Partition>, ids: set<string>)
    requires UniqueIds(ps) && forall p | p in ps :: p.row.id in ids <==> InScope(c, s, p)
    ensures Without(ps, s.org, ids) == Kept(c, s, ps)
    ensures |Kept(c, s, ps)| + |Selected(c, s, ps)| == |ps|
  {
    if ps != [] {
      UniqueTail(ps);
      assert ps[0] in ps;
      DeletesScope(c, s, ps[1..], ids);
    }
  }

  lemma SelectedIds(c: Config, s: Scope, ps: seq<Partition>, p: Partition)
    requires UniqueIds(ps) && p in ps
    ensures p.row.id in Ids(Selected(c, s, ps)) <==> InScope(c, s, p)
  {
    if InScope(c, s, p) {
      SelectedExact(c, s, ps, p.row);
    }
    if p.row.id in Ids(Selected(c, s, ps)) {
      var r :| r in Selected(c, s, ps) && r.id == p.row.id;
      SelectedExact(c, s, ps, r);
      var q :| q in ps && InScope(c, s, q) && q.row == r;
      assert q == p;
    }
  }

  lemma {:induction false} KeptIsUnselected(c: Config, s: Scope, ps: seq<Partition>)
    ensures Selected(c, s, Kept(c, s, ps)) == []
  {
    if ps != [] {
      KeptIsUnselected(c, s, ps[1..]);
      if !InScope(c, s, ps[0]) {
        var rest := Kept(c, s, ps[1..]);
        assert ([ps[0]] + rest)[0] == ps[0] && ([ps[0]] + rest)[1..] == rest;
      }
    }
  }

  /** Right after a cleanup the same scope matches nothing, so a repeated confirmation changes nothing. */
  lemma CleanupIsOnce(c: Config, s: Scope, ps: seq<Partition>)
    ensures Targets(c, s, Kept(c, s, ps)) == Err(EmptyMatch)
  {
    KeptIsUnselected(c, s, ps);
  }

  // ---------------------------------------------------------------- the database

  /** What the tables hold. */
  datatype Store = Store(partitions: seq<Partition>, garbage: set<Key>, audits: seq<Outcome>)

  /** What invalidating the affected download requests reports. */
  datatype Affected = Affected(objectKeys: set<Key>, invalidated: nat)

  /** What becomes of one attempt at the transaction: its commit is acknowledged, or the
      attempt ends in an error, transient or not, with its commit applied or not. */
  datatype Fate = Acknowledged | Lost(applied: bool, transient: bool)

  /** A commit that took effect. */
  datatype Commit = Commit(before: Store, after: Store)

  const MAX_ATTEMPTS := 3

  /** Of the confirmed rows none is left and no other is gone, exactly the target keys no
      surviving row refers to are queued, and one audit record says so. */
  ghost predicate Cleans(c: Config, expected: Fingerprint, affected: Affected, commit: Commit) {
    var before, after := commit.before, commit.after;
    var unreferenced := set k | k in Keys(expected.targets) && !Referenced(after.partitions, k);
    && after.partitions == Kept(c, expected.scope, before.partitions)
    && after.garbage == before.garbage + unreferenced
    && after.audits == before.audits
         + [Outcome(|expected.targets|, affected.invalidated, |affected.objectKeys + unreferenced|)]
  }

  /** Some attempt's commit takes effect: every attempt before it is lost without a commit, and is repeated. */
  predicate Applies(fates: nat -> Fate) {
    exists i | 0 <= i < MAX_ATTEMPTS :: AppliesAt(fates, i)
  }

  predicate AppliesAt(fates: nat -> Fate, i: nat) {
    Carried(fates(i)) && forall j | 0 <= j < i :: fates(j) == Lost(false, true)
  }

  /** There are three attempts: a commit takes effect in the first, or in the second or third if those before it
      were lost without a commit in a transient error. */
  lemma ThreeAttempts(fates: nat -> Fate)
    ensures Applies(fates) <==>
      || Carried(fates(0)) || (fates(0) == Lost(false, true) && Carried(fates(1)))
      || (fates(0) == Lost(false, true) && fates(1) == Lost(false, true) && Carried(fates(2)))
  {
    if Carried(fates(0)) {
      assert AppliesAt(fates, 0);
    } else if Carried(fates(1)) && fates(0) == Lost(false, true) {
      assert AppliesAt(fates, 1);
    } else if Carried(fates(2)) && fates(0) == Lost(false, true) && fates(1) == Lost(false, true) {
      assert AppliesAt(fates, 2);
    }
  }

  /** The first commit to take effect is acknowledged. */
  predicate Succeeds(fates: nat -> Fate) {
    exists i | 0 <= i < MAX_ATTEMPTS :: AppliesAt(fates, i) && fates(i).Acknowledged?
  }

  /** The first commit to take effect goes unacknowledged, and the next attempt gets through. */
  predicate MeetsItself(fates: nat -> Fate) {
    exists i | 0 <= i < MAX_ATTEMPTS - 1 :: MeetsAt(fates, i)
  }

  predicate MeetsAt(fates: nat -> Fate, i: nat) {
    AppliesAt(fates, i) && fates(i) == Lost(true, true) && Carried(fates(i + 1))
  }

  /** Nobody else changes the tables between two attempts. */
  ghost predicate Alone(others: nat -> Option<Store>) { forall i | 0 <= i < MAX_ATTEMPTS :: others(i).None? }

  /** The table calls for the confirmed cleanup. */
  ghost predicate Due(c: Config, organizations: set<string>, ps: seq<Partition>, expected: Fingerprint) {
    expected.scope.org in organizations && Targets(c, expected.scope, ps) == Ok(expected.targets)
  }

  /** What the caller presents is confirmed by the tables. */
  ghost predicate Agreed(
    c: Config, organizations: set<string>, ps: seq<Partition>, inventory: Inventory, expected: Fingerprint) {
    Confirmed(c, ps, inventory, expected) && expected.scope.org in organizations
  }

  /** One more commit took effect: the confirmed cleanup, on the tables as it found them. */
  ghost predicate CleanedOnce(
    c: Config, inventory: Inventory, expected: Fingerprint, affected: nat -> Affected, was: seq<Commit>,
    now: seq<Commit>) {
    && |now| == |was| + 1 && was <= now
    && Confirmed(c, now[|was|].before.partitions, inventory, expected)
    && exists n | 0 <= n < MAX_ATTEMPTS :: Cleans(c, expected, affected(n), now[|was|])
  }

  /** The caller is told what the last audit record says. */
  ghost predicate Told(commits: seq<Commit>, outcome: Outcome) {
    commits != [] && commits[|commits| - 1].after.audits == commits[|commits| - 1].before.audits + [outcome]
  }

  /** The attempt gets as far as its commit, if its checks pass. */
  predicate Carried(fate: Fate) { fate.Acknowledged? || fate.applied }

  /** The tables are as they were, or as the one commit left them. */
  ghost predicate Traced(
    c: Config, organizations: set<string>, expected: Fingerprint, start: Store, was: seq<Commit>, now: Store,
    commits: seq<Commit>) {
    if commits == was then now == start
    else
      && |commits| == |was| + 1 && commits[|was|] == Commit(start, now)
      && Due(c, organizations, start.partitions, expected)
      && now.partitions == Kept(c, expected.scope, start.partitions)
  }

  lemma CleansKept(c: Config, expected: Fingerprint, affected: Affected)
    ensures forall commit | Cleans(c, expected, affected, commit) ::
      commit.after.partitions == Kept(c, expected.scope, commit.before.partitions)
  {
  }

  lemma EmptyNow(
    c: Config, organizations: set<string>, expected: Fingerprint, start: Store, was: seq<Commit>, now: Store,
    commits: seq<Commit>)
    requires commits != was
    ensures Traced(c, organizations, expected, start, was, now, commits) ==>
      Targets(c, expected.scope, now.partitions) == Err(EmptyMatch) && expected.scope.org in organizations
  {
    CleanupIsOnce(c, expected.scope, start.partitions);
  }

  /** Every attempt so far was lost without a commit, and is repeated. */
  predicate Pending(fates: nat -> Fate, n: nat) { forall j | 0 <= j < n :: fates(j) == Lost(false, true) }

  lemma NothingYet(fates: nat -> Fate)
    ensures Pending(fates, 0)
  {
  }

  /** What the next attempt decides. */
  lemma PendingEnds(fates: nat -> Fate, n: nat)
    requires n < MAX_ATTEMPTS && Pending(fates, n)
    ensures Carried(fates(n)) ==> Applies(fates) && (Succeeds(fates) <==> fates(n).Acknowledged?)
    ensures Carried(fates(n)) && MeetsItself(fates) ==>
      fates(n) == Lost(true, true) && n + 1 < MAX_ATTEMPTS && Carried(fates(n + 1))
    ensures !Carried(fates(n)) && (!fates(n).transient || n + 1 == MAX_ATTEMPTS) ==> !Applies(fates) && !Succeeds(fates)
    ensures fates(n) == Lost(false, true) ==> Pending(fates, n + 1)
  {
    if Carried(fates(n)) {
      assert AppliesAt(fates, n);
      if MeetsItself(fates) {
        var i :| 0 <= i < MAX_ATTEMPTS - 1 && MeetsAt(fates, i);
        assert i == n;
      }
    }
  }

  class Database {
    const config: Config
    const organizations: set<string>
    var partitions: seq<Partition>
    var garbage: set<Key>
    var audits: seq<Outcome>
    var commits: seq<Commit>  // the cleanups that took effect
    var removed: set<string>  // ids of rows a cleanup deleted; ids do not come back

    function Now(): Store
      reads this
    {
      Store(partitions, garbage, audits)
    }

    ghost predicate Valid()
      reads this
    {
      UniqueIds(partitions) && NoneOf(partitions, removed)
    }

    constructor (config: Config, organizations: set<string>)
      ensures this.config == config && this.organizations == organizations && Valid()
      ensures Now() == Store([], {}, []) && commits == [] && removed == {}
    {
      this.config, this.organizations := config, organizations;
      partitions, garbage, audits, commits, removed := [], {}, [], [], {};
    }

    /** `buildStoreCleanupInventory`. */
    method Preview(input: Scope) returns (r: Result<Inventory>)
      requires Valid()
      ensures r.Ok? <==>
        && config.normalize(input).Some? && config.normalize(input).value.org in organizations
        && Targets(config, config.normalize(input).value, partitions).Ok?
      ensures r.Ok? ==> var scope := config.normalize(input).value;
        && r.value.version == 1 && r.value.scope == scope && Ok(r.value.targets) == Targets(config, scope, partitions)
        && r.value.fingerprint == Fingerprint(scope, r.value.targets)
        && r.value.preserved == |Preserved(config, scope, partitions)|
    {
      var scope := config.normalize(input);
      if scope.None? {
        return Err(ScopeInvalid);
      }
      if scope.value.org !in organizations {
        return Err(OrganizationNotFound);
      }
      var rows := Targets(config, scope.value, partitions);
      if rows.Err? {
        return Err(rows.error);
      }
      DeletesTargets(config, scope.value, partitions);
      PreservedCounted(config, scope.value, partitions);
      var preserved := |Owned(scope.value.org, Without(partitions, scope.value.org, Ids(rows.value)))|;
      r := Ok(Inventory(1, scope.value, rows.value, preserved, Fingerprint(scope.value, rows.value)));
    }

    /** The pause between two attempts, in which others may leave the tables in any state,
        except that the id of a deleted row does not come back. */
    method Pause(others: Option<Store>)
      requires Valid()
      modifies this`partitions, this`garbage, this`audits
      ensures Valid() && (others.None? ==> Now() == old(Now()))
    {
      if others.Some? && UniqueIds(others.value.partitions) && NoneOf(others.value.partitions, removed) {
        partitions, garbage, audits := others.value.partitions, others.value.garbage, others.value.audits;
      }
    }

    /** The writes of the transaction, taken effect together. */
    method Apply(scope: Scope, current: seq<Target>, affected: Affected) returns (outcome: Outcome)
      requires Valid() && Targets(config, scope, partitions) == Ok(current)
      modifies this`partitions, this`garbage, this`audits, this`commits, this`removed
      ensures Valid() && commits == old(commits) + [Commit(old(Now()), Now())]
      ensures Cleans(config, Fingerprint(scope, current), affected, Commit(old(Now()), Now()))
      ensures audits == old(audits) + [outcome] && removed == old(removed) + Ids(current)
    {
      ghost var before := Now();
      var was := Store(partitions, garbage, audits);
      DeletesTargets(config, scope, partitions);
      KeptIsUnique(config, scope, partitions);
      forall p | p in Kept(config, scope, partitions)
        ensures p in partitions && p.row.id !in Ids(current)
      {
        KeptExact(config, scope, partitions, p);
        SelectedIds(config, scope, partitions, p);
      }
      partitions := Without(partitions, scope.org, Ids(current));
      var deleted := |was.partitions| - |partitions|;
      var queued, objectKeys := Enqueue(current, affected.objectKeys);
      garbage := garbage + queued;
      outcome := Outcome(deleted, affected.invalidated, |objectKeys|);
      audits := audits + [outcome];
      removed := removed + Ids(current);
      commits := commits + [Commit(was, Store(partitions, garbage, audits))];
    }

    /** One attempt at the transaction. It is all or nothing, but its caller may not
        learn which: an error with the commit applied. */
    method Attempt(inventory: Inventory, expected: Fingerprint, affected: Affected, fate: Fate)
      returns (r: Result<Outcome>, transient: bool)
      requires Valid() && Presented(config, inventory, expected)
      modifies this`partitions, this`garbage, this`audits, this`commits, this`removed
      ensures Valid()
      ensures commits == old(commits) || (commits == old(commits) + [Commit(old(Now()), Now())]
        && Confirmed(config, old(partitions), inventory, expected)
        && Cleans(config, expected, affected, Commit(old(Now()), Now())) && Ids(expected.targets) <= removed)
      ensures commits == old(commits) ==> Now() == old(Now()) && removed == old(removed)
      ensures commits != old(commits) <==>
        Carried(fate) && Due(config, organizations, old(partitions), expected)
      ensures r.Ok? <==> commits != old(commits) && fate.Acknowledged?
      ensures r.Ok? ==> audits == old(audits) + [r.value]
      ensures transient <==> r.Err? && fate.Lost? && fate.transient && (fate.applied ==> commits != old(commits))
      ensures r.Err? && r.error != DatabaseFailed ==> commits == old(commits) && Carried(fate)
      ensures Carried(fate) && expected.scope.org in organizations ==>
        Targets(config, expected.scope, old(partitions)) == Err(EmptyMatch) ==> r == Err(EmptyMatch)
    {
      transient := false;
      if fate.Lost? && !fate.applied {
        return Err(DatabaseFailed), fate.transient;
      }
      if expected.scope.org !in organizations {
        return Err(OrganizationNotFound), false;
      }
      var current := Targets(config, expected.scope, partitions);
      if current.Err? {
        assert current.error != DatabaseFailed;
        return Err(current.error), false;
      }
      if Fingerprint(expected.scope, current.value) != expected {
        return Err(FingerprintMismatch), false;
      }
      var outcome := Apply(expected.scope, current.value, affected);
      if fate.Acknowledged? {
        r := Ok(outcome);
      } else {
        r, transient := Err(DatabaseFailed), fate.transient;
      }
    }

    /** An attempt after the cleanup took effect cannot take effect again. */
    method AttemptAgain(inventory: Inventory, expected: Fingerprint, affected: Affected, fate: Fate)
      returns (r: Result<Outcome>, transient: bool)
      requires Valid() && Presented(config, inventory, expected) && Ids(expected.targets) <= removed
      modifies this`partitions, this`garbage, this`audits, this`commits, this`removed
      ensures Valid() && commits == old(commits) && Now() == old(Now()) && removed == old(removed)
      ensures r.Err? && (transient <==> fate == Lost(false, true))
      ensures Carried(fate) && expected.scope.org in organizations ==>
        Targets(config, expected.scope, partitions) == Err(EmptyMatch) ==> r == Err(EmptyMatch)
    {
      RemovedDoNotMatch(config, partitions, expected, removed);
      r, transient := Attempt(inventory, expected, affected, fate);
    }

    /** The transaction with its retries: an attempt that ends in a transient error is
        repeated, up to three in all. Whatever happens, at most one commit takes effect,
        and it is the confirmed cleanup. */
    method Retry(
      inventory: Inventory, expected: Fingerprint, affected: nat -> Affected, fates: nat -> Fate,
      others: nat -> Option<Store>)
      returns (r: Result<Outcome>)
      requires Valid() && Presented(config, inventory, expected)
      modifies this
      ensures Valid()
      ensures commits == old(commits) || CleanedOnce(config, inventory, expected, affected, old(commits), commits)
      ensures r.Ok? ==> commits != old(commits) && Told(commits, r.value)
      ensures Alone(others) ==> Traced(config, organizations, expected, old(Now()), old(commits), Now(), commits)
      ensures Alone(others) && Due(config, organizations, old(partitions), expected) ==>
        (commits != old(commits) <==> Applies(fates))
      ensures Alone(others) && commits != old(commits) && MeetsItself(fates) ==> r == Err(EmptyMatch)
      ensures r.Ok? ==> Succeeds(fates)
      ensures Alone(others) && Due(config, organizations, old(partitions), expected) && Succeeds(fates) ==> r.Ok?
      ensures Alone(others) && Due(config, organizations, old(partitions), expected) && commits == old(commits) ==>
        r == Err(DatabaseFailed)
    {
      hide Valid, Applies, AppliesAt, MeetsItself, Succeeds, Targets, Confirmed, Cleans, Presented;
      var n, count := 0, |commits|;
      NothingYet(fates);
      while true
        invariant 0 <= n < MAX_ATTEMPTS && Valid() && Presented(config, inventory, expected)
        invariant commits == old(commits) || CleanedOnce(config, inventory, expected, affected, old(commits), commits)
        invariant commits == old(commits) ==> Pending(fates, n)
        invariant commits != old(commits) ==> Ids(expected.targets) <= removed && Applies(fates) && !Succeeds(fates)
        invariant commits != old(commits) && MeetsItself(fates) ==> Carried(fates(n))
        invariant Alone(others) ==> Traced(config, organizations, expected, old(Now()), old(commits), Now(), commits)
        decreases MAX_ATTEMPTS - n
      {
        var transient;
        if |commits| == count {
          r, transient := Attempt(inventory, expected, affected(n), fates(n));
          PendingEnds(fates, n);
          CleansKept(config, expected, affected(n));
        } else {
          r, transient := AttemptAgain(inventory, expected, affected(n), fates(n));
          EmptyNow(config, organizations, expected, old(Now()), old(commits), Now(), commits);
        }
        if !transient || n + 1 == MAX_ATTEMPTS {
          return;
        }
        Pause(others(n));
        n := n + 1;
      }
    }

    /** `executeStoreCleanup`. An error does not mean that nothing changed: if an attempt's
        commit was applied and its answer lost, the caller gets an error for a cleanup that
        took place, and an error leaves the tables alone exactly otherwise. */
    method Execute(
      inventory: Inventory, expected: Fingerprint, affected: nat -> Affected, fates: nat -> Fate,
      others: nat -> Option<Store>)
      returns (r: Result<Outcome>)
      requires Valid()
      modifies this
      ensures Valid()
      ensures commits == old(commits) || CleanedOnce(config, inventory, expected, affected, old(commits), commits)
      ensures r.Ok? ==> commits != old(commits) && Told(commits, r.value)
      ensures Alone(others) ==> Now() == if commits == old(commits) then old(Now()) else commits[|old(commits)|].after
      ensures Alone(others) && commits != old(commits) ==> commits[|old(commits)|].before == old(Now())
      ensures r.Err? && Alone(others) ==>
        (Now() == old(Now()) <==>
         !(Agreed(config, organizations, old(partitions), inventory, expected) && Applies(fates)))
      ensures Alone(others) && Agreed(config, organizations, old(partitions), inventory, expected)
              && MeetsItself(fates) ==>
        r == Err(EmptyMatch)
      ensures Alone(others) ==>
        (r.Ok? <==> Agreed(config, organizations, old(partitions), inventory, expected) && Succeeds(fates))
      ensures Alone(others) && r.Err? && r.error != DatabaseFailed ==>
        commits != old(commits) || !Agreed(config, organizations, old(partitions), inventory, expected)
    {
      var scope := config.normalize(inventory.scope);
      if scope.None? {
        return Err(ScopeInvalid);
      }
      if inventory.version != 1 || inventory.targets == [] || expected != inventory.fingerprint
         || Fingerprint(scope.value, inventory.targets) != expected {
        return Err(FingerprintMismatch);
      }
      r := Retry(inventory, expected, affected, fates, others);
    }

    /** The loop over the deleted rows: a key some partition still refers to is passed over. */
    method Enqueue(current: seq<Target>, downloads: set<Key>) returns (queued: set<Key>, objectKeys: set<Key>)
      ensures queued == set k | k in Keys(current) && !Referenced(partitions, k)
      ensures objectKeys == downloads + queued
    {
      queued, objectKeys := {}, downloads;
      var i := 0;
      while i < |current|
        invariant 0 <= i <= |current| && objectKeys == downloads + queued
        invariant queued == set k | k in Keys(current[..i]) && !Referenced(partitions, k)
      {
        var key := current[i].objectKey;
        assert current[..i + 1] == current[..i] + [current[i]];
        assert Keys(current[..i + 1]) == Keys(current[..i]) + {key};
        if !Referenced(partitions, key) {
          queued, objectKeys := queued + {key}, objectKeys + {key};
        }
        i := i + 1;
      }
      assert current[..i] == current;
    }
  }

  function Keys(rows: seq<Target>): set<Key> { set r | r in rows :: r.objectKey }

  function Owned(org: string, ps: seq<Partition>): seq<Partition> {
    if ps == [] then [] else (if ps[0].org == org then [ps[0]] else []) + Owned(org, ps[1..])
  }

  lemma DeletesTargets(c: Config, s: Scope, ps: seq<Partition>)
    requires UniqueIds(ps)
    ensures Without(ps, s.org, Ids(Selected(c, s, ps))) == Kept(c, s, ps)
    ensures |Kept(c, s, ps)| + |Selected(c, s, ps)| == |ps|
  {
    forall p | p in ps
      ensures p.row.id in Ids(Selected(c, s, ps)) <==> InScope(c, s, p)
    {
      SelectedIds(c, s, ps, p);
    }
    DeletesScope(c, s, ps, Ids(Selected(c, s, ps)));
  }

  /** The saved inventory, the confirmed fingerprint and the table all say the same. */
  ghost predicate Confirmed(c: Config, ps: seq<Partition>, inventory: Inventory, expected: Fingerprint) {
    && inventory.version == 1 && inventory.fingerprint == expected
    && c.normalize(inventory.scope) == Some(expected.scope)
    && inventory.targets == expected.targets && Targets(c, expected.scope, ps) == Ok(expected.targets)
  }

  /** The saved inventory and the confirmed fingerprint say the same. */
  ghost predicate Presented(c: Config, inventory: Inventory, expected: Fingerprint) {
    && inventory.version == 1 && inventory.fingerprint == expected
    && c.normalize(inventory.scope) == Some(expected.scope)
    && inventory.targets == expected.targets && inventory.targets != []
  }

  lemma {:induction false} KeptIsUnique(c: Config, s: Scope, ps: seq<Partition>)
    requires UniqueIds(ps)
    ensures UniqueIds(Kept(c, s, ps))
  {
    if ps != [] {
      UniqueTail(ps);
      KeptIsUnique(c, s, ps[1..]);
      forall p | p in Kept(c, s, ps[1..])
        ensures p in ps[1..]
      {
        KeptExact(c, s, ps[1..], p);
      }
    }
  }

  /** Once the targets' ids are gone, the scope no longer selects the targets. */
  lemma RemovedDoNotMatch(c: Config, ps: seq<Partition>, expected: Fingerprint, removed: set<string>)
    requires NoneOf(ps, removed) && Ids(expected.targets) <= removed && expected.targets != []
    ensures Targets(c, expected.scope, ps) != Ok(expected.targets)
  {
    var row := expected.targets[0];
    assert row.id in Ids(expected.targets);
    if row in Selected(c, expected.scope, ps) {
      SelectedExact(c, expected.scope, ps, row);
    }
  }

  /** Whatever happened to the table between preview and execute, and whatever became
      of the saved inventory: a run confirmed by a preview's fingerprint finds exactly
      the previewed partitions, in their previewed state. */
  lemma PreviewIsWhatIsDeleted(
    c: Config, previewed: seq<Partition>, scope: Scope, now: seq<Partition>, inventory: Inventory, row: Target)
    requires UniqueIds(now) && Targets(c, scope, previewed).Ok?
    requires Confirmed(c, now, inventory, Fingerprint(scope, Targets(c, scope, previewed).value))
    ensures Selected(c, scope, now) == Selected(c, scope, previewed)
    ensures row in Selected(c, scope, previewed) ==> exists p | p in now :: p.row == row && p !in Kept(c, scope, now)
    ensures forall p | p in now && p.row.id !in Ids(Selected(c, scope, previewed)) :: p in Kept(c, scope, now)
  {
    if row in Selected(c, scope, now) {
      SelectedExact(c, scope, now, row);
      var p :| p in now && InScope(c, scope, p) && p.row == row;
      KeptExact(c, scope, now, p);
    }
    forall p | p in now && p.row.id !in Ids(Selected(c, scope, previewed))
      ensures p in Kept(c, scope, now)
    {
      SelectedIds(c, scope, now, p);
      KeptExact(c, scope, now, p);
    }
  }

  lemma {:induction false} KeptExact(c: Config, s: Scope, ps: seq<Partition>, p: Partition)
    ensures p in Kept(c, s, ps) <==> p in ps && !InScope(c, s, p)
  {
    if ps != [] {
      KeptExact(c, s, ps[1..], p);
      assert ps == [ps[0]] + ps[1..];
    }
  }

  /** What a cleanup does to the tables: exactly the partitions the scope names are gone; queued are exactly
      the keys of those that no partition left refers to; one audit record is added that counts the rows
      deleted, the requests invalidated, and the keys of both. */
  lemma CleansMeans(c: Config, expected: Fingerprint, affected: Affected, commit: Commit, p: Partition, k: Key)
    requires Cleans(c, expected, affected, commit)
    requires Targets(c, expected.scope, commit.before.partitions) == Ok(expected.targets)
    ensures p in commit.after.partitions <==> p in commit.before.partitions && !Names(c, expected.scope, p)
    ensures k in commit.after.garbage <==>
      || k in commit.before.garbage
      || ((exists q | q in commit.before.partitions :: Names(c, expected.scope, q) && q.row.objectKey == k)
          && forall q | q in commit.after.partitions :: q.row.objectKey != k)
    ensures |commit.after.audits| == |commit.before.audits| + 1 && commit.before.audits <= commit.after.audits
    ensures var a := commit.after.audits[|commit.before.audits|];
      a.deleted == |commit.before.partitions| - |commit.after.partitions| && a.invalidated == affected.invalidated
  {
    var scope, before, after := expected.scope, commit.before.partitions, commit.after.partitions;
    ScopeMeans(c, scope, p);
    KeptExact(c, scope, before, p);
    KeptCounts(c, scope, before);
    forall q
      ensures InScope(c, scope, q) <==> Names(c, scope, q)
    {
      ScopeMeans(c, scope, q);
    }
    forall row
      ensures row in expected.targets <==> exists q | q in before :: InScope(c, scope, q) && q.row == row
    {
      SelectedExact(c, scope, before, row);
    }
    hide InScope, Names;
    assert k in Keys(expected.targets) <==> exists q | q in before :: Names(c, scope, q) && q.row.objectKey == k by {
      if k in Keys(expected.targets) {
        var row :| row in expected.targets && row.objectKey == k;
      }
      if q :| q in before && Names(c, scope, q) && q.row.objectKey == k {
        assert q.row in expected.targets;
      }
    }
    assert Referenced(after, k) <==> exists q | q in after :: q.row.objectKey == k;
  }

  lemma {:induction false} KeptCounts(c: Config, s: Scope, ps: seq<Partition>)
    ensures |Kept(c, s, ps)| + |Selected(c, s, ps)| == |ps|
  {
    if ps != [] {
      KeptCounts(c, s, ps[1..]);
    }
  }

  /** What is left keeps its order: partition by partition, a scope leaves those it does not name. */
  lemma {:induction false} KeptOrder(c: Config, s: Scope, ps: seq<Partition>, p: Partition, more: seq<Partition>)
    ensures Kept(c, s, ps + [p] + more) == Kept(c, s, ps) + (if Names(c, s, p) then [] else [p]) + Kept(c, s, more)
    decreases |ps|
  {
    ScopeMeans(c, s, p);
    hide InScope, Names;
    if ps == [] {
      assert (ps + [p] + more)[0] == p && (ps + [p] + more)[1..] == more;
    } else {
      KeptOrder(c, s, ps[1..], p, more);
      assert (ps + [p] + more)[0] == ps[0] && (ps + [p] + more)[1..] == ps[1..] + [p] + more;
    }
  }

  /** What an inventory counts as preserved: the organization's partitions the scope does not name. */
  ghost function Preserved(c: Config, s: Scope, ps: seq<Partition>): set<nat> {
    set i: nat | i < |ps| && ps[i].org == s.org && !Names(c, s, ps[i])
  }

  lemma OwnedStep(org: string, ps: seq<Partition>)
    requires ps != []
    ensures Owned(org, ps) == (if ps[0].org == org then [ps[0]] else []) + Owned(org, ps[1..])
  {
  }

  lemma {:induction false} OwnedAdds(org: string, ps: seq<Partition>, more: seq<Partition>)
    ensures Owned(org, ps + more) == Owned(org, ps) + Owned(org, more)
  {
    if ps == [] {
      assert ps + more == more;
    } else {
      OwnedAdds(org, ps[1..], more);
      var all := ps + more;
      assert all[0] == ps[0] && all[1..] == ps[1..] + more;
      OwnedStep(org, ps);
      OwnedStep(org, all);
      hide Owned;
    }
  }

  lemma {:induction false} PreservedCounted(c: Config, s: Scope, ps: seq<Partition>)
    ensures |Owned(s.org, Kept(c, s, ps))| == |Preserved(c, s, ps)|
  {
    hide Names;
    if ps == [] {
      assert Preserved(c, s, ps) == {};
    } else {
      var n := |ps| - 1;
      var last: seq<Partition> := if Names(c, s, ps[n]) then [] else [ps[n]];
      PreservedCounted(c, s, ps[..n]);
      KeptOrder(c, s, ps[..n], ps[n], []);
      assert ps[..n] + [ps[n]] + [] == ps;
      assert Kept(c, s, ps) == Kept(c, s, ps[..n]) + last;
      OwnedAdds(s.org, Kept(c, s, ps[..n]), last);
      var fewer := Preserved(c, s, ps[..n]);
      assert Preserved(c, s, ps) == if ps[n].org == s.org && !Names(c, s, ps[n]) then fewer + {n} else fewer;
    }
  }

  lemma SelectsOne(c: Config, s: Scope, p: Partition)
    requires InScope(c, s, p)
    ensures Targets(c, s, [p]) == Ok([p.row]) && Kept(c, s, [p]) == []
  {
    assert [p][1..] == [];
    assert Selected(c, s, []) == [];
    assert Selected(c, s, [p]) == [p.row] + Selected(c, s, [p][1..]) == [p.row];
  }

  /** An error for a cleanup that took place: the first attempt's commit is applied and its
      answer lost, the second finds nothing left, and the caller is told the scope is empty. */
  method CommittedYetRefused() returns (db: Database, was: Store, r: Result<Outcome>)
    ensures fresh(db) && r == Err(EmptyMatch)
    ensures |was.partitions| == 1 && was.audits == [] && db.partitions == [] && |db.audits| == 1
  {
    var config := Config(s => Some(s), (_, _) => true, (_, _) => true);
    var scope := Scope("org", "enterprise", ["orders"], None, None, None, None);
    var row := Target("id", "key", "orders", "store", "2026-01-01", "object", "state");
    var p := Partition("org", "enterprise", row);
    SelectsOne(config, scope, p);
    db := new Database(config, {"org"});
    db.partitions := [p];
    was := Store([p], {}, []);
    var expected := Fingerprint(scope, [row]);
    var fates: nat -> Fate := i => if i == 0 then Lost(true, true) else Acknowledged;
    assert MeetsAt(fates, 0);
    var inventory := Inventory(1, scope, [row], 0, expected);
    assert Agreed(config, db.organizations, db.partitions, inventory, expected);
    r := db.Execute(inventory, expected, _ => Affected({}, 0), fates, _ => None);
  }
}
