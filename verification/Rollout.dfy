/**
 Rollout and rollback of the staging release. The host is an object the scripts
 change command by command. Which commands work is given beforehand, for every
 command a host will ever run; one that fails may have happened in part. Between
 any two commands a running writer that knows order scope may put it to use. The
 moments a script goes through are recorded, so that what holds at every one of
 them also holds wherever the script is cut off.
 */
module Rollout {
  import opened Options
  import opened EnvFile

  type Compose = nat

  /** A writer container: the image it was created from, and whether it runs. */
  datatype Container = Container(image: Image, up: bool)

  datatype State = State(
    runtime: Lines, compose: Compose, staged: Option<Compose>, previous: Option<Lines>,
    previousCompose: Option<Compose>, api: Container, worker: Container, inUse: bool)

  /** A running writer that knows order scope may put it to use at any moment. */
  predicate MayUse(aware: Image -> bool, s: State) {
    (s.api.up && aware(s.api.image)) || (s.worker.up && aware(s.worker.image))
  }

  /** One of the writers, running or not, knows order scope. */
  predicate Knows(aware: Image -> bool, s: State) { aware(s.api.image) || aware(s.worker.image) }

  /** No release unaware of order scope runs while order scope is in use. */
  predicate Safe(aware: Image -> bool, s: State) {
    s.inUse ==> (s.api.up ==> aware(s.api.image)) && (s.worker.up ==> aware(s.worker.image))
  }

  predicate SameLabel(aware: Image -> bool, api: Image, worker: Image) { aware(api) == aware(worker) }

  /** Both image lines, where present, name images with the same label. */
  predicate FileLabels(aware: Image -> bool, file: Lines) {
    Read(file, API) != "" && Read(file, WORKER) != "" ==> SameLabel(aware, Read(file, API), Read(file, WORKER))
  }

  /** All three images are named. */
  predicate Full(t: Triple) { t.api != "" && t.worker != "" && t.releaseOps != "" }

  /** A release to bring up has both its images. */
  predicate Named(t: Triple) { t.api != "" && t.worker != "" }

  /** A record that names all three images names two with the same label. */
  predicate RecordLabels(aware: Image -> bool, file: Lines) {
    var t := ReadTriple(file); Full(t) ==> SameLabel(aware, t.api, t.worker)
  }

  /** Order scope is not in use and nothing that runs could put it to use. */
  predicate Frozen(aware: Image -> bool, s: State) { !s.inUse && !MayUse(aware, s) }

  predicate BothAware(aware: Image -> bool, api: Image, worker: Image) { aware(api) && aware(worker) }

  /** Bringing up the release the runtime file names would be safe. */
  predicate MayStart(aware: Image -> bool, s: State) {
    Read(s.runtime, API) != "" && Read(s.runtime, WORKER) != "" ==>
      BothAware(aware, Read(s.runtime, API), Read(s.runtime, WORKER)) || Frozen(aware, s)
  }

  /** What holds at every moment. */
  predicate Inv(aware: Image -> bool, s: State) {
    && Safe(aware, s) && MayStart(aware, s)
    && SameLabel(aware, s.api.image, s.worker.image)
    && FileLabels(aware, s.runtime)
    && (s.previous.Some? ==> RecordLabels(aware, s.previous.value))
  }

  /** Starting the present containers again would be safe. */
  predicate MayRestart(aware: Image -> bool, s: State) {
    || (Frozen(aware, s) && !aware(s.api.image) && !aware(s.worker.image))
    || (BothAware(aware, s.api.image, s.worker.image)
        && (Read(s.runtime, API) != "" && Read(s.runtime, WORKER) != "" ==>
              BothAware(aware, Read(s.runtime, API), Read(s.runtime, WORKER))))
  }

  datatype Ending =
    | Completed
    | Refused       // another deployment holds the lock, or a file is missing
    | FailedBefore  // failed before the rollback was armed
    // failed once armed, after `at` commands; was the rollback let in, did all of it succeed
    | FailedAfter(at: nat, admitted: bool, restored: bool)

  /** What operators ask for. */
  datatype Request = NewRelease(images: Triple, composeFile: Compose, secret: string, migrate: bool) | BackToPrevious

  // ---------------------------------------------------------------- the commands of the scripts

  datatype Command =
    | Lock | WorkDirectory | CheckCompose | PullApi | PullWorker | InspectApi | InspectWorker | ListWriters
    | StopWriters | StartWriters | RunProbe | WriteRecord | OwnRecord | ModeRecord | SaveCompose | InstallCompose
    | RemoveStaged | InstallImages | CheckConfig | PullImages | UpQdrant | WaitQdrant | InitQdrant | Migrate | UpWriters
    | WaitHealth | WaitReady | WriteRelease | ListServices | Upload | InstallSecret | CheckPublic | SmokeTest
    | Finalize

  /** The guard that lets a release in. */
  function GuardSteps(known: bool, running: bool): seq<Command> {
    INSPECT_STEPS + if known then [] else QuiesceSteps(running)
  }

  const INSPECT_STEPS := [PullApi, PullWorker, InspectApi, InspectWorker]

  function QuiesceSteps(running: bool): seq<Command> {
    ListSteps(running) + [RunProbe]
  }

  function ListSteps(running: bool): seq<Command> { [ListWriters] + if running then [StopWriters] else [] }

  /** Up to arming, behind the lock. */
  function PrepareSteps(known: bool, running: bool): seq<Command> {
    [WorkDirectory, CheckCompose] + GuardSteps(known, running) + RECORD_STEPS
  }

  const RECORD_STEPS := [WriteRecord, OwnRecord, ModeRecord, SaveCompose]

  /** Between arming and bringing the release up. */
  function FileSteps(migrate: bool): seq<Command> {
    [InstallCompose, RemoveStaged, InstallImages, CheckConfig, PullImages, UpQdrant, WaitQdrant, InitQdrant]
    + if migrate then [Migrate] else []
  }

  function AdvanceSteps(migrate: bool): seq<Command> {
    FileSteps(migrate) + [UpWriters, WaitHealth, WaitReady, ListServices]
  }

  /** A whole rollout. */
  function RolloutSteps(known: bool, running: bool, migrate: bool): seq<Command> {
    [Lock] + PrepareSteps(known, running) + AdvanceSteps(migrate)
  }

  /** The manual rollback behind its guard. */
  function BackSteps(saved: bool): seq<Command> {
    BackFileSteps(saved) + ([UpWriters] + [WaitReady, WriteRelease, ListServices])
  }

  function BackFileSteps(saved: bool): seq<Command> {
    (if saved then [InstallCompose] else []) + ([InstallImages] + [CheckConfig, PullImages])
  }

  /** The commands numbered `from` up to `to` work. */
  predicate Worked(outcomes: nat -> bool, from: nat, to: nat) { forall i | from <= i < to :: outcomes(i) }

  /** Every `docker start` among the commands from `from` on works. */
  predicate Started(outcomes: nat -> bool, log: seq<Command>, from: nat) {
    forall i | from <= i < |log| && log[i] == StartWriters :: outcomes(i)
  }

  /** A script ran its steps in order, up to and including the first that failed. */
  predicate Obeyed(outcomes: nat -> bool, before: seq<Command>, after: seq<Command>, steps: seq<Command>, done: bool) {
    && before <= after <= before + steps
    && (done ==> after == before + steps && Worked(outcomes, |before|, |after|))
    && (!done ==> |before| < |after| && Worked(outcomes, |before|, |after| - 1) && !outcomes(|after| - 1))
  }

  lemma ObeyedThen(
    outcomes: nat -> bool, a: seq<Command>, b: seq<Command>, c: seq<Command>, s: seq<Command>, t: seq<Command>,
    done: bool)
    requires Obeyed(outcomes, a, b, s, true) && Obeyed(outcomes, b, c, t, done)
    ensures Obeyed(outcomes, a, c, s + t, done)
  {
    assert a + (s + t) == (a + s) + t;
  }

  lemma ObeyedStops(outcomes: nat -> bool, a: seq<Command>, b: seq<Command>, s: seq<Command>, t: seq<Command>)
    requires Obeyed(outcomes, a, b, s, false)
    ensures Obeyed(outcomes, a, b, s + t, false)
  {
    assert a + (s + t) == (a + s) + t;
  }

  lemma ObeyedOne(outcomes: nat -> bool, a: seq<Command>, c: Command)
    ensures Obeyed(outcomes, a, a + [c], [c], outcomes(|a|))
  {
  }

  // ---------------------------------------------------------------- the order of the commands

  /** Where a command stands among those of the scripts. */
  function Rank(c: Command): nat {
    match c
    case Upload => 0 case InstallSecret => 1 case Lock => 2 case WorkDirectory => 3 case CheckCompose => 4
    case PullApi => 5 case PullWorker => 6 case InspectApi => 7 case InspectWorker => 8 case ListWriters => 9
    case StopWriters => 10 case RunProbe => 11 case WriteRecord => 12 case OwnRecord => 13 case ModeRecord => 14
    case SaveCompose => 15 case InstallCompose => 16 case RemoveStaged => 17 case InstallImages => 18
    case CheckConfig => 19 case PullImages => 20 case UpQdrant => 21 case WaitQdrant => 22 case InitQdrant => 23
    case Migrate => 24 case UpWriters => 25 case WaitHealth => 26 case WaitReady => 27 case WriteRelease => 28
    case ListServices => 29 case CheckPublic => 30 case SmokeTest => 31 case Finalize => 32 case StartWriters => 33
  }

  /** Every command ranks higher than those before it; so none comes twice. */
  ghost predicate Rising(s: seq<Command>) { forall i, j | 0 <= i < j < |s| :: Rank(s[i]) < Rank(s[j]) }

  function Held(s: seq<Command>): set<Command> { set c | c in s }

  /** Steps that rise and rank between two bounds. */
  ghost predicate Between(s: seq<Command>, low: nat, high: nat) {
    Rising(s) && forall c | c in s :: low <= Rank(c) < high
  }

  lemma Join(s: seq<Command>, t: seq<Command>, low: nat, middle: nat, high: nat)
    requires Between(s, low, middle) && Between(t, middle, high) && low <= middle <= high
    ensures Between(s + t, low, high) && Held(s + t) == Held(s) + Held(t)
  {
    forall i, j | 0 <= i < j < |s + t|
      ensures Rank((s + t)[i]) < Rank((s + t)[j])
    {
      if i < |s| <= j {
        assert (s + t)[i] in s && (s + t)[j] in t;
      }
    }
  }

  /** Steps that rise between two bounds and are exactly these commands. */
  ghost predicate Part(s: seq<Command>, low: nat, high: nat, commands: set<Command>) {
    Between(s, low, high) && Held(s) == commands
  }

  lemma Joined(s: seq<Command>, t: seq<Command>, low: nat, middle: nat, high: nat, c: set<Command>, d: set<Command>)
    requires Part(s, low, middle, c) && Part(t, middle, high, d) && low <= middle <= high
    ensures Part(s + t, low, high, c + d)
  {
    hide Between, Held;
    Join(s, t, low, middle, high);
  }

  lemma NoPart(low: nat, high: nat)
    ensures Part([], low, high, {})
  {
  }

  lemma LockPart()
    ensures Part([Lock], 2, 3, {Lock})
  {
  }

  lemma CheckPart()
    ensures Part([WorkDirectory, CheckCompose], 3, 5, {WorkDirectory, CheckCompose})
  {
  }

  lemma InspectPart()
    ensures Part(INSPECT_STEPS, 5, 9, {PullApi, PullWorker, InspectApi, InspectWorker})
  {
  }

  lemma QuiescePart(running: bool)
    ensures Part(QuiesceSteps(running), 9, 12, {ListWriters, RunProbe} + if running then {StopWriters} else {})
  {
    if running {
      assert QuiesceSteps(running) == [ListWriters, StopWriters, RunProbe];
    } else {
      assert QuiesceSteps(running) == [ListWriters, RunProbe];
    }
  }

  lemma RecordPart()
    ensures Part(RECORD_STEPS, 12, 16, {WriteRecord, OwnRecord, ModeRecord, SaveCompose})
  {
  }

  lemma InstallPart()
    ensures Part([InstallCompose, RemoveStaged, InstallImages, CheckConfig], 16, 20,
      {InstallCompose, RemoveStaged, InstallImages, CheckConfig})
  {
  }

  lemma QdrantPart()
    ensures Part([PullImages, UpQdrant, WaitQdrant, InitQdrant], 20, 24, {PullImages, UpQdrant, WaitQdrant, InitQdrant})
  {
  }

  lemma MigratePart()
    ensures Part([Migrate], 24, 25, {Migrate})
  {
  }

  lemma UpPart()
    ensures Part([UpWriters, WaitHealth, WaitReady, ListServices], 25, 30,
      {UpWriters, WaitHealth, WaitReady, ListServices})
  {
  }

  /** What the guard runs: list, stop and probe only for a target that does not know order scope. */
  function GuardCommands(known: bool, running: bool): set<Command> {
    {PullApi, PullWorker, InspectApi, InspectWorker}
    + if known then {} else {ListWriters, RunProbe} + if running then {StopWriters} else {}
  }

  lemma GuardPart(known: bool, running: bool)
    ensures Part(GuardSteps(known, running), 5, 12, GuardCommands(known, running))
  {
    hide Part, QuiesceSteps;
    InspectPart();
    if known {
      NoPart(9, 12);
      Joined(INSPECT_STEPS, [], 5, 9, 12, {PullApi, PullWorker, InspectApi, InspectWorker}, {});
    } else {
      QuiescePart(running);
      Joined(INSPECT_STEPS, QuiesceSteps(running), 5, 9, 12, {PullApi, PullWorker, InspectApi, InspectWorker},
        {ListWriters, RunProbe} + if running then {StopWriters} else {});
    }
  }

  /** What a rollout runs before it is armed, and after. */
  function PrepareCommands(known: bool, running: bool): set<Command> {
    {Lock}
    + ({WorkDirectory, CheckCompose} + GuardCommands(known, running)
       + {WriteRecord, OwnRecord, ModeRecord, SaveCompose})
  }

  function AdvanceCommands(migrate: bool): set<Command> {
    {InstallCompose, RemoveStaged, InstallImages, CheckConfig} + {PullImages, UpQdrant, WaitQdrant, InitQdrant}
    + (if migrate then {Migrate} else {}) + {UpWriters, WaitHealth, WaitReady, ListServices}
  }

  lemma PreparePart(known: bool, running: bool)
    ensures Part([Lock] + PrepareSteps(known, running), 2, 16, PrepareCommands(known, running))
  {
    hide Part, GuardSteps, GuardCommands;
    LockPart();
    CheckPart();
    GuardPart(known, running);
    RecordPart();
    var first, guard, c := [WorkDirectory, CheckCompose], GuardSteps(known, running), GuardCommands(known, running);
    Joined(first, guard, 3, 5, 12, {WorkDirectory, CheckCompose}, c);
    Joined(first + guard, RECORD_STEPS, 3, 12, 16, {WorkDirectory, CheckCompose} + c,
      {WriteRecord, OwnRecord, ModeRecord, SaveCompose});
    Joined([Lock], first + guard + RECORD_STEPS, 2, 3, 16, {Lock},
      {WorkDirectory, CheckCompose} + c + {WriteRecord, OwnRecord, ModeRecord, SaveCompose});
  }

  lemma AdvancePart(migrate: bool)
    ensures Part(AdvanceSteps(migrate), 16, 30, AdvanceCommands(migrate))
  {
    var one, two := [InstallCompose, RemoveStaged, InstallImages, CheckConfig],
                    [PullImages, UpQdrant, WaitQdrant, InitQdrant];
    var three: seq<Command> := if migrate then [Migrate] else [];
    var four := [UpWriters, WaitHealth, WaitReady, ListServices];
    assert AdvanceSteps(migrate) == one + two + three + four;
    hide Part, AdvanceSteps;
    InstallPart();
    QdrantPart();
    MigratePart();
    NoPart(24, 25);
    UpPart();
    var a, b := {InstallCompose, RemoveStaged, InstallImages, CheckConfig},
                {PullImages, UpQdrant, WaitQdrant, InitQdrant};
    var c: set<Command> := if migrate then {Migrate} else {};
    Joined(one, two, 16, 20, 24, a, b);
    Joined(one + two, three, 16, 24, 25, a + b, c);
    Joined(one + two + three, four, 16, 25, 30, a + b + c, {UpWriters, WaitHealth, WaitReady, ListServices});
  }

  /** What a rollout runs. */
  function RolloutCommands(known: bool, running: bool, migrate: bool): set<Command> {
    PrepareCommands(known, running) + AdvanceCommands(migrate)
  }

  lemma RolloutPart(known: bool, running: bool, migrate: bool)
    ensures Part(RolloutSteps(known, running, migrate), 2, 30, RolloutCommands(known, running, migrate))
  {
    hide Part, PrepareSteps, AdvanceSteps, PrepareCommands, AdvanceCommands;
    PreparePart(known, running);
    AdvancePart(migrate);
    Joined([Lock] + PrepareSteps(known, running), AdvanceSteps(migrate), 2, 16, 30, PrepareCommands(known, running),
      AdvanceCommands(migrate));
  }

  /** Exactly these commands, in the order of their ranks. */
  ghost predicate Complete(log: seq<Command>, commands: set<Command>) { Rising(log) && Held(log) == commands }

  /** Some of these commands, in the order of their ranks, and none with one of lower rank left out. */
  ghost predicate Begun(log: seq<Command>, commands: set<Command>) {
    && Rising(log) && Held(log) <= commands
    && forall c, i | c in commands && 0 <= i < |log| && Rank(c) < Rank(log[i]) :: c in log[..i]
  }

  lemma BeginsRising(s: seq<Command>, log: seq<Command>)
    requires Rising(s) && log <= s
    ensures Begun(log, Held(s))
  {
    assert forall i | 0 <= i < |log| :: log[i] == s[i];
    forall c | c in log
      ensures c in s
    {
    }
    forall c, i | c in s && 0 <= i < |log| && Rank(c) < Rank(log[i])
      ensures c in log[..i]
    {
      var j :| 0 <= j < |s| && s[j] == c;
      assert j < i;
      assert log[..i][j] == c;
    }
  }

  /** The release comes up last: on the new compose file and images, pulled, after the migration
      exactly if one was asked for, and only then is it waited for. */
  ghost predicate UpAtLast(log: seq<Command>, migrate: bool) {
    && (Migrate in log <==> migrate)
    && exists i | 0 <= i < |log| ::
      && log[i] == UpWriters
      && InstallCompose in log[..i] && InstallImages in log[..i] && PullImages in log[..i] && InitQdrant in log[..i]
      && (migrate ==> Migrate in log[..i])
      && WaitHealth in log[i + 1..] && WaitReady in log[i + 1..]
  }

  lemma Later(log: seq<Command>, i: nat, c: Command)
    requires Rising(log) && i < |log| && c in log
    ensures Rank(c) > Rank(log[i]) ==> c in log[i + 1..]
    ensures Rank(c) < Rank(log[i]) ==> c in log[..i]
  {
    var j :| 0 <= j < |log| && log[j] == c;
    if i < j {
      assert log[i + 1..][j - i - 1] == c;
    } else if j < i {
      assert log[..i][j] == c;
    }
  }

  lemma NotBefore(known: bool, running: bool)
    ensures Migrate !in PrepareCommands(known, running)
  {
  }

  lemma RanAfter(migrate: bool)
    ensures var c := AdvanceCommands(migrate);
      && InstallCompose in c && InstallImages in c && PullImages in c && InitQdrant in c && UpWriters in c
      && WaitHealth in c && WaitReady in c && (Migrate in c <==> migrate)
  {
  }

  lemma Ran(known: bool, running: bool, migrate: bool)
    ensures var c := RolloutCommands(known, running, migrate);
      && InstallCompose in c && InstallImages in c && PullImages in c && InitQdrant in c && UpWriters in c
      && WaitHealth in c && WaitReady in c && (Migrate in c <==> migrate)
  {
    NotBefore(known, running);
    RanAfter(migrate);
    hide PrepareCommands, AdvanceCommands;
  }

  lemma UpInRising(log: seq<Command>, i: nat, migrate: bool)
    requires Rising(log) && i < |log| && log[i] == UpWriters && (Migrate in log <==> migrate)
    requires InstallCompose in log && InstallImages in log && PullImages in log && InitQdrant in log
    requires WaitHealth in log && WaitReady in log
    ensures UpAtLast(log, migrate)
  {
    hide Rising;
    Later(log, i, InstallCompose);
    Later(log, i, InstallImages);
    Later(log, i, PullImages);
    Later(log, i, InitQdrant);
    Later(log, i, WaitHealth);
    Later(log, i, WaitReady);
    if migrate {
      Later(log, i, Migrate);
    }
  }

  lemma CompleteIsUp(log: seq<Command>, known: bool, running: bool, migrate: bool)
    requires Complete(log, RolloutCommands(known, running, migrate))
    ensures UpAtLast(log, migrate)
  {
    Ran(known, running, migrate);
    assert forall c :: c in Held(log) <==> c in log;
    hide RolloutCommands, Held, Rising, UpAtLast;
    var i :| 0 <= i < |log| && log[i] == UpWriters;
    UpInRising(log, i, migrate);
  }

  lemma ObeyedRollout(
    outcomes: nat -> bool, before: seq<Command>, after: seq<Command>, known: bool, running: bool, migrate: bool,
    done: bool)
    requires Obeyed(outcomes, before, after, RolloutSteps(known, running, migrate), done)
    ensures done ==> Complete(after[|before|..], RolloutCommands(known, running, migrate))
    ensures done ==> UpAtLast(after[|before|..], migrate)
    ensures Begun(after[|before|..], RolloutCommands(known, running, migrate))
  {
    var steps, log := RolloutSteps(known, running, migrate), after[|before|..];
    assert log <= steps;
    assert done ==> log == steps;
    RolloutPart(known, running, migrate);
    hide RolloutSteps, RolloutCommands, Obeyed, Rising, Held, UpAtLast;
    BeginsRising(steps, log);
    if done {
      CompleteIsUp(log, known, running, migrate);
    }
  }

  lemma SavedPart(saved: bool)
    ensures Part(if saved then [InstallCompose] else [], 16, 17, if saved then {InstallCompose} else {})
  {
  }

  lemma BackImagesPart()
    ensures Part([InstallImages, CheckConfig, PullImages], 17, 24, {InstallImages, CheckConfig, PullImages})
  {
  }

  lemma BackPart(saved: bool)
    ensures Part(BackSteps(saved), 16, 30, BackCommands(saved))
  {
    var one: seq<Command> := if saved then [InstallCompose] else [];
    var two, three := [InstallImages, CheckConfig, PullImages], [UpWriters, WaitReady, WriteRelease, ListServices];
    assert BackSteps(saved) == one + two + three;
    hide Part, BackSteps;
    SavedPart(saved);
    BackImagesPart();
    BackUpPart();
    var c: set<Command> := if saved then {InstallCompose} else {};
    Joined(one, two, 16, 17, 24, c, {InstallImages, CheckConfig, PullImages});
    Joined(one + two, three, 16, 24, 30, c + {InstallImages, CheckConfig, PullImages},
      {UpWriters, WaitReady, WriteRelease, ListServices});
  }

  lemma BackUpPart()
    ensures Part([UpWriters, WaitReady, WriteRelease, ListServices], 24, 30,
      {UpWriters, WaitReady, WriteRelease, ListServices})
  {
  }

  /** What the manual rollback runs behind its guard. */
  function BackCommands(saved: bool): set<Command> {
    (if saved then {InstallCompose} else {}) + {InstallImages, CheckConfig, PullImages}
    + {UpWriters, WaitReady, WriteRelease, ListServices}
  }

  /** What it runs in all. */
  function RollbackCommands(known: bool, running: bool, saved: bool): set<Command> {
    {Lock} + GuardCommands(known, running) + BackCommands(saved)
  }

  lemma RollbackComplete(known: bool, running: bool, saved: bool)
    ensures Complete([Lock] + GuardSteps(known, running) + BackSteps(saved), RollbackCommands(known, running, saved))
  {
    assert Part([Lock], 2, 5, {Lock});
    GuardPart(known, running);
    BackPart(saved);
    assert Between(GuardSteps(known, running), 5, 16);
    hide GuardSteps, BackSteps, GuardCommands, BackCommands, Between, Held;
    Joined([Lock], GuardSteps(known, running), 2, 5, 16, {Lock}, GuardCommands(known, running));
    Joined([Lock] + GuardSteps(known, running), BackSteps(saved), 2, 16, 30, {Lock} + GuardCommands(known, running),
      BackCommands(saved));
    PartComplete([Lock] + GuardSteps(known, running) + BackSteps(saved), 2, 30,
      RollbackCommands(known, running, saved));
  }

  lemma ObeyedEnds(outcomes: nat -> bool, a: seq<Command>, b: seq<Command>, s: seq<Command>, done: bool)
    requires Obeyed(outcomes, a, b, s, done)
    ensures a <= b && (!done ==> |a| < |b| && !outcomes(|b| - 1))
  {
  }

  lemma ObeyedAll(outcomes: nat -> bool, a: seq<Command>, b: seq<Command>, s: seq<Command>)
    requires Obeyed(outcomes, a, b, s, true)
    ensures b[|a|..] == s
  {
  }

  lemma RollbackLog(a: seq<Command>, locked: seq<Command>, b: seq<Command>, known: bool, running: bool, saved: bool)
    requires locked == a + [Lock] && locked <= b && b[|locked|..] == GuardSteps(known, running) + BackSteps(saved)
    ensures Complete(b[|a|..], RollbackCommands(known, running, saved))
  {
    hide GuardSteps, BackSteps, RollbackCommands, Complete;
    RollbackComplete(known, running, saved);
    assert b[|a|..] == [Lock] + GuardSteps(known, running) + BackSteps(saved);
  }

  lemma PartComplete(s: seq<Command>, low: nat, high: nat, commands: set<Command>)
    requires Part(s, low, high, commands)
    ensures Complete(s, commands)
  {
  }

  /** A log that ends as the trap does: the saved compose file, if there is one, the images, and the
      release pulled, brought up and waited for. */
  ghost predicate Restoring(log: seq<Command>, saved: bool) {
    var tail := (if saved then [InstallCompose] else []) + [InstallImages, PullImages, UpWriters, WaitHealth];
    |tail| <= |log| && log[|log| - |tail|..] == tail
  }

  lemma RestoringAll(before: seq<Command>, saved: bool, steps: seq<Command>, log: seq<Command>)
    requires steps == (if saved then [InstallCompose] else []) + [InstallImages, PullImages, UpWriters, WaitHealth]
    requires log == before + steps
    ensures forall n: nat | n <= |before| :: Restoring(log[n..], saved)
  {
    forall n: nat | n <= |before|
      ensures Restoring(log[n..], saved)
    {
      assert log[n..][|log| - n - |steps|..] == steps;
    }
  }

  /** The log of a whole deployment: the upload, the secret, a rollout that ended by bringing the
      release up, the public check, the smoke test and the record of the release. */
  ghost predicate Deployed(log: seq<Command>, migrate: bool) {
    && |log| >= 5 && log[..2] == [Upload, InstallSecret] && log[|log| - 3..] == [CheckPublic, SmokeTest, Finalize]
    && UpAtLast(log[2..|log| - 3], migrate)
  }

  lemma DeployedMeans(log: seq<Command>, rollout: seq<Command>, migrate: bool)
    requires log == [Upload, InstallSecret] + rollout + [CheckPublic, SmokeTest, Finalize] && UpAtLast(rollout, migrate)
    ensures Deployed(log, migrate)
  {
    assert log[2..|log| - 3] == rollout;
    assert log[|log| - 3..] == [CheckPublic, SmokeTest, Finalize];
  }

  class Host {
    const aware: Image -> bool
    const outcomes: nat -> bool  // whether the command with a number works
    var runtime: Lines
    var compose: Compose
    var staged: Option<Compose>
    var previous: Option<Lines>
    var previousCompose: Option<Compose>
    var api: Container
    var worker: Container
    var inUse: bool
    var moments: seq<State>
    var log: seq<Command>  // the commands run, each under its number

    function Now(): State
      reads this
    {
      State(runtime, compose, staged, previous, previousCompose, api, worker, inUse)
    }

    ghost predicate Valid()
      reads this
    {
      Inv(aware, Now()) && forall i | 0 <= i < |moments| :: Inv(aware, moments[i])
    }

    constructor (aware: Image -> bool, outcomes: nat -> bool, s: State)
      requires Inv(aware, s)
      ensures this.aware == aware && this.outcomes == outcomes && Now() == s && moments == [] && log == [] && Valid()
    {
      this.aware, this.outcomes := aware, outcomes;
      runtime, compose, staged, previous := s.runtime, s.compose, s.staged, s.previous;
      previousCompose, api, worker, inUse := s.previousCompose, s.api, s.worker, s.inUse;
      moments, log := [], [];
    }

    /** One more command, which works or fails. */
    method Issue(c: Command) returns (ok: bool)
      modifies this`log
      ensures log == old(log) + [c] && ok == outcomes(|old(log)|)
    {
      ok := outcomes(|log|);
      log := log + [c];
    }

    /** Time passes: the moment is recorded, and a running aware writer may put order scope to use. */
    method Moment()
      requires Valid()
      modifies this`inUse, this`moments
      ensures Valid() && old(moments) <= moments
      ensures old(inUse) ==> inUse
      ensures inUse && !old(inUse) ==> MayUse(aware, old(Now()))
    {
      moments := moments + [Now()];
      var uses: bool := *;
      if uses && ((api.up && aware(api.image)) || (worker.up && aware(worker.image))) {
        inUse := true;
      }
      moments := moments + [Now()];
    }

    // -------------------------------------------------------------- commands on containers

    /** `docker stop`: on failure any part of it may have happened. */
    method Stop(stopApi: bool, stopWorker: bool) returns (ok: bool)
      requires Valid()
      modifies this`api, this`worker, this`inUse, this`moments, this`log
      ensures Valid() && old(moments) <= moments
      ensures log == old(log) + [StopWriters] && ok == outcomes(|old(log)|)
      ensures api.image == old(api.image) && worker.image == old(worker.image)
      ensures api.up ==> old(api.up)
      ensures worker.up ==> old(worker.up)
      ensures ok ==> (stopApi ==> !api.up) && (stopWorker ==> !worker.up)
      ensures !stopApi ==> api == old(api)
      ensures !stopWorker ==> worker == old(worker)
      ensures Frozen(aware, old(Now())) ==> Frozen(aware, Now())
      ensures (old(inUse) ==> inUse) && (inUse ==> old(inUse) || Knows(aware, Now()))
    {
      ok := Issue(StopWriters);
      var first: bool, second: bool := *, *;
      if stopApi && (ok || first) {
        api := api.(up := false);
      }
      if stopWorker && (ok || second) {
        worker := worker.(up := false);
      }
      Moment();
    }

    /** `docker start`: on failure any part of it may have happened. */
    method Start(startApi: bool, startWorker: bool) returns (ok: bool)
      requires Valid()
      requires startApi || startWorker ==> MayRestart(aware, Now())
      modifies this`api, this`worker, this`inUse, this`moments, this`log
      ensures Valid() && old(moments) <= moments
      ensures log == old(log) + [StartWriters] && ok == outcomes(|old(log)|)
      ensures api.image == old(api.image) && worker.image == old(worker.image)
      ensures api.up ==> old(api.up) || startApi
      ensures worker.up ==> old(worker.up) || startWorker
      ensures ok ==> (startApi ==> api.up) && (startWorker ==> worker.up)
      ensures old(api.up) ==> api.up
      ensures old(worker.up) ==> worker.up
      ensures Frozen(aware, old(Now())) && !aware(api.image) && !aware(worker.image) ==> Frozen(aware, Now())
      ensures (old(inUse) ==> inUse) && (inUse ==> old(inUse) || Knows(aware, Now()))
    {
      ok := Issue(StartWriters);
      var first: bool, second: bool := *, *;
      if startApi && (ok || first) {
        api := api.(up := true);
      }
      if startWorker && (ok || second) {
        worker := worker.(up := true);
      }
      Moment();
    }

    /** `compose up` of both writers, taken as one step: on failure the containers
        are as they were, or stopped, or already the new ones. */
    method Up() returns (ok: bool)
      requires Valid()
      modifies this`api, this`worker, this`inUse, this`moments, this`log
      ensures Valid() && old(moments) <= moments
      ensures log == old(log) + [UpWriters]
      ensures ok <==> outcomes(|old(log)|) && Read(runtime, API) != "" && Read(runtime, WORKER) != ""
      ensures ok ==> api == Container(Read(runtime, API), true) && worker == Container(Read(runtime, WORKER), true)
      ensures old(inUse) ==> inUse
      ensures Frozen(aware, old(Now())) && !aware(Read(runtime, API)) && !aware(Read(runtime, WORKER)) ==>
        Frozen(aware, Now())
    {
      ok := Issue(UpWriters);
      var named := Read(runtime, API) != "" && Read(runtime, WORKER) != "";
      ok := ok && named;
      var started: bool, stopped: bool := *, *;
      if ok || (named && started) {
        api, worker := Container(Read(runtime, API), true), Container(Read(runtime, WORKER), true);
      } else if stopped {
        api, worker := api.(up := false), worker.(up := false);
      }
      Moment();
    }

    /** The durable-state probe. It runs only once both writers are stopped, and
        lets a release in exactly if it works and order scope is not in use. */
    method Probe() returns (ok: bool)
      requires Valid() && !api.up && !worker.up
      modifies this`inUse, this`moments, this`log
      ensures Valid() && old(moments) <= moments && inUse == old(inUse)
      ensures log == old(log) + [RunProbe]
      ensures ok <==> outcomes(|old(log)|) && !inUse
    {
      ok := Issue(RunProbe);
      ok := ok && !inUse;
      Moment();
    }

    /** Any command that touches neither the writers nor the files below. */
    method Other(c: Command) returns (ok: bool)
      requires Valid()
      modifies this`inUse, this`moments, this`log
      ensures Valid() && old(moments) <= moments
      ensures log == old(log) + [c] && ok == outcomes(|old(log)|)
      ensures (old(inUse) ==> inUse) && (inUse ==> old(inUse) || Knows(aware, Now()))
      ensures Frozen(aware, old(Now())) ==> Frozen(aware, Now())
    {
      ok := Issue(c);
      Moment();
    }

    /** Several such commands, up to the first that fails. */
    method Commands(steps: seq<Command>) returns (ok: bool)
      requires Valid()
      modifies this`inUse, this`moments, this`log
      ensures Valid() && old(moments) <= moments
      ensures Obeyed(outcomes, old(log), log, steps, ok)
      ensures (old(inUse) ==> inUse) && (inUse ==> old(inUse) || Knows(aware, Now()))
      ensures Frozen(aware, old(Now())) ==> Frozen(aware, Now())
      ensures MayRestart(aware, old(Now())) ==> MayRestart(aware, Now())
    {
      ok := true;
      var i := 0;
      while ok && i < |steps|
        invariant Valid() && old(moments) <= moments && 0 <= i <= |steps|
        invariant log == old(log) + steps[..i]
        invariant ok ==> Worked(outcomes, |old(log)|, |log|)
        invariant !ok ==> i > 0 && Worked(outcomes, |old(log)|, |log| - 1) && !outcomes(|log| - 1)
        invariant (old(inUse) ==> inUse) && (inUse ==> old(inUse) || Knows(aware, Now()))
        invariant Frozen(aware, old(Now())) ==> Frozen(aware, Now())
        decreases |steps| - i, ok
      {
        ok := Other(steps[i]);
        assert steps[..i + 1] == steps[..i] + [steps[i]];
        i := i + 1;
      }
      assert ok ==> steps[..i] == steps;
    }

    // -------------------------------------------------------------- the guard

    /** What a refusal or a failure of the guard does: start again what was running. */
    method Deny(wasApi: bool, wasWorker: bool) returns (started: bool)
      requires Valid() && (wasApi || wasWorker) && MayRestart(aware, Now())
      requires (api.up ==> wasApi) && (worker.up ==> wasWorker)
      modifies this`api, this`worker, this`inUse, this`moments, this`log
      ensures Valid() && old(moments) <= moments
      ensures log == old(log) + [StartWriters] && started == outcomes(|old(log)|)
      ensures api.image == old(api.image) && worker.image == old(worker.image)
      ensures (api.up ==> wasApi) && (worker.up ==> wasWorker)
      ensures started ==> api.up == wasApi && worker.up == wasWorker
      ensures MayRestart(aware, Now())
      ensures (old(inUse) ==> inUse) && (inUse ==> old(inUse) || Knows(aware, Now()))
      ensures Frozen(aware, old(Now())) && !aware(api.image) && !aware(worker.image) ==> Frozen(aware, Now())
    {
      started := Start(wasApi, wasWorker);
    }

    /** Stop what runs; if that fails, start it again. */
    method StopRunning() returns (ok: bool)
      requires Valid()
      modifies this`api, this`worker, this`inUse, this`moments, this`log
      ensures Valid() && old(moments) <= moments
      ensures api.image == old(api.image) && worker.image == old(worker.image)
      ensures (api.up ==> old(api.up)) && (worker.up ==> old(worker.up))
      ensures ok ==> !api.up && !worker.up
      ensures ok ==> log == old(log) + (if old(api.up) || old(worker.up) then [StopWriters] else [])
      ensures ok && (old(api.up) || old(worker.up)) ==> outcomes(|old(log)|)
      ensures !ok ==> log == old(log) + [StopWriters, StartWriters] && !outcomes(|old(log)|)
      ensures !ok && outcomes(|old(log)| + 1) ==> api == old(api) && worker == old(worker)
      ensures Frozen(aware, old(Now())) ==> Frozen(aware, Now())
      ensures (old(inUse) ==> inUse) && (inUse ==> old(inUse) || Knows(aware, Now()))
      ensures old(api.up) || old(worker.up) ==> MayRestart(aware, Now())
    {
      ok := true;
      var wasApi, wasWorker := api.up, worker.up;
      if wasApi || wasWorker {
        ok := Stop(wasApi, wasWorker);
        if !ok {
          var started := Deny(wasApi, wasWorker);
          assert old(log) + [StopWriters] + [StartWriters] == old(log) + [StopWriters, StartWriters];
        }
      } else {
        assert log + [] == log;
      }
    }

    /** Stop what is listed as running; if that fails, start it again. */
    method StopListed() returns (ok: bool)
      requires Valid()
      modifies this`api, this`worker, this`inUse, this`moments, this`log
      ensures Valid() && old(moments) <= moments
      ensures api.image == old(api.image) && worker.image == old(worker.image)
      ensures (api.up ==> old(api.up)) && (worker.up ==> old(worker.up))
      ensures ok ==> !api.up && !worker.up
      ensures ok ==> log == old(log) + ListSteps(old(api.up) || old(worker.up)) && Worked(outcomes, |old(log)|, |log|)
      ensures !ok ==> !Worked(outcomes, |old(log)|, |old(log)| + 2) && |log| <= |old(log)| + 3
      ensures !ok ==> old(log) <= log && !Worked(outcomes, |old(log)|, |log|)
      ensures !ok && Started(outcomes, log, |old(log)|) ==> api == old(api) && worker == old(worker)
      ensures Frozen(aware, old(Now())) ==> Frozen(aware, Now())
      ensures (old(inUse) ==> inUse) && (inUse ==> old(inUse) || Knows(aware, Now()))
      ensures ok && (old(api.up) || old(worker.up)) ==> MayRestart(aware, Now())
    {
      hide Valid, MayRestart;
      ok := Other(ListWriters);
      if ok {
        ok := StopRunning();
        assert !ok ==> !outcomes(|old(log)| + 1) && log[|old(log)| + 2] == StartWriters;
      }
    }

    /** The probe; if it does not let the release in, what was running is started again. */
    method ProbeOrDeny(wasApi: bool, wasWorker: bool) returns (ok: bool, started: bool)
      requires Valid() && !api.up && !worker.up && (wasApi || wasWorker ==> MayRestart(aware, Now()))
      modifies this`api, this`worker, this`inUse, this`moments, this`log
      ensures Valid() && old(moments) <= moments
      ensures api.image == old(api.image) && worker.image == old(worker.image)
      ensures (api.up ==> wasApi) && (worker.up ==> wasWorker)
      ensures ok ==> log == old(log) + [RunProbe] && outcomes(|old(log)|) && !inUse && !api.up && !worker.up
      ensures !ok ==> log == old(log) + [RunProbe] + (if wasApi || wasWorker then [StartWriters] else [])
      ensures !ok && outcomes(|old(log)|) ==> inUse
      ensures !ok ==> started == (wasApi || wasWorker ==> outcomes(|old(log)| + 1))
      ensures !ok && started ==> api.up == wasApi && worker.up == wasWorker
      ensures wasApi || wasWorker ==> MayRestart(aware, Now())
      ensures (wasApi ==> !aware(api.image)) && (wasWorker ==> !aware(worker.image)) && !old(inUse) ==>
        Frozen(aware, Now())
      ensures (old(inUse) ==> inUse) && (inUse ==> old(inUse) || Knows(aware, Now()))
    {
      started := true;
      ok := Probe();
      if !ok && (wasApi || wasWorker) {
        started := Deny(wasApi, wasWorker);
      }
      assert log + [] == log;
    }

    /** The guard for a target that does not know order scope: with both writers
        stopped, order scope must not be in use. */
    method Quiesce() returns (ok: bool, stoppedApi: bool, stoppedWorker: bool)
      requires Valid()
      modifies this`api, this`worker, this`inUse, this`moments, this`log
      ensures Valid() && old(moments) <= moments && old(log) <= log
      ensures api.image == old(api.image) && worker.image == old(worker.image)
      ensures ok ==> Frozen(aware, Now()) && !api.up && !worker.up
      ensures ok ==> Obeyed(outcomes, old(log), log, QuiesceSteps(old(api.up) || old(worker.up)), true)
      ensures !ok && (Worked(outcomes, |old(log)|, |log|) || Worked(outcomes, |old(log)|, |old(log)| + 3)) ==> inUse
      ensures (api.up ==> old(api.up)) && (worker.up ==> old(worker.up))
      ensures (stoppedApi ==> old(api.up)) && (stoppedWorker ==> old(worker.up))
      ensures ok ==> stoppedApi == old(api.up) && stoppedWorker == old(worker.up)
      ensures stoppedApi || stoppedWorker ==> MayRestart(aware, Now())
      ensures !ok && Started(outcomes, log, |old(log)|) ==>
        api == old(api) && worker == old(worker) && !stoppedApi && !stoppedWorker
      ensures Frozen(aware, old(Now())) ==> Frozen(aware, Now())
      ensures (old(inUse) ==> inUse) && (inUse ==> old(inUse) || Knows(aware, Now()))
    {
      hide Valid, MayRestart;
      ok, stoppedApi, stoppedWorker := false, false, false;
      var wasApi, wasWorker := api.up, worker.up;
      var stopped := StopListed();
      if !stopped {
        return;
      }
      ghost var before := log;
      var started;
      ok, started := ProbeOrDeny(wasApi, wasWorker);
      if ok {
        stoppedApi, stoppedWorker := wasApi, wasWorker;
      } else if !started {
        assert log[|before| + 1] == StartWriters;
        stoppedApi, stoppedWorker := wasApi, wasWorker;
      }
    }

    /** `require_order_scope_compatible_rollback`: let the target in if it knows
        order scope, or if, with both writers stopped, order scope is not in use.
        A refusal starts again only what was running, all of it if the commands work. */
    method Guard(targetApi: Image, targetWorker: Image) returns (ok: bool, stoppedApi: bool, stoppedWorker: bool)
      requires Valid()
      modifies this`api, this`worker, this`inUse, this`moments, this`log
      ensures Valid() && old(moments) <= moments && old(log) <= log
      ensures api.image == old(api.image) && worker.image == old(worker.image)
      ensures ok ==> BothAware(aware, targetApi, targetWorker) || (Frozen(aware, Now()) && !api.up && !worker.up)
      ensures ok ==> Obeyed(outcomes, old(log), log,
        GuardSteps(BothAware(aware, targetApi, targetWorker), old(api.up) || old(worker.up)), true)
      ensures !ok && (Worked(outcomes, |old(log)|, |log|) || Worked(outcomes, |old(log)|, |old(log)| + 7)) ==>
        !BothAware(aware, targetApi, targetWorker) && inUse
      ensures BothAware(aware, targetApi, targetWorker) ==>
        api == old(api) && worker == old(worker) && !stoppedApi && !stoppedWorker
      ensures (api.up ==> old(api.up)) && (worker.up ==> old(worker.up))
      ensures (stoppedApi ==> old(api.up)) && (stoppedWorker ==> old(worker.up))
      ensures ok ==> (stoppedApi <==> old(api.up) && !api.up) && (stoppedWorker <==> old(worker.up) && !worker.up)
      ensures stoppedApi || stoppedWorker ==> MayRestart(aware, Now())
      ensures !ok && Started(outcomes, log, |old(log)|) ==>
        api == old(api) && worker == old(worker) && !stoppedApi && !stoppedWorker
      ensures Frozen(aware, old(Now())) ==> Frozen(aware, Now())
      ensures (old(inUse) ==> inUse) && (inUse ==> old(inUse) || Knows(aware, Now()))
    {
      ok, stoppedApi, stoppedWorker := false, false, false;
      var inspected := Commands(INSPECT_STEPS);
      if !inspected {
        return;
      }
      if aware(targetApi) && aware(targetWorker) {
        assert INSPECT_STEPS + [] == INSPECT_STEPS;
        ok := true;
        return;
      }
      ghost var middle := log;
      ok, stoppedApi, stoppedWorker := Quiesce();
      if ok {
        ObeyedThen(outcomes, old(log), middle, log, INSPECT_STEPS, QuiesceSteps(old(api.up) || old(worker.up)), true);
      }
    }

    // -------------------------------------------------------------- commands on files

    /** `install` replaces a file as a whole or not at all. */
    method PutCompose(next: Compose) returns (ok: bool)
      requires Valid()
      modifies this`compose, this`inUse, this`moments, this`log
      ensures Valid() && old(moments) <= moments
      ensures log == old(log) + [InstallCompose] && ok == outcomes(|old(log)|)
      ensures compose == if ok then next else old(compose)
      ensures Frozen(aware, old(Now())) ==> Frozen(aware, Now())
      ensures old(inUse) ==> inUse
    {
      ok := Issue(InstallCompose);
      if ok {
        compose := next;
      }
      Moment();
    }

    method PutImages(t: Triple) returns (ok: bool)
      requires Valid() && SameLabel(aware, t.api, t.worker)
      requires BothAware(aware, t.api, t.worker) || Frozen(aware, Now())
      modifies this`runtime, this`inUse, this`moments, this`log
      ensures Valid() && old(moments) <= moments
      ensures log == old(log) + [InstallImages] && ok == outcomes(|old(log)|)
      ensures runtime == if ok then Updated(old(runtime), t) else old(runtime)
      ensures Frozen(aware, old(Now())) ==> Frozen(aware, Now())
      ensures old(inUse) ==> inUse
    {
      var next := UpdateImages(runtime, t);
      assert Read(next, API) == t.api && Read(next, WORKER) == t.worker;
      ok := Issue(InstallImages);
      if ok {
        runtime := next;
      }
      Moment();
    }

    /** A redirection truncates the record first, if it gets to open it: a failure
        leaves the old record, or any beginning of the new one. */
    method PutRecord(t: Triple) returns (ok: bool)
      requires Valid() && SameLabel(aware, t.api, t.worker)
      modifies this`previous, this`inUse, this`moments, this`log
      ensures Valid() && old(moments) <= moments
      ensures log == old(log) + [WriteRecord] && ok == outcomes(|old(log)|)
      ensures ok ==> previous == Some(ImageLines(t))
      ensures !ok ==> previous == old(previous) || exists n: nat :: previous == Some(Cut(ImageLines(t), n))
      ensures Frozen(aware, old(Now())) ==> Frozen(aware, Now())
      ensures (old(inUse) ==> inUse) && (inUse ==> old(inUse) || Knows(aware, Now()))
    {
      ok := Issue(WriteRecord);
      var truncated: bool, n: nat := *, *;
      ReadsBack(t);
      CutOff(t, n);
      if ok {
        previous := Some(ImageLines(t));
      } else if truncated {
        previous := Some(Cut(ImageLines(t), n));
      }
      Moment();
    }

    method PutPreviousCompose() returns (ok: bool)
      requires Valid()
      modifies this`previousCompose, this`inUse, this`moments, this`log
      ensures Valid() && old(moments) <= moments
      ensures log == old(log) + [SaveCompose] && ok == outcomes(|old(log)|)
      ensures previousCompose == if ok then Some(compose) else old(previousCompose)
      ensures Frozen(aware, old(Now())) ==> Frozen(aware, Now())
      ensures (old(inUse) ==> inUse) && (inUse ==> old(inUse) || Knows(aware, Now()))
    {
      ok := Issue(SaveCompose);
      if ok {
        previousCompose := Some(compose);
      }
      Moment();
    }

    /** `rm -f` of the staged compose file. */
    method Unstage() returns (ok: bool)
      requires Valid()
      modifies this`staged, this`inUse, this`moments, this`log
      ensures Valid() && old(moments) <= moments
      ensures log == old(log) + [RemoveStaged] && ok == outcomes(|old(log)|)
      ensures staged == if ok then None else old(staged)
      ensures Frozen(aware, old(Now())) ==> Frozen(aware, Now())
    {
      ok := Issue(RemoveStaged);
      if ok {
        staged := None;
      }
      Moment();
    }

    // -------------------------------------------------------------- the rollout script

    /** The triple a rollout goes back to: the images named now, release-ops taken
        from the new release if the runtime file names none. */
    ghost function Starting(t: Triple): (r: Triple)
      reads this
      ensures r.api == Read(runtime, API) && r.worker == Read(runtime, WORKER)
      ensures r.releaseOps == if Read(runtime, RELEASE_OPS) == "" then t.releaseOps else Read(runtime, RELEASE_OPS)
    {
      var c := ReadTriple(runtime);
      c.(releaseOps := if c.releaseOps == "" then t.releaseOps else c.releaseOps)
    }

    /** The way back is recorded: the images, then the compose file. */
    method Record(back: Triple) returns (ok: bool)
      requires Valid() && SameLabel(aware, back.api, back.worker)
      modifies this`previous, this`previousCompose, this`inUse, this`moments, this`log
      ensures Valid() && old(moments) <= moments
      ensures Obeyed(outcomes, old(log), log, RECORD_STEPS, ok)
      ensures ok ==> previous == Some(ImageLines(back)) && previousCompose == Some(compose)
      ensures Frozen(aware, old(Now())) ==> Frozen(aware, Now())
      ensures (old(inUse) ==> inUse) && (inUse ==> old(inUse) || Knows(aware, Now()))
    {
      hide Valid, Obeyed, ImageLines, SameLabel;
      var rest := [OwnRecord, ModeRecord];
      assert RECORD_STEPS == [WriteRecord] + (rest + [SaveCompose]);
      ok := PutRecord(back);
      ObeyedOne(outcomes, old(log), WriteRecord);
      if !ok {
        ObeyedStops(outcomes, old(log), log, [WriteRecord], rest + [SaveCompose]);
        return;
      }
      ghost var written := log;
      ok := Commands(rest);
      if !ok {
        ObeyedStops(outcomes, written, log, rest, [SaveCompose]);
      } else {
        ghost var owned := log;
        ok := PutPreviousCompose();
        ObeyedOne(outcomes, owned, SaveCompose);
        ObeyedThen(outcomes, written, owned, log, rest, [SaveCompose], ok);
      }
      ObeyedThen(outcomes, old(log), written, log, [WriteRecord], rest + [SaveCompose], ok);
    }

    /** The exit of a rollout that fails before it is armed: writers the guard stopped are started again. */
    method ExitUnarmed(stoppedApi: bool, stoppedWorker: bool)
      requires Valid()
      requires stoppedApi || stoppedWorker ==> MayRestart(aware, Now())
      modifies this`api, this`worker, this`inUse, this`moments, this`log
      ensures Valid() && old(moments) <= moments
      ensures log == old(log) + (if stoppedApi || stoppedWorker then [StartWriters] else [])
      ensures api.image == old(api.image) && worker.image == old(worker.image)
      ensures api.up ==> old(api.up) || stoppedApi
      ensures worker.up ==> old(worker.up) || stoppedWorker
      ensures (stoppedApi || stoppedWorker ==> outcomes(|old(log)|)) ==>
        api.up == (old(api.up) || stoppedApi) && worker.up == (old(worker.up) || stoppedWorker)
      ensures (old(inUse) ==> inUse) && (inUse ==> old(inUse) || Knows(aware, Now()))
    {
      if stoppedApi || stoppedWorker {
        var started := Start(stoppedApi, stoppedWorker);
      } else {
        assert log + [] == log;
      }
    }

    /** The guard and the record, and the exit if one of them fails. */
    method Arm(t: Triple, back: Triple) returns (armed: bool)
      requires Valid() && SameLabel(aware, back.api, back.worker)
      modifies this`previous, this`previousCompose, this`api, this`worker, this`inUse, this`moments, this`log
      ensures Valid() && old(moments) <= moments && old(log) <= log
      ensures armed ==> previous == Some(ImageLines(back)) && previousCompose == Some(compose)
      ensures armed ==> BothAware(aware, t.api, t.worker) || Frozen(aware, Now())
      ensures armed ==> Obeyed(outcomes, old(log), log,
        GuardSteps(BothAware(aware, t.api, t.worker), old(api.up) || old(worker.up)) + RECORD_STEPS, true)
      ensures !armed && (Worked(outcomes, |old(log)|, |log|) || Worked(outcomes, |old(log)|, |old(log)| + 11)) ==>
        !BothAware(aware, t.api, t.worker) && inUse
      ensures api.image == old(api.image) && worker.image == old(worker.image)
      ensures armed && BothAware(aware, t.api, t.worker) ==> api == old(api) && worker == old(worker)
      ensures armed && !BothAware(aware, t.api, t.worker) ==> !api.up && !worker.up
      ensures !armed && Started(outcomes, log, |old(log)|) ==> api == old(api) && worker == old(worker)
      ensures (old(inUse) ==> inUse) && (inUse ==> old(inUse) || Knows(aware, Now()))
    {
      hide Valid;
      ghost var steps := GuardSteps(BothAware(aware, t.api, t.worker), api.up || worker.up);
      var stoppedApi, stoppedWorker;
      armed, stoppedApi, stoppedWorker := Guard(t.api, t.worker);
      ghost var admitted := log;
      if armed {
        armed := Record(back);
        if armed {
          ObeyedThen(outcomes, old(log), admitted, log, steps, RECORD_STEPS, true);
          return;
        }
        assert |steps| <= 7 && |log| <= |old(log)| + 11;
      }
      ghost var failed := log;
      ExitUnarmed(stoppedApi, stoppedWorker);
      assert stoppedApi || stoppedWorker ==> log[|failed|] == StartWriters;
    }

    /** Everything up to arming: the way back is recorded, and no file the release runs
        from is touched. A failure starts the writers again. */
    method Prepare(t: Triple) returns (armed: bool, back: Triple)
      requires Valid()
      modifies this`previous, this`previousCompose, this`api, this`worker, this`inUse, this`moments, this`log
      ensures Valid() && old(moments) <= moments && old(log) <= log
      ensures armed ==> back == old(Starting(t)) && Full(back) && SameLabel(aware, back.api, back.worker)
      ensures armed ==> previous == Some(ImageLines(back)) && previousCompose == Some(compose)
      ensures armed ==> BothAware(aware, t.api, t.worker) || Frozen(aware, Now())
      ensures armed ==> Obeyed(outcomes, old(log), log,
        PrepareSteps(BothAware(aware, t.api, t.worker), old(api.up) || old(worker.up)), true)
      ensures !armed && (Worked(outcomes, |old(log)|, |log|) || Worked(outcomes, |old(log)|, |old(log)| + 13)) ==>
        !Full(old(Starting(t))) || (!BothAware(aware, t.api, t.worker) && inUse)
      ensures api.image == old(api.image) && worker.image == old(worker.image)
      ensures armed && BothAware(aware, t.api, t.worker) ==> api == old(api) && worker == old(worker)
      ensures armed && !BothAware(aware, t.api, t.worker) ==> !api.up && !worker.up
      ensures !armed && Started(outcomes, log, |old(log)|) ==> api == old(api) && worker == old(worker)
      ensures (old(inUse) ==> inUse) && (inUse ==> old(inUse) || Knows(aware, Now()))
    {
      armed := false;
      back := ReadTriple(runtime);
      ghost var guardSteps := GuardSteps(BothAware(aware, t.api, t.worker), api.up || worker.up);
      var first := [WorkDirectory, CheckCompose];
      var ok := Commands(first);
      if back.releaseOps == "" {
        back := back.(releaseOps := t.releaseOps);
      }
      if !ok || !Full(back) {
        return;
      }
      assert SameLabel(aware, back.api, back.worker);
      hide Valid;
      ghost var checked := log;
      armed := Arm(t, back);
      if armed {
        ObeyedThen(outcomes, old(log), checked, log, first, guardSteps + RECORD_STEPS, true);
        assert first + (guardSteps + RECORD_STEPS) == first + guardSteps + RECORD_STEPS;
      }
    }

    /** The lock and everything up to arming. */
    method Enter(t: Triple) returns (entered: bool, armed: bool, back: Triple)
      requires Valid()
      modifies this`previous, this`previousCompose, this`api, this`worker, this`inUse, this`moments, this`log
      ensures Valid() && old(moments) <= moments && old(log) <= log && (armed ==> entered)
      ensures !entered ==> Now() == old(Now()).(inUse := inUse) && (staged.None? || !outcomes(|old(log)|))
      ensures |old(log)| < |log|
      ensures entered ==> staged.Some?
      ensures armed ==> back == old(Starting(t)) && Full(back) && SameLabel(aware, back.api, back.worker)
      ensures armed ==> previous == Some(ImageLines(back)) && previousCompose == Some(compose)
      ensures armed ==> BothAware(aware, t.api, t.worker) || Frozen(aware, Now())
      ensures armed ==> Obeyed(outcomes, old(log), log,
        [Lock] + PrepareSteps(BothAware(aware, t.api, t.worker), old(api.up) || old(worker.up)), true)
      ensures entered && !armed
              && (Worked(outcomes, |old(log)|, |log|) || Worked(outcomes, |old(log)|, |old(log)| + 14)) ==>
        !Full(old(Starting(t))) || (!BothAware(aware, t.api, t.worker) && inUse)
      ensures api.image == old(api.image) && worker.image == old(worker.image)
      ensures armed && BothAware(aware, t.api, t.worker) ==> api == old(api) && worker == old(worker)
      ensures armed && !BothAware(aware, t.api, t.worker) ==> !api.up && !worker.up
      ensures !armed && Started(outcomes, log, |old(log)|) ==> api == old(api) && worker == old(worker)
      ensures (old(inUse) ==> inUse) && (inUse ==> old(inUse) || Knows(aware, Now()))
    {
      hide Valid, Obeyed, Frozen, ReadTriple, ImageLines, GuardSteps, PrepareSteps, Full, SameLabel, BothAware,
        MayRestart;
      armed, back := false, ReadTriple(runtime);
      entered := Other(Lock);
      if !entered || staged.None? {
        entered := false;
        return;
      }
      ObeyedOne(outcomes, old(log), Lock);
      ghost var locked := log;
      ghost var steps := PrepareSteps(BothAware(aware, t.api, t.worker), api.up || worker.up);
      armed, back := Prepare(t);
      if armed {
        ObeyedThen(outcomes, old(log), locked, log, [Lock], steps, true);
      }
    }

    /** From arming to bringing the release up: the new files and the new images. */
    method PutFiles(t: Triple, next: Compose, migrate: bool) returns (done: bool)
      requires Valid() && SameLabel(aware, t.api, t.worker)
      requires BothAware(aware, t.api, t.worker) || Frozen(aware, Now())
      modifies this`compose, this`staged, this`runtime, this`inUse, this`moments, this`log
      ensures Valid() && old(moments) <= moments
      ensures runtime == old(runtime) || runtime == Updated(old(runtime), t)
      ensures done ==> runtime == Updated(old(runtime), t) && compose == next && staged.None?
      ensures Obeyed(outcomes, old(log), log, FileSteps(migrate), done)
      ensures Frozen(aware, old(Now())) ==> Frozen(aware, Now())
    {
      hide Valid, Obeyed, Updated, BothAware, SameLabel;
      var last := [CheckConfig, PullImages, UpQdrant, WaitQdrant, InitQdrant] + if migrate then [Migrate] else [];
      ghost var after := [RemoveStaged] + ([InstallImages] + last);
      assert FileSteps(migrate) == [InstallCompose] + after;
      done := PutCompose(next);
      ObeyedOne(outcomes, old(log), InstallCompose);
      if !done {
        ObeyedStops(outcomes, old(log), log, [InstallCompose], after);
        return;
      }
      ghost var one := log;
      done := Unstage();
      ObeyedOne(outcomes, one, RemoveStaged);
      ObeyedThen(outcomes, old(log), one, log, [InstallCompose], [RemoveStaged], done);
      assert [InstallCompose] + after == ([InstallCompose] + [RemoveStaged]) + ([InstallImages] + last);
      if !done {
        ObeyedStops(outcomes, old(log), log, [InstallCompose] + [RemoveStaged], [InstallImages] + last);
        return;
      }
      ghost var two := log;
      done := PutImages(t);
      ObeyedOne(outcomes, two, InstallImages);
      if !done {
        ObeyedStops(outcomes, two, log, [InstallImages], last);
      } else {
        ghost var three := log;
        done := Commands(last);
        ObeyedThen(outcomes, two, three, log, [InstallImages], last, done);
      }
      ObeyedThen(outcomes, old(log), two, log, [InstallCompose] + [RemoveStaged], [InstallImages] + last, done);
    }

    /** The release the runtime file names is brought up and waited for. */
    method BringUp(waits: seq<Command>) returns (done: bool)
      requires Valid()
      modifies this`api, this`worker, this`inUse, this`moments, this`log
      ensures Valid() && old(moments) <= moments
      ensures old(log) + [UpWriters] <= log
      ensures done ==> api == Container(Read(runtime, API), true) && worker == Container(Read(runtime, WORKER), true)
      ensures done ==> Read(runtime, API) != "" && Read(runtime, WORKER) != ""
      ensures Read(runtime, API) != "" && Read(runtime, WORKER) != "" ==>
        Obeyed(outcomes, old(log), log, [UpWriters] + waits, done)
      ensures Frozen(aware, old(Now())) && !aware(Read(runtime, API)) && !aware(Read(runtime, WORKER)) ==>
        Frozen(aware, Now())
    {
      hide Valid;
      done := Up();
      ghost var up := log;
      ObeyedOne(outcomes, old(log), UpWriters);
      if done {
        done := Commands(waits);
        ObeyedThen(outcomes, old(log), up, log, [UpWriters], waits, done);
      } else if Read(runtime, API) != "" && Read(runtime, WORKER) != "" {
        ObeyedStops(outcomes, old(log), log, [UpWriters], waits);
      }
    }

    /** From arming to the end: the new files, the new images, and the release brought up. */
    method Advance(t: Triple, next: Compose, migrate: bool) returns (done: bool)
      requires Valid() && SameLabel(aware, t.api, t.worker)
      requires BothAware(aware, t.api, t.worker) || Frozen(aware, Now())
      modifies this`compose, this`staged, this`runtime, this`api, this`worker, this`inUse, this`moments, this`log
      ensures Valid() && old(moments) <= moments && old(log) <= log
      ensures runtime == old(runtime) || runtime == Updated(old(runtime), t)
      ensures done ==> runtime == Updated(old(runtime), t) && compose == next && staged.None?
      ensures done ==> api == Container(t.api, true) && worker == Container(t.worker, true)
      ensures Named(t) ==> Obeyed(outcomes, old(log), log, AdvanceSteps(migrate), done)
      ensures done ==> Named(t)
      ensures !done ==> |log| > |old(log)|
      ensures UpWriters !in log[|old(log)|..] ==> api == old(api) && worker == old(worker)
    {
      hide Valid;
      var waits := [WaitHealth, WaitReady, ListServices];
      assert AdvanceSteps(migrate) == FileSteps(migrate) + ([UpWriters] + waits);
      done := PutFiles(t, next, migrate);
      if !done {
        ObeyedStops(outcomes, old(log), log, FileSteps(migrate), [UpWriters] + waits);
        return;
      }
      UpdateSets(old(runtime), t);
      ghost var put := log;
      done := BringUp(waits);
      assert log[|old(log)|..][|put| - |old(log)|] == UpWriters;
      if Named(t) {
        ObeyedThen(outcomes, old(log), put, log, FileSteps(migrate), [UpWriters] + waits, done);
      }
    }

    /** The files of the release to restore; errors do not stop the script. */
    method RestoreFiles(t: Triple) returns (restored: bool)
      requires Valid() && SameLabel(aware, t.api, t.worker)
      requires BothAware(aware, t.api, t.worker) || Frozen(aware, Now())
      modifies this`compose, this`runtime, this`inUse, this`moments, this`log
      ensures Valid() && old(moments) <= moments && old(log) <= log
      ensures restored ==> runtime == Updated(old(runtime), t)
      ensures restored && previousCompose.Some? ==> compose == previousCompose.value
      ensures Worked(outcomes, |old(log)|, |log|) ==> restored
      ensures log == old(log) + (if previousCompose.Some? then [InstallCompose] else []) + [InstallImages]
      ensures Frozen(aware, old(Now())) ==> Frozen(aware, Now())
    {
      hide Valid, Updated;
      restored := true;
      if previousCompose.Some? {
        restored := PutCompose(previousCompose.value);
        assert log[|old(log)|] == InstallCompose;
      } else {
        assert old(log) + [] == old(log);
      }
      ghost var one := |log|;
      var updated := PutImages(t);
      assert log[one] == InstallImages;
      restored := restored && updated;
    }

    /** The release the runtime file names is pulled, brought up and waited for; errors do not stop the script. */
    method BringBack() returns (up: bool)
      requires Valid()
      modifies this`api, this`worker, this`inUse, this`moments, this`log
      ensures Valid() && old(moments) <= moments
      ensures log == old(log) + [PullImages, UpWriters, WaitHealth]
      ensures up ==> api == Container(Read(runtime, API), true) && worker == Container(Read(runtime, WORKER), true)
      ensures Worked(outcomes, |old(log)|, |log|) && Read(runtime, API) != "" && Read(runtime, WORKER) != "" ==> up
      ensures Frozen(aware, old(Now())) && !aware(Read(runtime, API)) && !aware(Read(runtime, WORKER)) ==> !inUse
    {
      hide Valid;
      var pulled := Other(PullImages);
      up := Up();
      var healthy := Other(WaitHealth);
      up := up && pulled;
      assert log[|old(log)|] == PullImages;
    }

    /** The exit trap behind its guard: restore the compose file and the images and
        bring the release up; errors do not stop it. */
    method Restore(t: Triple) returns (restored: bool)
      requires Valid() && Full(t) && SameLabel(aware, t.api, t.worker)
      requires BothAware(aware, t.api, t.worker) || Frozen(aware, Now())
      modifies this`compose, this`runtime, this`api, this`worker, this`inUse, this`moments, this`log
      ensures Valid() && old(moments) <= moments && old(log) <= log
      ensures restored ==> runtime == Updated(old(runtime), t)
      ensures restored ==> api == Container(t.api, true) && worker == Container(t.worker, true)
      ensures restored && previousCompose.Some? ==> compose == previousCompose.value
      ensures Worked(outcomes, |old(log)|, |log|) ==> restored && (BothAware(aware, t.api, t.worker) || !inUse)
      ensures log == old(log) + ((if previousCompose.Some? then [InstallCompose] else [])
                                 + [InstallImages, PullImages, UpWriters, WaitHealth])
    {
      hide Valid, Frozen;
      UpdateSets(runtime, t);
      restored := RestoreFiles(t);
      ghost var files := |log|;
      var up := BringBack();
      restored := restored && up;
      if Worked(outcomes, |old(log)|, |log|) {
        assert Worked(outcomes, |old(log)|, files) && Worked(outcomes, files, |log|);
      }
    }

    /** The exit trap of an armed rollout: if the record names a release and the guard lets it in, restore it. */
    method RestorePrevious() returns (admitted: bool, restored: bool)
      requires Valid() && previous.Some?
      modifies this`compose, this`runtime, this`api, this`worker, this`inUse, this`moments, this`log
      ensures Valid() && old(moments) <= moments && old(log) <= log
      ensures var t := ReadTriple(previous.value);
        && (restored ==> admitted && runtime == Updated(old(runtime), t))
        && (restored ==> api == Container(t.api, true) && worker == Container(t.worker, true))
      ensures restored && previousCompose.Some? ==> compose == previousCompose.value
      ensures var t := ReadTriple(previous.value);
        Worked(outcomes, |old(log)|, |log|) && Full(t) ==>
          (admitted <==> BothAware(aware, t.api, t.worker) || !inUse) && (admitted ==> restored)
      ensures admitted ==> |old(log)| < |log| && outcomes(|old(log)|)
      ensures admitted ==> Restoring(log[|old(log)|..], previousCompose.Some?)
      ensures !admitted ==> runtime == old(runtime) && compose == old(compose)
      ensures !admitted ==> api.image == old(api.image) && worker.image == old(worker.image)
      ensures !admitted ==> (api.up ==> old(api.up)) && (worker.up ==> old(worker.up))
      ensures !admitted && Started(outcomes, log, |old(log)|) ==> api == old(api) && worker == old(worker)
    {
      admitted, restored := false, false;
      var t := ReadTriple(previous.value);
      if !Full(t) {
        return;
      }
      assert SameLabel(aware, t.api, t.worker);
      hide Valid;
      var stoppedApi, stoppedWorker;
      admitted, stoppedApi, stoppedWorker := Guard(t.api, t.worker);
      if admitted {
        ghost var guarded := log;
        restored := Restore(t);
        assert Worked(outcomes, |old(log)|, |log|) ==> Worked(outcomes, |guarded|, |log|);
        RestoringAll(guarded, previousCompose.Some?, log[|guarded|..], log);
      }
    }

    /** An armed rollout: to its end, or back. */
    method Proceed(t: Triple, back: Triple, next: Compose, migrate: bool) returns (ending: Ending)
      requires Valid() && SameLabel(aware, t.api, t.worker)
      requires Full(back) && previous == Some(ImageLines(back))
      requires BothAware(aware, t.api, t.worker) || Frozen(aware, Now())
      modifies this`compose, this`staged, this`runtime, this`api, this`worker, this`inUse, this`moments, this`log
      ensures Valid() && old(moments) <= moments && old(log) <= log && (ending.Completed? || ending.FailedAfter?)
      ensures ending.Completed? ==> runtime == Updated(old(runtime), t) && compose == next && staged.None?
      ensures ending.Completed? ==> api == Container(t.api, true) && worker == Container(t.worker, true)
      ensures ending.Completed? ==> Named(t) && Obeyed(outcomes, old(log), log, AdvanceSteps(migrate), true)
      ensures ending.FailedAfter? ==> |old(log)| < ending.at <= |log|
      ensures ending.FailedAfter? && Named(t) ==>
        Obeyed(outcomes, old(log), log[..ending.at], AdvanceSteps(migrate), false)
      ensures ending.FailedAfter? && ending.admitted ==> Restoring(log[ending.at..], previousCompose.Some?)
      ensures ending.FailedAfter? && ending.restored ==> ending.admitted && runtime == Updated(old(runtime), back)
      ensures ending.FailedAfter? && ending.restored ==>
        api == Container(back.api, true) && worker == Container(back.worker, true)
      ensures ending.FailedAfter? && ending.restored && previousCompose.Some? ==> compose == previousCompose.value
      ensures ending.FailedAfter? && Worked(outcomes, ending.at, |log|) ==>
        && (ending.admitted <==> BothAware(aware, back.api, back.worker) || !inUse)
        && (ending.admitted ==> ending.restored)
      ensures ending.FailedAfter? && ending.admitted ==> ending.at < |log| && outcomes(ending.at)
      ensures ending.FailedAfter? && !ending.admitted && UpWriters !in log[|old(log)|..ending.at] ==>
        && api.image == old(api.image) && worker.image == old(worker.image)
        && (api.up ==> old(api.up)) && (worker.up ==> old(worker.up))
        && (Started(outcomes, log, ending.at) ==> api == old(api) && worker == old(worker))
    {
      hide Valid;
      var done := Advance(t, next, migrate);
      if done {
        return Completed;
      }
      ghost var advanced := log;
      var at := |log|;
      UpdateBack(old(runtime), t, back);
      ReadsBack(back);
      var admitted, restored := RestorePrevious();
      assert log[..at] == advanced;
      assert log[|old(log)|..at] == advanced[|old(log)|..];
      return FailedAfter(at, admitted, restored);
    }

    /** `REMOTE_ROLLOUT_SCRIPT`. An ending before arming leaves the files, and the writers
        too if they can be started again. A rollback that was let in and whose commands
        work restores the release; whether it is let in depends on the release it goes
        back to. A rollback that was not let in, before the new release was brought up,
        leaves the writers running exactly if the new release knows order scope: otherwise
        the first guard stopped them, and nothing starts them again. */
    method RollOut(t: Triple, migrate: bool) returns (ending: Ending)
      requires Valid() && SameLabel(aware, t.api, t.worker)
      modifies this
      ensures Valid() && old(moments) <= moments && old(log) <= log
      ensures ending == Refused ==> Now() == old(Now()).(inUse := inUse)
      ensures ending == Refused ==> old(staged).None? || !outcomes(|old(log)|)
      ensures Worked(outcomes, |old(log)|, |log|) && old(staged).Some? && Full(old(Starting(t))) && Named(t) ==>
        ending.Completed? || (!BothAware(aware, t.api, t.worker) && inUse)
      ensures ending.FailedBefore? ==> runtime == old(runtime) && compose == old(compose) && staged == old(staged)
      ensures ending.FailedBefore? && Started(outcomes, log, |old(log)|) ==> api == old(api) && worker == old(worker)
      ensures ending.FailedBefore? && Worked(outcomes, |old(log)|, |old(log)| + 14) ==>
        !Full(old(Starting(t))) || (!BothAware(aware, t.api, t.worker) && inUse)
      ensures ending.FailedBefore? ==> inUse ==> old(inUse) || Knows(aware, old(Now()))
      ensures ending.FailedAfter? || ending.Completed? ==>
        previous.Some? && ReadTriple(previous.value) == old(Starting(t)) && previousCompose == Some(old(compose))
      ensures ending.FailedAfter? && ending.restored ==>
        && ReadTriple(runtime) == old(Starting(t)) && Others(runtime) == Others(old(runtime)) && compose == old(compose)
        && api == Container(old(Starting(t)).api, true) && worker == Container(old(Starting(t)).worker, true)
      ensures ending.FailedAfter? && Worked(outcomes, ending.at, |log|) ==>
        && (ending.admitted <==> BothAware(aware, old(Starting(t)).api, old(Starting(t)).worker) || !inUse)
        && (ending.admitted ==> ending.restored)
      ensures ending.FailedAfter? ==> |old(log)| < ending.at <= |log|
      ensures ending.FailedAfter? && ending.admitted ==> ending.at < |log| && outcomes(ending.at)
      ensures ending.FailedAfter? && Named(t) ==> Obeyed(outcomes, old(log), log[..ending.at],
        RolloutSteps(BothAware(aware, t.api, t.worker), old(api.up) || old(worker.up), migrate), false)
      ensures ending.FailedAfter? && Named(t) ==> Begun(log[|old(log)|..ending.at],
        RolloutCommands(BothAware(aware, t.api, t.worker), old(api.up) || old(worker.up), migrate))
      ensures ending.FailedAfter? && ending.admitted ==> Restoring(log[ending.at..], true)
      ensures ending.FailedAfter? && !ending.admitted && UpWriters !in log[|old(log)|..ending.at] ==>
        && (!BothAware(aware, t.api, t.worker) ==> !api.up && !worker.up)
        && (Started(outcomes, log, ending.at) ==>
              ((api == old(api) && worker == old(worker)) <==>
               BothAware(aware, t.api, t.worker) || (!old(api.up) && !old(worker.up))))
      ensures ending.Completed? ==>
        && ReadTriple(runtime) == t && Others(runtime) == Others(old(runtime)) && Some(compose) == old(staged)
        && staged.None? && api == Container(t.api, true) && worker == Container(t.worker, true)
      ensures ending.Completed? ==> Named(t) && Obeyed(outcomes, old(log), log,
        RolloutSteps(BothAware(aware, t.api, t.worker), old(api.up) || old(worker.up), migrate), true)
      ensures ending.Completed? ==> UpAtLast(log[|old(log)|..], migrate) && Complete(log[|old(log)|..],
        RolloutCommands(BothAware(aware, t.api, t.worker), old(api.up) || old(worker.up), migrate))
    {
      hide Complete, Begun, UpAtLast, Restoring, RolloutCommands;
      hide Valid, Obeyed, Frozen, Updated, ReadTriple, Others, ImageLines, GuardSteps, AdvanceSteps, PrepareSteps, Full,
        Named, SameLabel, BothAware, MayRestart;
      ghost var first := PrepareSteps(BothAware(aware, t.api, t.worker), api.up || worker.up);
      var entered, armed, back := Enter(t);
      if !armed {
        return if entered then FailedBefore else Refused;
      }
      ghost var prepared := log;
      var next := staged.value;
      ReadsBack(back);
      UpdateSets(old(runtime), t);
      UpdateSets(old(runtime), back);
      ending := Proceed(t, back, next, migrate);
      ghost var reached := if ending.FailedAfter? then log[..ending.at] else log;
      if Named(t) {
        ObeyedThen(outcomes, old(log), prepared, reached, [Lock] + first, AdvanceSteps(migrate), ending.Completed?);
        ObeyedRollout(outcomes, old(log), reached, BothAware(aware, t.api, t.worker), old(api.up) || old(worker.up),
          migrate, ending.Completed?);
        assert reached[|old(log)|..] == if ending.FailedAfter? then log[|old(log)|..ending.at] else log[|old(log)|..];
      }
    }

    // -------------------------------------------------------------- the rollback script

    /** The compose file and the images of the release to go back to. */
    method PutBackFiles(t: Triple) returns (done: bool)
      requires Valid() && SameLabel(aware, t.api, t.worker)
      requires BothAware(aware, t.api, t.worker) || Frozen(aware, Now())
      modifies this`compose, this`runtime, this`inUse, this`moments, this`log
      ensures Valid() && old(moments) <= moments
      ensures done ==>
        runtime == Updated(old(runtime), t) && (previousCompose.Some? ==> compose == previousCompose.value)
      ensures Obeyed(outcomes, old(log), log, BackFileSteps(previousCompose.Some?), done)
      ensures Frozen(aware, old(Now())) ==> Frozen(aware, Now())
    {
      hide Valid, Updated, BothAware, SameLabel;
      done := true;
      ghost var rest := [InstallImages] + [CheckConfig, PullImages];
      ghost var first: seq<Command> := if previousCompose.Some? then [InstallCompose] else [];
      assert BackFileSteps(previousCompose.Some?) == first + rest;
      if previousCompose.Some? {
        done := PutCompose(previousCompose.value);
        ObeyedOne(outcomes, old(log), InstallCompose);
      } else {
        assert log + [] == log;
      }
      if !done {
        ObeyedStops(outcomes, old(log), log, first, rest);
        return;
      }
      ghost var one := log;
      done := PutImages(t);
      ObeyedOne(outcomes, one, InstallImages);
      if done {
        ghost var two := log;
        done := Commands([CheckConfig, PullImages]);
        ObeyedThen(outcomes, one, two, log, [InstallImages], [CheckConfig, PullImages], done);
      } else {
        ObeyedStops(outcomes, one, log, [InstallImages], [CheckConfig, PullImages]);
      }
      ObeyedThen(outcomes, old(log), one, log, first, rest, done);
    }

    /** The rollback script behind its guard: compose file, images, and the release brought up. */
    method PutBack(t: Triple) returns (done: bool)
      requires Valid() && Full(t) && SameLabel(aware, t.api, t.worker)
      requires BothAware(aware, t.api, t.worker) || Frozen(aware, Now())
      modifies this`compose, this`runtime, this`api, this`worker, this`inUse, this`moments, this`log
      ensures Valid() && old(moments) <= moments
      ensures done ==>
        runtime == Updated(old(runtime), t) && (previousCompose.Some? ==> compose == previousCompose.value)
      ensures done ==> api == Container(t.api, true) && worker == Container(t.worker, true)
      ensures Obeyed(outcomes, old(log), log, BackSteps(previousCompose.Some?), done)
      ensures done ==> BothAware(aware, t.api, t.worker) || !inUse
    {
      hide Valid;
      var waits := [WaitReady, WriteRelease, ListServices];
      done := PutBackFiles(t);
      if !done {
        ObeyedStops(outcomes, old(log), log, BackFileSteps(previousCompose.Some?), [UpWriters] + waits);
        return;
      }
      UpdateSets(old(runtime), t);
      ghost var put := log;
      done := BringUp(waits);
      ObeyedThen(outcomes, old(log), put, log, BackFileSteps(previousCompose.Some?), [UpWriters] + waits, done);
    }

    /** The guard and, if it lets the release in, the release put back. */
    method BackTo(t: Triple) returns (admitted: bool, done: bool)
      requires Valid() && Full(t) && SameLabel(aware, t.api, t.worker)
      modifies this`compose, this`runtime, this`api, this`worker, this`inUse, this`moments, this`log
      ensures Valid() && old(moments) <= moments && old(log) <= log
      ensures !admitted ==> runtime == old(runtime) && compose == old(compose) && !done
      ensures !admitted ==> (api.up ==> old(api.up)) && (worker.up ==> old(worker.up))
      ensures !admitted && Started(outcomes, log, |old(log)|) ==> api == old(api) && worker == old(worker)
      ensures done ==> runtime == Updated(old(runtime), t)
      ensures done && previousCompose.Some? ==> compose == previousCompose.value
      ensures done ==> api == Container(t.api, true) && worker == Container(t.worker, true)
      ensures Worked(outcomes, |old(log)|, |log|) ==>
        (admitted <==> BothAware(aware, t.api, t.worker) || !inUse) && (admitted ==> done)
      ensures done ==> (log[|old(log)|..] ==
        GuardSteps(BothAware(aware, t.api, t.worker), old(api.up) || old(worker.up)) + BackSteps(previousCompose.Some?))
    {
      done := false;
      hide Valid, GuardSteps, BackSteps, Obeyed;
      var stoppedApi, stoppedWorker;
      ghost var steps := GuardSteps(BothAware(aware, t.api, t.worker), api.up || worker.up);
      admitted, stoppedApi, stoppedWorker := Guard(t.api, t.worker);
      if admitted {
        ghost var guarded := log;
        done := PutBack(t);
        ObeyedEnds(outcomes, old(log), guarded, steps, true);
        ObeyedEnds(outcomes, guarded, log, BackSteps(previousCompose.Some?), done);
        if done {
          ObeyedThen(outcomes, old(log), guarded, log, steps, BackSteps(previousCompose.Some?), true);
          ObeyedAll(outcomes, old(log), log, steps + BackSteps(previousCompose.Some?));
        }
      }
    }

    /** The manual rollback: the previous release, if the guard lets it in. A failure ends
        the script where it stands; if all commands work, it is let in and put back
        exactly if it knows order scope or order scope is not in use. */
    method RollBack() returns (admitted: bool, done: bool)
      requires Valid()
      modifies this`compose, this`runtime, this`api, this`worker, this`inUse, this`moments, this`log
      ensures Valid() && old(moments) <= moments && old(log) <= log
      ensures !admitted ==> runtime == old(runtime) && compose == old(compose)
      ensures !admitted ==> (api.up ==> old(api.up)) && (worker.up ==> old(worker.up))
      ensures !admitted && Started(outcomes, log, |old(log)|) ==> api == old(api) && worker == old(worker)
      ensures done ==> admitted && previous.Some? && ReadTriple(runtime) == ReadTriple(previous.value)
      ensures done ==>
        Others(runtime) == Others(old(runtime)) && (previousCompose.Some? ==> compose == previousCompose.value)
      ensures done ==> api == Container(Read(runtime, API), true) && worker == Container(Read(runtime, WORKER), true)
      ensures admitted ==> previous.Some? && Full(ReadTriple(previous.value))
      ensures Worked(outcomes, |old(log)|, |log|) && previous.Some? && Full(ReadTriple(previous.value)) ==>
        var t := ReadTriple(previous.value);
        (admitted <==> BothAware(aware, t.api, t.worker) || !inUse) && (admitted ==> done)
      ensures done ==> var t := ReadTriple(previous.value); Complete(log[|old(log)|..],
        RollbackCommands(BothAware(aware, t.api, t.worker), old(api.up) || old(worker.up), previousCompose.Some?))
    {
      admitted, done := false, false;
      var ok := Other(Lock);
      if !ok || previous.None? {
        return;
      }
      var t := ReadTriple(previous.value);
      if !Full(t) {
        return;
      }
      assert SameLabel(aware, t.api, t.worker);
      hide Valid, Complete, GuardSteps, BackSteps, RollbackCommands, Updated;
      UpdateSets(old(runtime), t);
      ghost var known, running := BothAware(aware, t.api, t.worker), api.up || worker.up;
      ghost var locked := log;
      admitted, done := BackTo(t);
      assert Worked(outcomes, |old(log)|, |log|) ==> Worked(outcomes, |locked|, |log|);
      if done {
        RollbackLog(old(log), locked, log, known, running, previousCompose.Some?);
      }
    }

    // -------------------------------------------------------------- the deployment

    /** Setting the cursor signing secret, which stands in the same file as the images. */
    method PutSecret(secret: string) returns (ok: bool)
      requires Valid()
      modifies this`runtime, this`inUse, this`moments, this`log
      ensures Valid() && old(moments) <= moments
      ensures log == old(log) + [InstallSecret] && (ok <==> outcomes(|old(log)|) && secret != "")
      ensures runtime == if ok then Signed(old(runtime), secret) else old(runtime)
    {
      SignedKeepsImages(runtime, secret);
      ok := Issue(InstallSecret);
      ok := ok && secret != "";
      if ok {
        runtime := Signed(runtime, secret);
      }
      Moment();
    }

    method Stage(next: Compose) returns (ok: bool)
      requires Valid()
      modifies this`staged, this`inUse, this`moments, this`log
      ensures Valid() && old(moments) <= moments
      ensures log == old(log) + [Upload] && ok == outcomes(|old(log)|)
      ensures staged == if ok then Some(next) else old(staged)
    {
      ok := Issue(Upload);
      if ok {
        staged := Some(next);
      }
      Moment();
    }

    /** The upload and the secret, before the lock is taken. */
    method Ship(next: Compose, secret: string) returns (ok: bool)
      requires Valid()
      modifies this`staged, this`runtime, this`inUse, this`moments, this`log
      ensures Valid() && old(moments) <= moments && old(log) <= log
      ensures ok ==> staged == Some(next) && runtime == Signed(old(runtime), secret)
      ensures ok <==> Worked(outcomes, |old(log)|, |log|) && secret != ""
      ensures ok ==> log == old(log) + [Upload, InstallSecret]
    {
      hide Valid;
      ok := Stage(next);
      if ok {
        ok := PutSecret(secret);
      }
    }

    /** The public verification of a release, and the rollback if it fails. */
    method Confirm() returns (verified: bool)
      requires Valid()
      modifies this`compose, this`runtime, this`api, this`worker, this`inUse, this`moments, this`log
      ensures Valid() && old(moments) <= moments && old(log) <= log
      ensures verified ==> Now() == old(Now()).(inUse := inUse)
      ensures verified ==> log == old(log) + [CheckPublic, SmokeTest, Finalize]
      ensures Worked(outcomes, |old(log)|, |log|) ==> verified
    {
      hide Valid;
      verified := Commands([CheckPublic, SmokeTest, Finalize]);
      if !verified {
        ghost var failed := |log| - 1;
        var admitted, done := RollBack();
        assert !outcomes(failed);
      }
    }

    /** `main`: upload, set the secret, roll out, verify in public, and roll back if verification
        fails. If all commands work, the release is verified unless the guard keeps it out. */
    method Deploy(t: Triple, next: Compose, secret: string, migrate: bool) returns (verified: bool)
      requires Valid() && SameLabel(aware, t.api, t.worker)
      modifies this
      ensures Valid() && old(moments) <= moments && old(log) <= log
      ensures verified ==>
        && ReadTriple(runtime) == t && Others(runtime) == Signed(Others(old(runtime)), secret) && compose == next
        && api == Container(t.api, true) && worker == Container(t.worker, true)
        && previous.Some? && ReadTriple(previous.value) == old(Starting(t))
      ensures Worked(outcomes, |old(log)|, |log|) && secret != "" && Named(t) && Full(old(Starting(t))) ==>
        verified || (!BothAware(aware, t.api, t.worker) && inUse)
      ensures verified ==> Deployed(log[|old(log)|..], migrate)
    {
      hide Complete, Begun, UpAtLast, Restoring, RolloutCommands, Deployed;
      hide Valid, Obeyed, Started, Frozen, RolloutSteps, Read, Signed, Others, Full, Named, Knows;
      SignedKeepsImages(runtime, secret);
      verified := Ship(next, secret);
      if !verified {
        return;
      }
      assert Starting(t) == old(Starting(t));
      ghost var shipped := log;
      var ending := RollOut(t, migrate);
      verified := ending.Completed?;
      ghost var rolled := log;
      assert Worked(outcomes, |old(log)|, |log|) ==> Worked(outcomes, |shipped|, |log|);
      if verified {
        verified := Confirm();
        assert Worked(outcomes, |old(log)|, |log|) ==> Worked(outcomes, |rolled|, |log|);
        if verified {
          assert log[|old(log)|..] ==
                 [Upload, InstallSecret] + rolled[|shipped|..] + [CheckPublic, SmokeTest, Finalize];
          DeployedMeans(log[|old(log)|..], rolled[|shipped|..], migrate);
        }
      }
    }

    /** A script is cut off at some moment it went through since `from`. */
    method Interrupt(from: nat)
      requires Valid() && from < |moments|
      modifies this
      ensures Valid() && moments == old(moments)
      ensures exists i | from <= i < |moments| :: Now() == moments[i]
    {
      var i :| from <= i < |moments|;
      var s := moments[i];
      runtime, compose, staged, previous := s.runtime, s.compose, s.staged, s.previous;
      previousCompose, api, worker, inUse := s.previousCompose, s.api, s.worker, s.inUse;
    }

    /** Any sequence of deployments and manual rollbacks, each of which may fail at
        any command or be cut off at any moment: at no moment does a release unaware
        of order scope run while order scope is in use, nor would bringing up the
        release the runtime file names make one run. */
    method Operate(requests: seq<Request>)
      requires Valid()
      requires forall i | 0 <= i < |requests| && requests[i].NewRelease? ::
        SameLabel(aware, requests[i].images.api, requests[i].images.worker)
      modifies this
      ensures forall i | 0 <= i < |moments| ::
        && (moments[i].inUse && moments[i].api.up ==> aware(moments[i].api.image))
        && (moments[i].inUse && moments[i].worker.up ==> aware(moments[i].worker.image))
        && MayStart(aware, moments[i])
      ensures (inUse && api.up ==> aware(api.image)) && (inUse && worker.up ==> aware(worker.image))
      ensures inUse && Read(runtime, API) != "" && Read(runtime, WORKER) != "" ==>
        aware(Read(runtime, API)) && aware(Read(runtime, WORKER))
    {
      var n := 0;
      while n < |requests|
        invariant 0 <= n <= |requests| && Valid()
      {
        var from := |moments|;
        match requests[n] {
          case NewRelease(images, next, secret, migrate) => var verified := Deploy(images, next, secret, migrate);
          case BackToPrevious => var admitted, done := RollBack();
        }
        var cut: bool := *;
        if cut && from < |moments| {
          Interrupt(from);
        }
        n := n + 1;
      }
    }
  }

  /** The first fifteen commands of a rollout of an unaware release over running writers. */
  lemma FirstFifteen(migrate: bool)
    ensures var steps := RolloutSteps(false, true, migrate);
      |steps| >= 26 && forall i | 0 <= i < 15 :: steps[i] != UpWriters
  {
    var steps := RolloutSteps(false, true, migrate);
    assert PrepareSteps(false, true) == [WorkDirectory, CheckCompose, PullApi, PullWorker, InspectApi, InspectWorker,
                                         ListWriters, StopWriters, RunProbe, WriteRecord, OwnRecord, ModeRecord,
                                         SaveCompose];
    assert forall i | 0 <= i < 13 :: steps[i + 1] == PrepareSteps(false, true)[i];
    assert steps[0] == Lock && steps[14] == AdvanceSteps(migrate)[0] == InstallCompose;
  }

  /** If the first fourteen commands work and the next one fails, the rollout stops there. */
  lemma StopsAtFifteen(outcomes: nat -> bool, log: seq<Command>, migrate: bool, done: bool)
    requires Worked(outcomes, 0, 14) && !outcomes(14)
    requires Obeyed(outcomes, [], log, RolloutSteps(false, true, migrate), done)
    ensures !done && |log| == 15 && UpWriters !in log
  {
    FirstFifteen(migrate);
    var steps := RolloutSteps(false, true, migrate);
    assert [] + steps == steps;
    assert |log| > 14 ==> !Worked(outcomes, 0, 15);
    assert forall i | 0 <= i < |log| :: log[i] == steps[i];
  }

  /** A rollout on which every command works up to the installation of the compose file,
      which fails, as does the first pull of the rollback: both writers ran before, and
      neither runs afterwards, although the guard promises that denial restores them. */
  method DenialLeavesWritersDown() returns (host: Host, before: State, ending: Ending)
    ensures fresh(host) && host.Valid() && before.api.up && before.worker.up && !before.inUse
    ensures ending.FailedAfter? && !ending.admitted && !host.api.up && !host.worker.up
  {
    var now := Triple("api:1", "worker:1", "ops:1");
    var next := Triple("api:2", "worker:2", "ops:2");
    before := State(ImageLines(now), 1, Some(2), None, None, Container("api:1", true), Container("worker:1", true),
      false);
    ReadsBack(now);
    host := new Host(_ => false, i => i < 14, before);
    assert host.Starting(next) == now;
    hide Obeyed, RolloutSteps, ImageLines, Read, Started, Updated, Others, Complete, Begun, UpAtLast, Restoring,
      RolloutCommands;
    ending := host.RollOut(next, false);
    StoppedThere(host.outcomes, host.log, ending);
  }

  lemma StoppedThere(outcomes: nat -> bool, log: seq<Command>, ending: Ending)
    requires Worked(outcomes, 0, 14) && !outcomes(14)
    requires ending.Completed? ==> Obeyed(outcomes, [], log, RolloutSteps(false, true, false), true)
    requires ending.FailedAfter? ==> 0 < ending.at <= |log|
    requires ending.FailedAfter? ==> Obeyed(outcomes, [], log[..ending.at], RolloutSteps(false, true, false), false)
    ensures !ending.Completed?
    ensures ending.FailedAfter? ==> ending.at == 15 && UpWriters !in log[0..ending.at]
  {
    hide Obeyed, RolloutSteps, Worked;
    if ending.Completed? {
      StopsAtFifteen(outcomes, log, false, true);
    } else if ending.FailedAfter? {
      StopsAtFifteen(outcomes, log[..ending.at], false, false);
      assert log[0..ending.at] == log[..ending.at];
    }
  }

  lemma ReadsBack(t: Triple)
    ensures ReadTriple(ImageLines(t)) == t
  {
    ReadBack([], t);
    assert [] + ImageLines(t) == ImageLines(t);
  }
}
