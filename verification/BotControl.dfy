/**
 * Prepare, then authorize: the control protocol around a bot's runs. Commands are
 * handled one at a time; everything the venue, the credential store or the event
 * stream decides is part of the command.
 */
module BotControl {
  /** One prepared run: built and priced, but not started. */
  datatype Prep = Prep(runId: string, strategyId: string, version: nat, correlation: string)

  /** One registered run and the tick runner armed for it. */
  datatype ActiveRun = ActiveRun(prep: Prep, runner: nat)

  /** One strategy start, in the life of the engine process numbered `epoch`. */
  datatype Started = Started(epoch: nat, bot: string, prep: Prep)

  datatype Spec = Spec(runId: string, strategyId: string)

  datatype PrepareOutcome = FailsBeforeVersion | FailsAfterVersion | Prepares

  datatype Command =
    | BotStart(bot: string, specs: seq<Spec>, correlation: string, outcome: PrepareOutcome)
    | BotAuthorize(bot: string, runId: string, strategyId: string, version: nat, correlation: string, starts: bool, published: bool)
    | BotStop(bot: string)
    | EmergencyStop(bot: string)
    | EngineRestart

  datatype Reply =
    | AlreadyRunning | InitFailed | PreparedRuns
    | Authorized | ReAcknowledged | NotPrepared | StalePreparation | ExecutionFailed
    | PreparationCancelled | Stopped | BotNotFound | Restarted

  /** The engine process, the manager's memory, the runners that tick, and the record of every strategy start. */
  datatype Control = Control(
    epoch: nat,
    versions: map<string, nat>,
    prepared: map<string, map<string, Prep>>,
    bots: map<string, map<string, ActiveRun>>,
    armed: set<nat>, nextRunner: nat,
    starts: seq<Started>)

  const BOOT: Control := Control(0, map[], map[], map[], {}, 0, [])

  function VersionOf(c: Control, bot: string): nat { if bot in c.versions then c.versions[bot] else 0 }

  /** One entry a run; a repeated run id keeps the last spec. */
  function PrepareAll(specs: seq<Spec>, version: nat, correlation: string): (m: map<string, Prep>)
    ensures forall r :: r in m ==> m[r].runId == r && m[r].version == version && m[r].correlation == correlation
    ensures specs != [] ==> m != map[]
  {
    if specs == [] then map[]
    else
      var last := specs[|specs| - 1];
      var m := PrepareAll(specs[..|specs| - 1], version, correlation)[last.runId := Prep(last.runId, last.strategyId, version, correlation)];
      assert last.runId in m;
      m
  }

  predicate Matches(p: Prep, strategyId: string, version: nat, correlation: string) {
    p.strategyId == strategyId && p.version == version && p.correlation == correlation
  }

  function RunnersOf(runs: map<string, ActiveRun>): set<nat> { set r | r in runs :: runs[r].runner }

  function Remove<T>(m: map<string, T>, k: string): map<string, T> { m - {k} }

  function Prepare(c: Control, bot: string, specs: seq<Spec>, correlation: string, outcome: PrepareOutcome)
    : (Control, Reply)
  {
    if bot in c.bots then (c, AlreadyRunning)
    else
      var version := VersionOf(c, bot) + 1;
      var bumped := if outcome == FailsBeforeVersion then c.versions else c.versions[bot := version];
      if outcome == Prepares && specs != [] then
        (c.(versions := bumped, prepared := c.prepared[bot := PrepareAll(specs, version, correlation)]), PreparedRuns)
      else (c.(versions := bumped, prepared := Remove(c.prepared, bot)), InitFailed)
  }

  /** Only this run's preparation is consumed. */
  function Consume(prepared: map<string, map<string, Prep>>, bot: string, runId: string): map<string, map<string, Prep>>
    requires bot in prepared
  {
    var left := Remove(prepared[bot], runId);
    if left == map[] then Remove(prepared, bot) else prepared[bot := left]
  }

  /** The strategy was started: its preparation is spent, and the start is on record. */
  function RecordStart(c: Control, bot: string, prep: Prep): Control {
    c.(starts := c.starts + [Started(c.epoch, bot, prep)])
  }

  /** Arm a runner for a run and register it. */
  function Register(c: Control, bot: string, prep: Prep): Control {
    var runs := if bot in c.bots then c.bots[bot] else map[];
    c.(bots := c.bots[bot := runs[prep.runId := ActiveRun(prep, c.nextRunner)]],
       armed := c.armed + {c.nextRunner}, nextRunner := c.nextRunner + 1)
  }

  function Authorize(c: Control, bot: string, runId: string, strategyId: string, version: nat, correlation: string,
                     starts: bool, published: bool): (Control, Reply) {
    if bot !in c.prepared || runId !in c.prepared[bot] then
      if bot in c.bots && runId in c.bots[bot] && Matches(c.bots[bot][runId].prep, strategyId, version, correlation)
      then (c, ReAcknowledged) else (c, NotPrepared)
    else if !Matches(c.prepared[bot][runId], strategyId, version, correlation) then (c, StalePreparation)
    else
      var prep := c.prepared[bot][runId];
      var consumed := c.(prepared := Consume(c.prepared, bot, runId));
      if !starts then (Forget(Drop(consumed, bot), bot), ExecutionFailed)
      else
        var registered := Register(RecordStart(consumed, bot, prep), bot, prep);
        // only the first run of a session reports the state change, and that report may fail
        if published || bot in c.bots then (registered, Authorized) else (Forget(Drop(registered, bot), bot), ExecutionFailed)
  }

  /** Stop every run of a bot and forget them. */
  function Drop(c: Control, bot: string): Control {
    if bot in c.bots then c.(bots := Remove(c.bots, bot), armed := c.armed - RunnersOf(c.bots[bot])) else c
  }

  function Forget(c: Control, bot: string): Control { c.(prepared := Remove(c.prepared, bot)) }

  function Stop(c: Control, bot: string): (Control, Reply) {
    if bot !in c.bots then
      if bot in c.prepared then (Forget(c, bot), PreparationCancelled) else (c, BotNotFound)
    else (Forget(Drop(c, bot), bot), Stopped)
  }

  /** The panic path stops and deregisters every run, and leaves preparations alone. */
  function Panic(c: Control, bot: string): (Control, Reply) {
    if bot !in c.bots then (c, BotNotFound) else (Drop(c, bot), Stopped)
  }

  function Handle(c: Control, cmd: Command): (Control, Reply) {
    match cmd
    case BotStart(bot, specs, correlation, outcome) => Prepare(c, bot, specs, correlation, outcome)
    case BotAuthorize(bot, runId, strategyId, version, correlation, starts, published) =>
      Authorize(c, bot, runId, strategyId, version, correlation, starts, published)
    case BotStop(bot) => Stop(c, bot)
    case EmergencyStop(bot) => Panic(c, bot)
    case EngineRestart => (Control(c.epoch + 1, map[], map[], map[], {}, 0, c.starts), Restarted)
  }

  function After(c: Control, cmds: seq<Command>): Control {
    if cmds == [] then c else Handle(After(c, cmds[..|cmds| - 1]), cmds[|cmds| - 1]).0
  }

  // ----- what every command keeps -----

  predicate HasPrep(c: Control, b: string, r: string) { b in c.prepared && r in c.prepared[b] }

  predicate HasRun(c: Control, b: string, r: string) { b in c.bots && r in c.bots[b] }

  /** Preparations are current and never started. */
  ghost predicate PreparedSound(c: Control) {
    && (forall b :: b in c.prepared ==> c.prepared[b] != map[])
    && (forall b, r :: HasPrep(c, b, r) ==>
          && c.prepared[b][r].runId == r && c.prepared[b][r].version == VersionOf(c, b)
          && Started(c.epoch, b, c.prepared[b][r]) !in c.starts)
  }

  /** A run is not prepared and registered at once. */
  ghost predicate Disjoint(c: Control) {
    forall b, r :: HasPrep(c, b, r) ==> !HasRun(c, b, r)
  }

  /** Every registered run was started, and its runner ticks. */
  ghost predicate RunsSound(c: Control) {
    && (forall b :: b in c.bots ==> c.bots[b] != map[])
    && (forall b, r :: HasRun(c, b, r) ==>
          && c.bots[b][r].prep.runId == r && Started(c.epoch, b, c.bots[b][r].prep) in c.starts && c.bots[b][r].runner in c.armed)
  }

  ghost predicate Owned(c: Control, n: nat) { exists b, r :: HasRun(c, b, r) && c.bots[b][r].runner == n }

  /** Every runner that ticks belongs to a registered run. */
  ghost predicate ArmedSound(c: Control) { forall n :: n in c.armed ==> n < c.nextRunner && Owned(c, n) }

  ghost predicate RunnersDistinct(c: Control) {
    forall b, r, b', r' :: HasRun(c, b, r) && HasRun(c, b', r') && c.bots[b][r].runner == c.bots[b'][r'].runner ==> b == b' && r == r'
  }

  /** No start is of a preparation still to be made, and no preparation is ever started twice. */
  ghost predicate StartsSound(c: Control) {
    && (forall k :: 0 <= k < |c.starts| ==>
          && c.starts[k].epoch <= c.epoch
          && (c.starts[k].epoch == c.epoch ==> c.starts[k].prep.version <= VersionOf(c, c.starts[k].bot)))
    && (forall j, k :: 0 <= j < k < |c.starts| ==> c.starts[j] != c.starts[k])
  }

  ghost predicate Valid(c: Control) {
    && PreparedSound(c) && Disjoint(c) && RunsSound(c) && ArmedSound(c) && RunnersDistinct(c) && StartsSound(c)
  }

  lemma BootValid()
    ensures Valid(BOOT)
  {}

  lemma DropRuns(c: Control, bot: string)
    ensures var c' := Drop(c, bot);
      && bot !in c'.bots && (forall b, r :: HasRun(c', b, r) <==> HasRun(c, b, r) && b != bot)
      && (forall b, r :: HasRun(c', b, r) ==> c'.bots[b][r] == c.bots[b][r])
      && c'.prepared == c.prepared && c'.versions == c.versions && c'.starts == c.starts && c'.epoch == c.epoch
  {}

  lemma DropArmed(c: Control, bot: string)
    requires RunsSound(c) && ArmedSound(c) && RunnersDistinct(c)
    ensures RunsSound(Drop(c, bot)) && ArmedSound(Drop(c, bot)) && RunnersDistinct(Drop(c, bot))
  {
    DropRuns(c, bot);
    var c' := Drop(c, bot);
    forall n | n in c'.armed ensures n < c'.nextRunner && Owned(c', n) {
      var b, r :| HasRun(c, b, r) && c.bots[b][r].runner == n;
      assert HasRun(c', b, r);
    }
  }

  lemma PrepsKept(c: Control, c': Control)
    requires PreparedSound(c) && Disjoint(c) && StartsSound(c)
    requires c'.prepared == c.prepared && c'.versions == c.versions && c'.starts == c.starts && c'.epoch == c.epoch
    requires forall b, r :: HasRun(c', b, r) ==> HasRun(c, b, r)
    ensures PreparedSound(c') && Disjoint(c') && StartsSound(c')
  {
    assert forall b, r :: HasPrep(c', b, r) <==> HasPrep(c, b, r);
  }

  lemma DropValid(c: Control, bot: string)
    requires Valid(c)
    ensures Valid(Drop(c, bot))
  {
    hide Drop, PreparedSound, Disjoint, StartsSound, RunsSound, ArmedSound, RunnersDistinct;
    DropRuns(c, bot);
    DropArmed(c, bot);
    PrepsKept(c, Drop(c, bot));
  }

  lemma ForgetValid(c: Control, bot: string)
    requires Valid(c)
    ensures Valid(Forget(c, bot))
  {
    var c' := Forget(c, bot);
    assert forall b, r :: HasPrep(c', b, r) <==> HasPrep(c, b, r) && b != bot;
    assert forall b, r :: HasRun(c', b, r) <==> HasRun(c, b, r);
    forall n | n in c'.armed ensures Owned(c', n) {
      var b, r :| HasRun(c, b, r) && c.bots[b][r].runner == n;
      assert HasRun(c', b, r);
    }
  }

  lemma SameRuns(c: Control, c': Control)
    requires c'.bots == c.bots && c'.armed == c.armed && c'.nextRunner == c.nextRunner && c'.epoch == c.epoch
    requires RunsSound(c) && ArmedSound(c) && RunnersDistinct(c) && forall x :: x in c.starts ==> x in c'.starts
    ensures RunsSound(c') && ArmedSound(c') && RunnersDistinct(c')
  {
    assert forall b, r :: HasRun(c', b, r) <==> HasRun(c, b, r);
    forall n | n in c'.armed ensures Owned(c', n) {
      var b, r :| HasRun(c, b, r) && c.bots[b][r].runner == n;
      assert HasRun(c', b, r);
    }
  }

  lemma ConsumedPreps(c: Control, bot: string, runId: string)
    requires HasPrep(c, bot, runId)
    ensures var c' := c.(prepared := Consume(c.prepared, bot, runId));
      && (forall b, r :: HasPrep(c', b, r) <==> HasPrep(c, b, r) && (b, r) != (bot, runId))
      && (forall b, r :: HasPrep(c', b, r) ==> c'.prepared[b][r] == c.prepared[b][r])
  {
    var c' := c.(prepared := Consume(c.prepared, bot, runId));
    var left := Remove(c.prepared[bot], runId);
    assert forall r :: r in left <==> r in c.prepared[bot] && r != runId;
  }

  lemma ConsumedNonEmpty(c: Control, bot: string, runId: string)
    requires PreparedSound(c) && HasPrep(c, bot, runId)
    ensures var p := Consume(c.prepared, bot, runId); forall b :: b in p ==> p[b] != map[]
  {}

  lemma ConsumeValid(c: Control, bot: string, runId: string)
    requires Valid(c) && HasPrep(c, bot, runId)
    ensures Valid(c.(prepared := Consume(c.prepared, bot, runId)))
  {
    var c' := c.(prepared := Consume(c.prepared, bot, runId));
    ConsumedPreps(c, bot, runId);
    ConsumedNonEmpty(c, bot, runId);
    SameRuns(c, c');
  }

  /** Recording a start that is on no record, of a run nobody has prepared any more. */
  lemma RecordValid(c: Control, bot: string, prep: Prep)
    requires Valid(c) && Started(c.epoch, bot, prep) !in c.starts && prep.version <= VersionOf(c, bot)
    requires !HasPrep(c, bot, prep.runId)
    ensures Valid(RecordStart(c, bot, prep))
  {
    SameRuns(c, RecordStart(c, bot, prep));
    RecordPreps(c, bot, prep);
    RecordStarts(c, bot, prep);
  }

  lemma RecordPreps(c: Control, bot: string, prep: Prep)
    requires PreparedSound(c) && Disjoint(c) && !HasPrep(c, bot, prep.runId)
    ensures PreparedSound(RecordStart(c, bot, prep)) && Disjoint(RecordStart(c, bot, prep))
  {
    var c' := RecordStart(c, bot, prep);
    assert forall b, r :: HasPrep(c', b, r) <==> HasPrep(c, b, r);
    assert forall b, r :: HasRun(c', b, r) <==> HasRun(c, b, r);
    forall b, r | HasPrep(c, b, r) ensures Started(c.epoch, b, c.prepared[b][r]) !in c'.starts {
      assert Started(c.epoch, b, c.prepared[b][r]) != Started(c.epoch, bot, prep);
    }
  }

  lemma RecordStarts(c: Control, bot: string, prep: Prep)
    requires StartsSound(c) && Started(c.epoch, bot, prep) !in c.starts && prep.version <= VersionOf(c, bot)
    ensures StartsSound(RecordStart(c, bot, prep))
  {}

  lemma RegisteredRuns(c: Control, bot: string, prep: Prep)
    ensures var c' := Register(c, bot, prep);
      && (forall b, r :: HasRun(c', b, r) <==> HasRun(c, b, r) || (b, r) == (bot, prep.runId))
      && (forall b, r :: HasRun(c', b, r) && (b, r) != (bot, prep.runId) ==> c'.bots[b][r] == c.bots[b][r])
      && c'.bots[bot][prep.runId] == ActiveRun(prep, c.nextRunner)
      && (forall b :: b in c'.bots ==> b in c.bots || b == bot)
  {}

  lemma RegisterRuns(c: Control, bot: string, prep: Prep)
    requires RunsSound(c) && Started(c.epoch, bot, prep) in c.starts
    ensures RunsSound(Register(c, bot, prep))
  {
    var c' := Register(c, bot, prep);
    RegisteredRuns(c, bot, prep);
    assert c'.starts == c.starts;
    hide Register;
    forall b | b in c'.bots ensures c'.bots[b] != map[] {
      if b == bot { assert prep.runId in c'.bots[b]; }
    }
  }

  lemma RegisterOwned(c: Control, bot: string, prep: Prep)
    requires ArmedSound(c) && !HasRun(c, bot, prep.runId)
    ensures ArmedSound(Register(c, bot, prep))
  {
    var c' := Register(c, bot, prep);
    RegisteredRuns(c, bot, prep);
    forall n | n in c'.armed ensures n < c'.nextRunner && Owned(c', n) {
      if n == c.nextRunner {
        assert HasRun(c', bot, prep.runId);
      } else {
        var b, r :| HasRun(c, b, r) && c.bots[b][r].runner == n;
        assert HasRun(c', b, r);
      }
    }
  }

  lemma RegisterDistinct(c: Control, bot: string, prep: Prep)
    requires RunsSound(c) && ArmedSound(c) && RunnersDistinct(c) && !HasRun(c, bot, prep.runId)
    ensures RunnersDistinct(Register(c, bot, prep))
  {
    var c' := Register(c, bot, prep);
    RegisteredRuns(c, bot, prep);
    forall b, r | HasRun(c', b, r) && (b, r) != (bot, prep.runId) ensures c'.bots[b][r].runner < c.nextRunner {
      assert HasRun(c, b, r) && c.bots[b][r].runner in c.armed;
    }
    forall b, r, b', r' | HasRun(c', b, r) && HasRun(c', b', r') && c'.bots[b][r].runner == c'.bots[b'][r'].runner
      ensures b == b' && r == r'
    {
      if (b, r) != (bot, prep.runId) && (b', r') != (bot, prep.runId) {
        assert HasRun(c, b, r) && HasRun(c, b', r');
      }
    }
  }

  lemma RegisterValid(c: Control, bot: string, prep: Prep)
    requires Valid(c) && Started(c.epoch, bot, prep) in c.starts && !HasPrep(c, bot, prep.runId)
    requires !HasRun(c, bot, prep.runId)
    ensures Valid(Register(c, bot, prep))
  {
    RegisterRuns(c, bot, prep);
    RegisterOwned(c, bot, prep);
    RegisterDistinct(c, bot, prep);
    RegisteredRuns(c, bot, prep);
    var c' := Register(c, bot, prep);
    assert forall b, r :: HasPrep(c', b, r) <==> HasPrep(c, b, r);
  }

  lemma AuthorizeValid(c: Control, bot: string, runId: string, strategyId: string, version: nat, correlation: string,
                       starts: bool, published: bool)
    requires Valid(c)
    ensures Valid(Authorize(c, bot, runId, strategyId, version, correlation, starts, published).0)
  {
    if HasPrep(c, bot, runId) && Matches(c.prepared[bot][runId], strategyId, version, correlation) {
      var prep := c.prepared[bot][runId];
      var consumed := c.(prepared := Consume(c.prepared, bot, runId));
      ConsumeValid(c, bot, runId);
      ConsumedPreps(c, bot, runId);
      if !starts {
        DropValid(consumed, bot);
        ForgetValid(Drop(consumed, bot), bot);
      } else {
        var recorded := RecordStart(consumed, bot, prep);
        RecordValid(consumed, bot, prep);
        assert !HasRun(c, bot, runId);
        RegisterValid(recorded, bot, prep);
        DropValid(Register(recorded, bot, prep), bot);
        ForgetValid(Drop(Register(recorded, bot, prep), bot), bot);
      }
    }
  }

  /** A session prepares runs nobody has started, even under a correlation seen before. */
  lemma PrepareValid(c: Control, bot: string, specs: seq<Spec>, correlation: string, outcome: PrepareOutcome)
    requires Valid(c)
    ensures Valid(Prepare(c, bot, specs, correlation, outcome).0)
  {
    var c' := Prepare(c, bot, specs, correlation, outcome).0;
    SameRuns(c, c');
    PreparedAfter(c, bot, specs, correlation, outcome);
  }

  /** New preparations under the next version. */
  lemma NewPreps(c: Control, c': Control, bot: string, ps: map<string, Prep>, version: nat, correlation: string)
    requires PreparedSound(c) && Disjoint(c) && StartsSound(c) && bot !in c.bots && version == VersionOf(c, bot) + 1
    requires ps != map[] && forall r :: r in ps ==> ps[r].runId == r && ps[r].version == version && ps[r].correlation == correlation
    requires c' == c.(versions := c.versions[bot := version], prepared := c.prepared[bot := ps])
    ensures PreparedSound(c') && Disjoint(c') && StartsSound(c')
  {
    NewStartsSound(c, c', bot, version);
    NewDisjoint(c, c', bot, ps);
    NeverStarted(c, bot, ps, version);
    hide StartsSound, Disjoint;
    forall b, r | HasPrep(c', b, r)
      ensures c'.prepared[b][r].runId == r && c'.prepared[b][r].version == VersionOf(c', b)
      ensures Started(c'.epoch, b, c'.prepared[b][r]) !in c'.starts
    {
      if b != bot {
        assert HasPrep(c, b, r);
      }
    }
  }

  /** No start is of a version that is still to be given out. */
  lemma NeverStarted(c: Control, bot: string, ps: map<string, Prep>, version: nat)
    requires StartsSound(c) && version == VersionOf(c, bot) + 1 && forall r :: r in ps ==> ps[r].version == version
    ensures forall r :: r in ps ==> Started(c.epoch, bot, ps[r]) !in c.starts
  {}

  lemma NewStartsSound(c: Control, c': Control, bot: string, version: nat)
    requires StartsSound(c) && version == VersionOf(c, bot) + 1
    requires c'.versions == c.versions[bot := version] && c'.starts == c.starts && c'.epoch == c.epoch
    ensures StartsSound(c')
  {}

  lemma NewDisjoint(c: Control, c': Control, bot: string, ps: map<string, Prep>)
    requires Disjoint(c) && bot !in c.bots && c'.bots == c.bots && c'.prepared == c.prepared[bot := ps]
    ensures Disjoint(c')
  {
    assert forall b, r :: HasPrep(c', b, r) && b != bot ==> HasPrep(c, b, r);
    assert forall b, r :: HasRun(c', b, r) <==> HasRun(c, b, r);
  }

  /** Preparations dropped, or none touched. */
  lemma FewerPreps(c: Control, c': Control, bot: string)
    requires PreparedSound(c) && Disjoint(c) && StartsSound(c)
    requires c'.starts == c.starts && c'.bots == c.bots && c'.epoch == c.epoch
    requires VersionOf(c, bot) <= VersionOf(c', bot)
    requires (c'.prepared == c.prepared && c'.versions == c.versions)
          || (c'.prepared == Remove(c.prepared, bot) && forall b :: b != bot ==> VersionOf(c', b) == VersionOf(c, b))
    ensures PreparedSound(c') && Disjoint(c') && StartsSound(c')
  {
    forall b, r | HasPrep(c', b, r)
      ensures HasPrep(c, b, r) && c'.prepared[b][r] == c.prepared[b][r] && VersionOf(c', b) == VersionOf(c, b)
    {}
  }

  lemma PreparedAfter(c: Control, bot: string, specs: seq<Spec>, correlation: string, outcome: PrepareOutcome)
    requires Valid(c)
    ensures var c' := Prepare(c, bot, specs, correlation, outcome).0; PreparedSound(c') && Disjoint(c') && StartsSound(c')
  {
    hide PreparedSound, Disjoint, StartsSound, RunsSound, ArmedSound, RunnersDistinct;
    var c' := Prepare(c, bot, specs, correlation, outcome).0;
    var version := VersionOf(c, bot) + 1;
    if bot !in c.bots && outcome == Prepares && specs != [] {
      NewPreps(c, c', bot, PrepareAll(specs, version, correlation), version, correlation);
    } else {
      FewerPreps(c, c', bot);
    }
  }

  lemma HandleValid(c: Control, cmd: Command)
    requires Valid(c)
    ensures Valid(Handle(c, cmd).0)
  {
    match cmd
    case BotStart(bot, specs, correlation, outcome) => PrepareValid(c, bot, specs, correlation, outcome);
    case BotAuthorize(bot, runId, strategyId, version, correlation, starts, published) =>
      AuthorizeValid(c, bot, runId, strategyId, version, correlation, starts, published);
    case BotStop(bot) =>
      ForgetValid(c, bot);
      DropValid(c, bot);
      ForgetValid(Drop(c, bot), bot);
    case EmergencyStop(bot) => DropValid(c, bot);
    case EngineRestart =>
  }

  lemma {:induction false} RunValid(c: Control, cmds: seq<Command>)
    requires Valid(c)
    ensures Valid(After(c, cmds))
  {
    if cmds != [] {
      RunValid(c, cmds[..|cmds| - 1]);
      HandleValid(After(c, cmds[..|cmds| - 1]), cmds[|cmds| - 1]);
    }
  }

  // ----- the protocol's promises -----

  /**
   * Over every run of commands, restarts and redelivered commands included: no preparation is
   * started twice, and exactly the registered runs tick.
   */
  lemma StartsAtMostOnce(cmds: seq<Command>)
    ensures var c := After(BOOT, cmds);
      && (forall j, k :: 0 <= j < k < |c.starts| ==> c.starts[j] != c.starts[k])
      && (forall b, r :: HasRun(c, b, r) ==> c.bots[b][r].runner in c.armed)
      && (forall n :: n in c.armed ==> exists b, r :: HasRun(c, b, r) && c.bots[b][r].runner == n)
  {
    BootValid();
    RunValid(BOOT, cmds);
    var c := After(BOOT, cmds);
    forall n | n in c.armed ensures exists b, r :: HasRun(c, b, r) && c.bots[b][r].runner == n {
      assert Owned(c, n);
    }
  }

  /**
   * A strategy starts only for the preparation whose run, strategy, version and session all match the
   * authorization.
   */
  lemma StartsOnlyMatched(c: Control, cmd: Command)
    ensures var c' := Handle(c, cmd).0;
      c'.starts != c.starts ==>
        && cmd.BotAuthorize? && cmd.starts && HasPrep(c, cmd.bot, cmd.runId)
        && Matches(c.prepared[cmd.bot][cmd.runId], cmd.strategyId, cmd.version, cmd.correlation)
        && c'.starts == c.starts + [Started(c.epoch, cmd.bot, c.prepared[cmd.bot][cmd.runId])]
        && !HasPrep(c', cmd.bot, cmd.runId)
  {
    if cmd.BotAuthorize? && HasPrep(c, cmd.bot, cmd.runId) {
      ConsumedPreps(c, cmd.bot, cmd.runId);
    }
  }

  /** The authorization made out for preparation p. */
  function AuthorizationFor(bot: string, p: Prep, starts: bool, published: bool): Command {
    BotAuthorize(bot, p.runId, p.strategyId, p.version, p.correlation, starts, published)
  }

  /** Registered, with nothing else prepared under its run id. */
  predicate Running(c: Control, bot: string, p: Prep) {
    HasRun(c, bot, p.runId) && c.bots[bot][p.runId].prep == p && !HasPrep(c, bot, p.runId)
  }

  lemma RunningIsAcknowledged(c: Control, bot: string, p: Prep, starts: bool, published: bool)
    requires Running(c, bot, p)
    ensures Handle(c, AuthorizationFor(bot, p, starts, published)) == (c, ReAcknowledged)
  {}

  /** The commands that end a bot's runs: stops, restarts, and another run's authorization that fails to start. */
  predicate EndsRuns(cmd: Command, bot: string) {
    || cmd.EngineRestart?
    || ((cmd.BotStop? || cmd.EmergencyStop?) && cmd.bot == bot)
    || (cmd.BotAuthorize? && cmd.bot == bot && !cmd.starts)
  }

  lemma StillRunning(c: Control, cmd: Command, bot: string, p: Prep)
    requires PreparedSound(c) && Running(c, bot, p) && !EndsRuns(cmd, bot)
    ensures Running(Handle(c, cmd).0, bot, p)
  {
    if cmd.BotAuthorize? && HasPrep(c, cmd.bot, cmd.runId) {
      var prep := c.prepared[cmd.bot][cmd.runId];
      var consumed := c.(prepared := Consume(c.prepared, cmd.bot, cmd.runId));
      ConsumedPreps(c, cmd.bot, cmd.runId);
      assert Running(consumed, bot, p);
      if cmd.starts && Matches(prep, cmd.strategyId, cmd.version, cmd.correlation) {
        RegisterRunning(consumed, cmd.bot, prep, bot, p);
      }
    }
  }

  lemma RegisterRunning(c: Control, bot: string, prep: Prep, other: string, p: Prep)
    requires Running(c, other, p) && (bot, prep.runId) != (other, p.runId)
    ensures Running(Register(RecordStart(c, bot, prep), bot, prep), other, p)
  {
    RegisteredRuns(RecordStart(c, bot, prep), bot, prep);
  }

  lemma {:induction false} StaysRunning(c: Control, cmds: seq<Command>, bot: string, p: Prep)
    requires Valid(c) && Running(c, bot, p) && forall cmd :: cmd in cmds ==> !EndsRuns(cmd, bot)
    ensures Running(After(c, cmds), bot, p)
  {
    if cmds != [] {
      RunValid(c, cmds[..|cmds| - 1]);
      hide Handle, Running, PreparedSound;
      StaysRunning(c, cmds[..|cmds| - 1], bot, p);
      StillRunning(After(c, cmds[..|cmds| - 1]), cmds[|cmds| - 1], bot, p);
    }
  }

  /**
   * A redelivered authorization is acknowledged again and changes nothing, whatever commands came in
   * between, as long as none of them ended the bot's runs.
   */
  lemma RedeliveryIsReacknowledged(c: Control, cmd: Command, between: seq<Command>)
    requires Valid(c) && cmd.BotAuthorize? && Handle(c, cmd).1 == Authorized
    requires forall later :: later in between ==> !EndsRuns(later, cmd.bot)
    ensures var c' := After(Handle(c, cmd).0, between); Handle(c', cmd) == (c', ReAcknowledged)
  {
    var prep := c.prepared[cmd.bot][cmd.runId];
    var consumed := c.(prepared := Consume(c.prepared, cmd.bot, cmd.runId));
    ConsumedPreps(c, cmd.bot, cmd.runId);
    RegisteredRuns(RecordStart(consumed, cmd.bot, prep), cmd.bot, prep);
    assert cmd == AuthorizationFor(cmd.bot, prep, cmd.starts, cmd.published);
    HandleValid(c, cmd);
    assert Running(Handle(c, cmd).0, cmd.bot, prep);
    StaysRunning(Handle(c, cmd).0, between, cmd.bot, prep);
    RunningIsAcknowledged(After(Handle(c, cmd).0, between), cmd.bot, prep, cmd.starts, cmd.published);
  }

  lemma VersionStep(c: Control, cmd: Command, bot: string)
    requires !cmd.EngineRestart?
    ensures VersionOf(c, bot) <= VersionOf(Handle(c, cmd).0, bot)
  {}

  /**
   * Within one engine process a bot's versions never fall, and every preparation carries a higher one
   * than any before it.
   */
  lemma {:induction false} VersionsClimb(c: Control, cmds: seq<Command>, bot: string)
    requires forall cmd :: cmd in cmds ==> !cmd.EngineRestart?
    ensures VersionOf(c, bot) <= VersionOf(After(c, cmds), bot)
  {
    hide Handle, VersionOf;
    if cmds != [] {
      VersionsClimb(c, cmds[..|cmds| - 1], bot);
      VersionStep(After(c, cmds[..|cmds| - 1]), cmds[|cmds| - 1], bot);
    }
  }

  lemma PreparationIsNewer(c: Control, cmds: seq<Command>, start: Command, runId: string)
    requires forall cmd :: cmd in cmds ==> !cmd.EngineRestart?
    requires start.BotStart? && Handle(After(c, cmds), start).1 == PreparedRuns
    requires HasPrep(Handle(After(c, cmds), start).0, start.bot, runId)
    ensures VersionOf(c, start.bot) < Handle(After(c, cmds), start).0.prepared[start.bot][runId].version
  {
    VersionsClimb(c, cmds, start.bot);
  }

  /** A failed authorization leaves the bot with no preparation, no registered run and no ticking runner. */
  lemma FailedAuthorizationLeavesNothing(c: Control, cmd: Command)
    requires Valid(c) && cmd.BotAuthorize? && Handle(c, cmd).1 == ExecutionFailed
    ensures var c' := Handle(c, cmd).0;
      && cmd.bot !in c'.bots && cmd.bot !in c'.prepared
      && (forall n :: n in c'.armed ==> exists b, r :: b != cmd.bot && HasRun(c', b, r) && c'.bots[b][r].runner == n)
  {
    AuthorizeValid(c, cmd.bot, cmd.runId, cmd.strategyId, cmd.version, cmd.correlation, cmd.starts, cmd.published);
    var c' := Handle(c, cmd).0;
    forall n | n in c'.armed ensures exists b, r :: b != cmd.bot && HasRun(c', b, r) && c'.bots[b][r].runner == n {
      assert Owned(c', n);
    }
  }

  // ----- one bot's stop -----

  /** One bot has the version, the preparations and the runs it had. */
  ghost predicate SameBot(c: Control, c': Control, bot: string) {
    && VersionOf(c', bot) == VersionOf(c, bot)
    && (bot in c'.prepared <==> bot in c.prepared) && (bot in c.prepared ==> c'.prepared[bot] == c.prepared[bot])
    && (bot in c'.bots <==> bot in c.bots) && (bot in c.bots ==> c'.bots[bot] == c.bots[bot])
  }

  /** It has what it had, and the runner of each of its runs ticks. */
  ghost predicate Untouched(c: Control, c': Control, bot: string) {
    SameBot(c, c', bot) && forall r :: HasRun(c', bot, r) ==> c'.bots[bot][r].runner in c'.armed
  }

  lemma OtherBotsStand(c: Control, cmd: Command, bot: string)
    requires !cmd.EngineRestart? && cmd.bot != bot
    ensures SameBot(c, Handle(c, cmd).0, bot)
  {
    hide PrepareAll, RunnersOf, Matches, Authorize;
    if cmd.BotAuthorize? {
      OtherBotsStandStarts(c, cmd, bot);
    }
  }

  lemma OtherBotsStandStarts(c: Control, cmd: Command, bot: string)
    requires cmd.BotAuthorize? && cmd.bot != bot
    ensures SameBot(c, Handle(c, cmd).0, bot)
  {
    hide RunnersOf, Matches;
  }

  /** Whatever is handled for one bot, in every state the commands reach, touches no other. */
  lemma BotsAreIsolated(c: Control, cmd: Command, bot: string)
    requires Valid(c) && !cmd.EngineRestart? && cmd.bot != bot
    ensures Untouched(c, Handle(c, cmd).0, bot)
  {
    OtherBotsStand(c, cmd, bot);
    HandleValid(c, cmd);
    hide Handle, SameBot;
  }

  /** Nothing of the bot ticks: every runner left belongs to a registered run of another bot. */
  ghost predicate Silent(c: Control, bot: string) {
    bot !in c.bots && forall n :: n in c.armed ==> exists b, r :: b != bot && HasRun(c, b, r) && c.bots[b][r].runner == n
  }

  lemma NoRunsIsSilent(c: Control, bot: string)
    requires ArmedSound(c) && bot !in c.bots
    ensures Silent(c, bot)
  {
    forall n | n in c.armed ensures exists b, r :: b != bot && HasRun(c, b, r) && c.bots[b][r].runner == n {
      assert Owned(c, n);
    }
  }

  /**
   * After any run of commands, a BOT_STOP leaves the bot with no registered run, no ticking runner
   * and no preparation, and every other bot as it was. It says which of the first and the last there was.
   */
  lemma StopLeavesNothing(cmds: seq<Command>, bot: string)
    ensures var c := After(BOOT, cmds);
      var (c', reply) := Handle(c, BotStop(bot));
      && Silent(c', bot) && bot !in c'.prepared && c'.starts == c.starts
      && (forall b :: b != bot ==> Untouched(c, c', b))
      && (reply == Stopped <==> exists r :: HasRun(c, bot, r))
      && (reply == PreparationCancelled <==> (forall r :: !HasRun(c, bot, r)) && exists r :: HasPrep(c, bot, r))
  {
    StopsAre(cmds, bot, BotStop(bot));
  }

  /** An EMERGENCY_STOP silences the bot just the same, and leaves every preparation where it is. */
  lemma PanicSilences(cmds: seq<Command>, bot: string)
    ensures var c := After(BOOT, cmds);
      var (c', reply) := Handle(c, EmergencyStop(bot));
      && Silent(c', bot) && c'.prepared == c.prepared && c'.starts == c.starts
      && (forall b :: b != bot ==> Untouched(c, c', b))
      && (reply == Stopped <==> exists r :: HasRun(c, bot, r))
  {
    StopsAre(cmds, bot, EmergencyStop(bot));
  }

  lemma StopsAre(cmds: seq<Command>, bot: string, cmd: Command)
    requires cmd == BotStop(bot) || cmd == EmergencyStop(bot)
    ensures var c := After(BOOT, cmds);
      var c' := Handle(c, cmd).0;
      && Silent(c', bot) && (forall b :: b != bot ==> Untouched(c, c', b))
      && (bot in c.bots <==> exists r :: HasRun(c, bot, r)) && (bot in c.prepared <==> exists r :: HasPrep(c, bot, r))
  {
    var c := After(BOOT, cmds);
    BootValid();
    RunValid(BOOT, cmds);
    HandleValid(c, cmd);
    NoRunsIsSilent(Handle(c, cmd).0, bot);
    forall b | b != bot ensures Untouched(c, Handle(c, cmd).0, b) {
      BotsAreIsolated(c, cmd, b);
    }
    SomeOf(c, bot);
  }

  lemma SomeOf(c: Control, bot: string)
    requires Valid(c)
    ensures (bot in c.bots <==> exists r :: HasRun(c, bot, r)) && (bot in c.prepared <==> exists r :: HasPrep(c, bot, r))
  {
    if bot in c.bots {
      var r :| r in c.bots[bot];
      assert HasRun(c, bot, r);
    }
    if bot in c.prepared {
      var r :| r in c.prepared[bot];
      assert HasPrep(c, bot, r);
    }
  }

  /** An authorized run is registered for exactly its preparation, and a new runner ticks for it. */
  lemma AuthorizedRunTicks(c: Control, cmd: Command)
    requires Valid(c) && cmd.BotAuthorize? && Handle(c, cmd).1 == Authorized
    ensures var c' := Handle(c, cmd).0;
      && HasRun(c', cmd.bot, cmd.runId) && HasPrep(c, cmd.bot, cmd.runId)
      && c'.bots[cmd.bot][cmd.runId].prep == c.prepared[cmd.bot][cmd.runId]
      && c'.bots[cmd.bot][cmd.runId].runner in c'.armed && c'.bots[cmd.bot][cmd.runId].runner !in c.armed
  {
    HandleValid(c, cmd);
    var prep := c.prepared[cmd.bot][cmd.runId];
    RegisteredRuns(RecordStart(c.(prepared := Consume(c.prepared, cmd.bot, cmd.runId)), cmd.bot, prep), cmd.bot, prep);
  }

  /** An authorization that does not fail is about its own run: every other run of the session is as it was. */
  lemma OtherRunsStand(c: Control, cmd: Command, r: string)
    requires Valid(c) && cmd.BotAuthorize? && Handle(c, cmd).1 != ExecutionFailed && r != cmd.runId
    ensures var c' := Handle(c, cmd).0;
      && (HasPrep(c', cmd.bot, r) <==> HasPrep(c, cmd.bot, r))
      && (HasPrep(c, cmd.bot, r) ==> c'.prepared[cmd.bot][r] == c.prepared[cmd.bot][r])
      && (HasRun(c', cmd.bot, r) <==> HasRun(c, cmd.bot, r))
      && (HasRun(c, cmd.bot, r) ==> c'.bots[cmd.bot][r] == c.bots[cmd.bot][r])
  {
    if HasPrep(c, cmd.bot, cmd.runId) {
      var prep := c.prepared[cmd.bot][cmd.runId];
      RegisteredRuns(RecordStart(c.(prepared := Consume(c.prepared, cmd.bot, cmd.runId)), cmd.bot, prep), cmd.bot, prep);
      assert prep.runId == cmd.runId;
      ConsumedPreps(c, cmd.bot, cmd.runId);
      hide Valid, Register, Consume, PreparedSound, Drop, Forget;
    }
  }

  /** Only an authorization that names what is prepared, or what already runs, gets anywhere; any other changes nothing. */
  lemma MismatchChangesNothing(c: Control, cmd: Command)
    requires cmd.BotAuthorize?
    requires HasPrep(c, cmd.bot, cmd.runId) ==> Differs(c.prepared[cmd.bot][cmd.runId], cmd)
    requires !HasPrep(c, cmd.bot, cmd.runId) && HasRun(c, cmd.bot, cmd.runId) ==> Differs(c.bots[cmd.bot][cmd.runId].prep, cmd)
    ensures Handle(c, cmd) == (c, if HasPrep(c, cmd.bot, cmd.runId) then StalePreparation else NotPrepared)
  {}

  /** The command is of another strategy, version or session. */
  predicate Differs(p: Prep, cmd: Command)
    requires cmd.BotAuthorize?
  {
    cmd.strategyId != p.strategyId || cmd.version != p.version || cmd.correlation != p.correlation
  }

  /** The report of a later run may fail without harm: only a failed start ends a session that has runs. */
  lemma RunsOutliveReports(c: Control, cmd: Command, r: string)
    requires PreparedSound(c) && cmd.BotAuthorize? && HasRun(c, cmd.bot, r) && cmd.starts && r != cmd.runId
    ensures HasRun(Handle(c, cmd).0, cmd.bot, r) && Handle(c, cmd).0.bots[cmd.bot][r] == c.bots[cmd.bot][r]
  {
    if HasPrep(c, cmd.bot, cmd.runId) {
      var prep := c.prepared[cmd.bot][cmd.runId];
      RegisteredRuns(RecordStart(c.(prepared := Consume(c.prepared, cmd.bot, cmd.runId)), cmd.bot, prep), cmd.bot, prep);
      assert prep.runId == cmd.runId;
    }
    hide Register, Consume, PreparedSound, Drop, Forget;
  }

  /** A prepared session holds exactly the runs it was asked for, under one new version, and nothing earlier. */
  lemma PreparedRunsAreSpecs(c: Control, bot: string, specs: seq<Spec>, correlation: string, r: string)
    requires Handle(c, BotStart(bot, specs, correlation, Prepares)).1 == PreparedRuns
    ensures var c' := Handle(c, BotStart(bot, specs, correlation, Prepares)).0;
      && (HasPrep(c', bot, r) <==> exists k :: LastSpec(specs, k, r))
      && (forall k :: LastSpec(specs, k, r) ==>
            c'.prepared[bot][r] == Prep(r, specs[k].strategyId, VersionOf(c, bot) + 1, correlation))
  {
    PreparedEach(specs, VersionOf(c, bot) + 1, correlation, r);
  }

  /** Position k has the last spec of the run. */
  predicate LastSpec(specs: seq<Spec>, k: int, r: string) {
    0 <= k < |specs| && specs[k].runId == r && forall j :: k < j < |specs| ==> specs[j].runId != r
  }

  lemma {:induction false} PreparedEach(specs: seq<Spec>, version: nat, correlation: string, r: string)
    ensures var m := PrepareAll(specs, version, correlation);
      && (r in m <==> exists k :: LastSpec(specs, k, r))
      && (forall k :: LastSpec(specs, k, r) ==> m[r] == Prep(r, specs[k].strategyId, version, correlation))
  {
    if specs != [] {
      var n := |specs| - 1;
      PreparedEach(specs[..n], version, correlation, r);
      if specs[n].runId == r {
        assert LastSpec(specs, n, r);
      } else {
        forall k ensures LastSpec(specs, k, r) <==> LastSpec(specs[..n], k, r) {
          OneSpecMore(specs, k, r);
        }
      }
    }
  }

  lemma OneSpecMore(specs: seq<Spec>, k: int, r: string)
    requires specs != [] && specs[|specs| - 1].runId != r
    ensures LastSpec(specs, k, r) <==> LastSpec(specs[..|specs| - 1], k, r)
  {
    var n := |specs| - 1;
    assert forall j :: 0 <= j < n ==> specs[..n][j] == specs[j];
  }

  /** The start is of a preparation made after the bot's version was `version` in engine process `epoch`. */
  predicate MadeAfter(s: Started, epoch: nat, version: nat) {
    s.epoch > epoch || (s.epoch == epoch && s.prep.version > version)
  }

  /** Every preparation of the bot, and every start of it from position n on, was made after that. */
  ghost predicate OnlyNewer(c: Control, bot: string, n: nat, epoch: nat, version: nat) {
    && n <= |c.starts| && epoch <= c.epoch && (c.epoch == epoch ==> version <= VersionOf(c, bot))
    && (forall r :: HasPrep(c, bot, r) ==> MadeAfter(Started(c.epoch, bot, c.prepared[bot][r]), epoch, version))
    && (forall k :: n <= k < |c.starts| && c.starts[k].bot == bot ==> MadeAfter(c.starts[k], epoch, version))
  }

  /** What a command does to a bot's preparations: a BOT_START makes new ones, nothing else adds any. */
  lemma StepPreps(c: Control, cmd: Command, bot: string, r: string)
    requires HasPrep(Handle(c, cmd).0, bot, r)
    ensures Handle(c, cmd).0.epoch == c.epoch
    ensures || (HasPrep(c, bot, r) && Handle(c, cmd).0.prepared[bot][r] == c.prepared[bot][r])
            || Handle(c, cmd).0.prepared[bot][r].version == VersionOf(c, bot) + 1
  {
    if cmd.BotAuthorize? && HasPrep(c, cmd.bot, cmd.runId) {
      ConsumedPreps(c, cmd.bot, cmd.runId);
    }
  }

  lemma NewerKept(c: Control, cmd: Command, bot: string, n: nat, epoch: nat, version: nat)
    requires OnlyNewer(c, bot, n, epoch, version)
    ensures OnlyNewer(Handle(c, cmd).0, bot, n, epoch, version)
  {
    var c' := Handle(c, cmd).0;
    StartsOnlyMatched(c, cmd);
    if !cmd.EngineRestart? {
      VersionStep(c, cmd, bot);
    }
    assert c'.epoch == if cmd.EngineRestart? then c.epoch + 1 else c.epoch;
    forall r | HasPrep(c', bot, r) ensures MadeAfter(Started(c'.epoch, bot, c'.prepared[bot][r]), epoch, version) {
      StepPreps(c, cmd, bot, r);
    }
    hide Handle;
    assert OnlyNewer(c', bot, n, epoch, version);
  }

  lemma {:induction false} NewerRun(c: Control, cmds: seq<Command>, bot: string, n: nat, epoch: nat, version: nat)
    requires OnlyNewer(c, bot, n, epoch, version)
    ensures OnlyNewer(After(c, cmds), bot, n, epoch, version)
  {
    hide Handle, OnlyNewer;
    if cmds != [] {
      NewerRun(c, cmds[..|cmds| - 1], bot, n, epoch, version);
      NewerKept(After(c, cmds[..|cmds| - 1]), cmds[|cmds| - 1], bot, n, epoch, version);
    }
  }

  /**
   * Nothing prepared before a BOT_STOP can start after it, whatever commands follow, redelivered
   * ones and engine restarts included: every later start of the bot is of a preparation made by
   * a later engine process, or by this one under a version above any it had used.
   */
  lemma NothingOldStartsAfterStop(c: Control, bot: string, cmds: seq<Command>, k: nat)
    requires |c.starts| <= k < |After(Stop(c, bot).0, cmds).starts| && After(Stop(c, bot).0, cmds).starts[k].bot == bot
    ensures MadeAfter(After(Stop(c, bot).0, cmds).starts[k], c.epoch, VersionOf(c, bot))
  {
    NewerRun(Stop(c, bot).0, cmds, bot, |c.starts|, c.epoch, VersionOf(c, bot));
  }

  lemma PreparedCanStart(c: Control, bot: string, r: string)
    requires HasPrep(c, bot, r) && c.prepared[bot][r].runId == r
    ensures var p := c.prepared[bot][r];
      && Handle(c, AuthorizationFor(bot, p, true, true)).0.starts == c.starts + [Started(c.epoch, bot, p)]
      && Handle(c, AuthorizationFor(bot, p, true, true)).0.starts != c.starts
  {}

  // ----- the panic path -----

  /** Some run of commands after c1 starts a preparation the bot already had in c. */
  ghost predicate OldCanStart(c: Control, c1: Control, bot: string) {
    exists cmds: seq<Command>, k: nat ::
      && |c1.starts| <= k < |After(c1, cmds).starts| && After(c1, cmds).starts[k].bot == bot
      && !MadeAfter(After(c1, cmds).starts[k], c.epoch, VersionOf(c, bot))
  }

  /**
   * The panic path is different from the stop: after an EMERGENCY_STOP some later run of commands
   * starts a preparation made before it if and only if the bot had one left, running or not.
   */
  lemma PanicLeavesPreparations(c: Control, bot: string)
    requires Valid(c)
    ensures OldCanStart(c, Panic(c, bot).0, bot) <==> bot in c.prepared
  {
    PanicKeeps(c, bot);
    hide Panic, OldCanStart, Valid;
    if bot in c.prepared {
      PreparedCanStartLater(c, Panic(c, bot).0, bot);
    } else {
      NothingLeftToStart(c, Panic(c, bot).0, bot);
    }
  }

  lemma PanicKeeps(c: Control, bot: string)
    ensures var c1 := Panic(c, bot).0;
      c1.prepared == c.prepared && c1.starts == c.starts && c1.epoch == c.epoch && VersionOf(c1, bot) == VersionOf(c, bot)
  {}

  lemma PreparedCanStartLater(c: Control, c1: Control, bot: string)
    requires Valid(c) && bot in c.prepared
    requires c1.prepared == c.prepared && c1.starts == c.starts && c1.epoch == c.epoch
    ensures OldCanStart(c, c1, bot)
  {
    var r := SomePreparation(c, bot);
    hide Handle, Valid;
    assert HasPrep(c1, bot, r);
    PreparedCanStart(c1, bot, r);
    var authorize := AuthorizationFor(bot, c.prepared[bot][r], true, true);
    OneCommand(c1, authorize);
    assert After(c1, [authorize]).starts[|c1.starts|] == Started(c.epoch, bot, c.prepared[bot][r]);
  }

  lemma NothingLeftToStart(c: Control, c1: Control, bot: string)
    requires bot !in c1.prepared && c1.epoch == c.epoch && VersionOf(c1, bot) == VersionOf(c, bot)
    ensures !OldCanStart(c, c1, bot)
  {
    forall cmds: seq<Command>, k: nat | |c1.starts| <= k < |After(c1, cmds).starts| && After(c1, cmds).starts[k].bot == bot
      ensures MadeAfter(After(c1, cmds).starts[k], c.epoch, VersionOf(c, bot))
    {
      NewerRun(c1, cmds, bot, |c1.starts|, c.epoch, VersionOf(c, bot));
    }
  }

  lemma OneCommand(c: Control, cmd: Command)
    ensures After(c, [cmd]) == Handle(c, cmd).0
  {
    assert [cmd][..0] == [];
  }

  lemma SomePreparation(c: Control, bot: string) returns (r: string)
    requires Valid(c) && bot in c.prepared
    ensures HasPrep(c, bot, r) && c.prepared[bot][r].runId == r && c.prepared[bot][r].version == VersionOf(c, bot)
  {
    r :| r in c.prepared[bot];
    assert HasPrep(c, bot, r);
  }

  /** Two runs prepared, one authorized, then the panic button: the other one can still start. */
  lemma PanicThenStart(bot: string)
    ensures var c1 := Handle(BOOT, BotStart(bot, [Spec("r1", "s"), Spec("r2", "s")], "c", Prepares)).0;
      var c2 := Handle(c1, BotAuthorize(bot, "r1", "s", 1, "c", true, true)).0;
      var c3 := Handle(c2, EmergencyStop(bot)).0;
      Handle(c3, BotAuthorize(bot, "r2", "s", 1, "c", true, true)).0.starts == c3.starts + [Started(0, bot, Prep("r2", "s", 1, "c"))]
  {
    var specs := [Spec("r1", "s"), Spec("r2", "s")];
    var c1 := Handle(BOOT, BotStart(bot, specs, "c", Prepares)).0;
    assert specs[..1] == [Spec("r1", "s")] && specs[..1][..0] == [];
    assert PrepareAll(specs[..1], 1, "c") == map["r1" := Prep("r1", "s", 1, "c")];
    assert c1.prepared[bot] == map["r1" := Prep("r1", "s", 1, "c"), "r2" := Prep("r2", "s", 1, "c")];
    ConsumedPreps(c1, bot, "r1");
    var c3 := Handle(Handle(c1, BotAuthorize(bot, "r1", "s", 1, "c", true, true)).0, EmergencyStop(bot)).0;
    assert HasPrep(c1, bot, "r2") && HasPrep(c3, bot, "r2");
    PreparedCanStart(c3, bot, "r2");
  }

  lemma OnePrepared(bot: string, correlation: string)
    ensures var c := Handle(BOOT, BotStart(bot, [Spec("r", "s")], correlation, Prepares)).0;
      c == BOOT.(versions := map[bot := 1], prepared := map[bot := map["r" := Prep("r", "s", 1, correlation)]])
  {
    assert [Spec("r", "s")][..0] == [];
    assert PrepareAll([], 1, correlation) == map[];
  }

  /**
   * The panic button on a session that is prepared but not running: answered BOT_NOT_FOUND, and the
   * session can still start.
   */
  lemma PanicOnPreparedOnly(bot: string)
    ensures var c := Handle(BOOT, BotStart(bot, [Spec("r", "s")], "c", Prepares)).0;
      && Handle(c, EmergencyStop(bot)) == (c, BotNotFound)
      && Handle(c, BotAuthorize(bot, "r", "s", 1, "c", true, true)).0.starts == [Started(0, bot, Prep("r", "s", 1, "c"))]
      && Handle(c, BotStop(bot)).1 == PreparationCancelled && bot !in Handle(c, BotStop(bot)).0.prepared
  {
    OnePrepared(bot, "c");
    PreparedCanStart(Handle(BOOT, BotStart(bot, [Spec("r", "s")], "c", Prepares)).0, bot, "r");
  }

  // ----- authorizations of an earlier process -----

  /**
   * An authorization made out for a preparation p starts a run exactly when the bot has an equal
   * preparation now: same run, strategy, version and session, in whichever process p was made.
   */
  lemma OldAuthorizationStartsExactly(c: Control, bot: string, p: Prep)
    requires Valid(c)
    ensures Handle(c, AuthorizationFor(bot, p, true, true)).0.starts != c.starts
         <==> HasPrep(c, bot, p.runId) && c.prepared[bot][p.runId] == p
  {
    if HasPrep(c, bot, p.runId) && c.prepared[bot][p.runId] == p {
      PreparedCanStart(c, bot, p.runId);
    }
    StartsOnlyMatched(c, AuthorizationFor(bot, p, true, true));
  }

  /** Some of the commands prepared the bot under this session. */
  predicate PreparedBy(cmds: seq<Command>, bot: string, correlation: string) {
    exists k :: 0 <= k < |cmds| && cmds[k].BotStart? && cmds[k].bot == bot && cmds[k].correlation == correlation
  }

  /** The preparations are of sessions the commands started, and so are the starts from position n on. */
  ghost predicate OfSessions(c: Control, cmds: seq<Command>, bot: string, n: nat) {
    && n <= |c.starts|
    && (forall r :: HasPrep(c, bot, r) ==> PreparedBy(cmds, bot, c.prepared[bot][r].correlation))
    && (forall k :: n <= k < |c.starts| && c.starts[k].bot == bot ==> PreparedBy(cmds, bot, c.starts[k].prep.correlation))
  }

  lemma PreparedByMore(cmds: seq<Command>, cmd: Command, bot: string, correlation: string)
    requires PreparedBy(cmds, bot, correlation) || (cmd.BotStart? && cmd.bot == bot && cmd.correlation == correlation)
    ensures PreparedBy(cmds + [cmd], bot, correlation)
  {
    if PreparedBy(cmds, bot, correlation) {
      var k :| 0 <= k < |cmds| && cmds[k].BotStart? && cmds[k].bot == bot && cmds[k].correlation == correlation;
      assert (cmds + [cmd])[k] == cmds[k];
    } else {
      assert (cmds + [cmd])[|cmds|] == cmd;
    }
  }

  lemma SessionsStep(c: Control, cmds: seq<Command>, cmd: Command, bot: string, n: nat)
    requires OfSessions(c, cmds, bot, n)
    ensures OfSessions(Handle(c, cmd).0, cmds + [cmd], bot, n)
  {
    var c' := Handle(c, cmd).0;
    StartsOnlyMatched(c, cmd);
    if cmd.BotAuthorize? && HasPrep(c, cmd.bot, cmd.runId) {
      ConsumedPreps(c, cmd.bot, cmd.runId);
    }
    forall r | HasPrep(c', bot, r) ensures PreparedBy(cmds + [cmd], bot, c'.prepared[bot][r].correlation) {
      assert (HasPrep(c, bot, r) && c'.prepared[bot][r] == c.prepared[bot][r])
          || (cmd.BotStart? && cmd.bot == bot && c'.prepared[bot][r].correlation == cmd.correlation);
      PreparedByMore(cmds, cmd, bot, c'.prepared[bot][r].correlation);
    }
    forall k | n <= k < |c'.starts| && c'.starts[k].bot == bot ensures PreparedBy(cmds + [cmd], bot, c'.starts[k].prep.correlation) {
      assert PreparedBy(cmds, bot, c'.starts[k].prep.correlation);
      PreparedByMore(cmds, cmd, bot, c'.starts[k].prep.correlation);
    }
  }

  lemma {:induction false} SessionsRun(c: Control, cmds: seq<Command>, bot: string, n: nat)
    requires OfSessions(c, [], bot, n)
    ensures OfSessions(After(c, cmds), cmds, bot, n)
  {
    hide Handle, OfSessions;
    if cmds != [] {
      var earlier := cmds[..|cmds| - 1];
      SessionsRun(c, earlier, bot, n);
      SessionsStep(After(c, earlier), earlier, cmds[|cmds| - 1], bot, n);
      assert earlier + [cmds[|cmds| - 1]] == cmds;
    }
  }

  /**
   * What the session correlation does keep apart: after an engine restart nothing starts unless a
   * BOT_START of its own session was handled since, so an old authorization starts nothing by itself.
   */
  lemma RestartNeedsItsSession(c: Control, cmds: seq<Command>, k: nat)
    requires var c1 := Handle(c, EngineRestart).0; |c.starts| <= k < |After(c1, cmds).starts|
    ensures var start := After(Handle(c, EngineRestart).0, cmds).starts[k]; PreparedBy(cmds, start.bot, start.prep.correlation)
  {
    var c1 := Handle(c, EngineRestart).0;
    SessionsRun(c1, cmds, After(c1, cmds).starts[k].bot, |c.starts|);
  }

  /**
   * And what it does not: when the BOT_START itself is handled again, the version is 1 again and the
   * authorization of the first life starts a run of the second.
   */
  lemma RestartThenOldAuthorization(bot: string)
    ensures var start := BotStart(bot, [Spec("r", "s")], "c", Prepares);
      var authorize := BotAuthorize(bot, "r", "s", 1, "c", true, true);
      var c := Handle(Handle(Handle(Handle(BOOT, start).0, authorize).0, EngineRestart).0, start).0;
      Handle(c, authorize).1 == Authorized && Handle(c, authorize).0.starts == c.starts + [Started(1, bot, Prep("r", "s", 1, "c"))]
  {
    var start := BotStart(bot, [Spec("r", "s")], "c", Prepares);
    var c1 := Handle(Handle(Handle(BOOT, start).0, BotAuthorize(bot, "r", "s", 1, "c", true, true)).0, EngineRestart).0;
    assert [Spec("r", "s")][..0] == [];
    assert PrepareAll([], 1, "c") == map[];
    assert HasPrep(Handle(c1, start).0, bot, "r") && Handle(c1, start).0.prepared[bot]["r"] == Prep("r", "s", 1, "c");
    PreparedCanStart(Handle(c1, start).0, bot, "r");
  }
}
