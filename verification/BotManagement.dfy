/** The bot manager's maps, updated command by command exactly as `BotControl` says. */
module BotManagement {
  import opened BotControl

  class BotManager {
    var preparationVersions: map<string, nat>
    var prepared: map<string, map<string, Prep>>
    var bots: map<string, map<string, ActiveRun>>
    var armed: set<nat>
    var nextRunner: nat
    ghost var starts: seq<Started>
    ghost const epoch: nat

    ghost function State(): Control
      reads this
    {
      Control(epoch, preparationVersions, prepared, bots, armed, nextRunner, starts)
    }

    /** The engine process that follows state c: nothing of its memory survives. */
    constructor (ghost c: Control)
      ensures State() == Handle(c, EngineRestart).0
    {
      preparationVersions, prepared, bots, armed, nextRunner := map[], map[], map[], {}, 0;
      epoch, starts := c.epoch + 1, c.starts;
    }

    /** Prepare a session: price every run, place nothing. */
    method HandleStart(bot: string, specs: seq<Spec>, correlation: string, outcome: PrepareOutcome)
      returns (reply: Reply)
      modifies this
      ensures (State(), reply) == Handle(old(State()), BotStart(bot, specs, correlation, outcome))
    {
      if bot in bots {
        return AlreadyRunning;
      }
      if outcome != FailsBeforeVersion {
        var version := (if bot in preparationVersions then preparationVersions[bot] else 0) + 1;
        preparationVersions := preparationVersions[bot := version];
        if outcome == Prepares && specs != [] {
          var preparedRuns := PrepareRuns(specs, version, correlation);
          prepared := prepared[bot := preparedRuns];
          return PreparedRuns;
        }
      }
      prepared := prepared - {bot};
      return InitFailed;
    }

    method PrepareRuns(specs: seq<Spec>, version: nat, correlation: string) returns (runs: map<string, Prep>)
      ensures runs == PrepareAll(specs, version, correlation)
    {
      runs := map[];
      for k := 0 to |specs|
        invariant runs == PrepareAll(specs[..k], version, correlation)
      {
        assert specs[..k + 1][..k] == specs[..k];
        runs := runs[specs[k].runId := Prep(specs[k].runId, specs[k].strategyId, version, correlation)];
      }
      assert specs[..|specs|] == specs;
    }

    /** Stop the tick runner of every run of a bot and forget the bot. */
    method StopRuns(bot: string)
      modifies this`armed, this`bots
      ensures State() == Drop(old(State()), bot)
    {
      if bot in bots {
        var runs := bots[bot];
        var left := runs.Keys;
        ghost var before := armed;
        while left != {}
          invariant left <= runs.Keys && runs == old(bots[bot]) && bots == old(bots)
          invariant armed == before - (set r | r in runs && r !in left :: runs[r].runner)
          decreases |left|
        {
          var r :| r in left;
          armed := armed - {runs[r].runner};
          left := left - {r};
        }
        assert (set r | r in runs && r !in left :: runs[r].runner) == RunnersOf(runs);
        bots := bots - {bot};
      }
    }

    /** Start a prepared run, if the authorization is for exactly that preparation. */
    method AuthorizeStart(bot: string, runId: string, strategyId: string, version: nat, correlation: string,
                          startOk: bool, published: bool)
      returns (reply: Reply)
      modifies this
      ensures (State(), reply) == Handle(old(State()), BotAuthorize(bot, runId, strategyId, version, correlation, startOk, published))
    {
      if bot !in prepared || runId !in prepared[bot] {
        if bot in bots && runId in bots[bot] && Matches(bots[bot][runId].prep, strategyId, version, correlation) {
          return ReAcknowledged;
        }
        return NotPrepared;
      }
      var prep := prepared[bot][runId];
      if prep.strategyId != strategyId || prep.version != version || prep.correlation != correlation {
        return StalePreparation;
      }
      ConsumePreparation(bot, runId);
      if !startOk {
        StopRuns(bot);
        prepared := prepared - {bot};
        return ExecutionFailed;
      }
      starts := starts + [Started(epoch, bot, prep)];
      var firstRun := bot !in bots;
      ArmRunner(bot, prep);
      if firstRun && !published {
        StopRuns(bot);
        prepared := prepared - {bot};
        return ExecutionFailed;
      }
      return Authorized;
    }

    method ConsumePreparation(bot: string, runId: string)
      requires bot in prepared
      modifies this`prepared
      ensures prepared == Consume(old(prepared), bot, runId)
    {
      var left := prepared[bot] - {runId};
      if left == map[] {
        prepared := prepared - {bot};
      } else {
        prepared := prepared[bot := left];
      }
    }

    /** Arm a runner and register the run; the first run opens the session. */
    method ArmRunner(bot: string, prep: Prep)
      modifies this`armed, this`nextRunner, this`bots
      ensures State() == Register(old(State()), bot, prep)
    {
      var runner := nextRunner;
      nextRunner := nextRunner + 1;
      armed := armed + {runner};
      if bot in bots {
        bots := bots[bot := bots[bot][prep.runId := ActiveRun(prep, runner)]];
      } else {
        bots := bots[bot := map[prep.runId := ActiveRun(prep, runner)]];
      }
    }

    method HandleStop(bot: string) returns (reply: Reply)
      modifies this
      ensures (State(), reply) == Handle(old(State()), BotStop(bot))
    {
      if bot !in bots {
        if bot in prepared {
          prepared := prepared - {bot};
          return PreparationCancelled;
        }
        return BotNotFound;
      }
      StopRuns(bot);
      prepared := prepared - {bot};
      return Stopped;
    }

    /** Kill trading at once; preparations stay where they are. */
    method HandleEmergencyStop(bot: string) returns (reply: Reply)
      modifies this
      ensures (State(), reply) == Handle(old(State()), EmergencyStop(bot))
    {
      if bot !in bots {
        return BotNotFound;
      }
      StopRuns(bot);
      return Stopped;
    }
  }
}
