/** The link stages and the worker cycle as the program runs them, statement by statement. */
module LinkReadinessService {
  import opened Basics
  import opened LinkReadiness

  /** The database and the systems outside; the oracle answers each call. */
  class Outside {
    const oracle: Oracle
    var stored: Row
    var committed: Row
    var log: seq<Event>

    constructor (oracle: Oracle, row: Row)
      ensures this.oracle == oracle && stored == committed == row && log == []
    {
      this.oracle, stored, committed, log := oracle, row, row, [];
    }

    /** The state of the world with a task in hand. */
    function Seen(task: Row): World
      reads this
    {
      World(task, stored, committed, log)
    }

    /** A read, a stage record, a queue row or an event. */
    method Record() returns (ok: bool)
      modifies this`log
      ensures log == old(log) + [OtherCall(ok)] && ok == oracle(|old(log)|).ok
    {
      ok := oracle(|log|).ok;
      log := log + [OtherCall(ok)];
    }

    method Update(task: Row) returns (ok: bool)
      modifies this`log, this`stored
      ensures Seen(task) == Save(old(Seen(task)), oracle) && ok == Went(Seen(task))
    {
      ok := oracle(|log|).ok;
      log := log + [UpdateCall(task, ok)];
      if ok {
        stored := task;
      }
    }

    method PrepareTask(task: Row) returns (found: bool, raised: bool)
      modifies this`log, this`stored
      ensures Seen(task) == Prepare(old(Seen(task)), oracle)
      ensures found == Went(Seen(task)) && (raised <==> !found && oracle(|old(log)|).raises)
    {
      var answer := oracle(|log|);
      found, raised := answer.ok, !answer.ok && answer.raises;
      if found {
        stored := stored.(validated := answer.validated, links := answer.links);
      }
      log := log + [PrepareCall(if found then Some((answer.validated, answer.links)) else None)];
    }

    method EnsureDramaAsset(link: string) returns (id: Option<Id>)
      modifies this`log
      ensures log == old(log) + [AssetCall(link, id)]
      ensures id == if oracle(|old(log)|).ok then Some(oracle(|old(log)|).id) else None
    {
      var answer := oracle(|log|);
      id := if answer.ok then Some(answer.id) else None;
      log := log + [AssetCall(link, id)];
    }

    method EnsurePromotionConfig(dramaId: string, linkType: string, link: string) returns (id: Option<Id>)
      modifies this`log
      ensures log == old(log) + [ConfigCall(dramaId, linkType, link, id)]
      ensures id == if oracle(|old(log)|).ok then Some(oracle(|old(log)|).id) else None
    {
      var answer := oracle(|log|);
      id := if answer.ok then Some(answer.id) else None;
      log := log + [ConfigCall(dramaId, linkType, link, id)];
    }

    method CommitAll() returns (ok: bool)
      modifies this`log, this`committed
      ensures log == old(log) + [CommitCall(ok)] && ok == oracle(|old(log)|).ok
      ensures committed == if ok then stored else old(committed)
    {
      ok := oracle(|log|).ok;
      log := log + [CommitCall(ok)];
      if ok {
        committed := stored;
      }
    }

    method RollbackAll()
      modifies this`log, this`stored
      ensures stored == committed && log == old(log) + [RollbackCall]
    {
      stored := committed;
      log := log + [RollbackCall];
    }
  }

  class LinkReadinessService {
    const outside: Outside
    var task: Row

    constructor (outside: Outside, task: Row)
      ensures this.outside == outside && this.task == task
    {
      this.outside, this.task := outside, task;
    }

    function Now(): World
      reads this, outside
    {
      outside.Seen(task)
    }

    method StageFailure(stage: Stage) returns (end: StageEnd)
      modifies this, outside
      ensures (Now(), end) == LinkReadiness.StageFailure(old(Now()), outside.oracle, stage)
    {
      var ok := outside.Record();
      if !ok {
        return Stopped(Raised);
      }
      task := task.(stage := stage, state := InReview);
      ok := outside.Update(task);
      end := Stopped(if ok then ManualReview else Raised);
    }

    /** Store the task and finish the step. */
    method FinishStage(stage: Stage) returns (end: StageEnd)
      modifies this, outside
      ensures (Now(), end) == LinkReadiness.FinishStage(old(Now()), outside.oracle, stage)
    {
      task := task.(stage := stage);
      var ok := outside.Update(task);
      if ok {
        ok := outside.Record();
      }
      if ok {
        return Done;
      }
      end := StageFailure(stage);
    }

    /** Take over validated links, unless the task has them. */
    method EnsureLinks() returns (end: StageEnd)
      modifies this, outside
      ensures (Now(), end) == LinkReadiness.EnsureLinks(old(Now()), outside.oracle)
    {
      hide LinksDone, LinkReadiness.StageFailure, LinkReadiness.FinishStage;
      if LinksDone(task) {
        task := task.(stage := Extraction);
        var ok := outside.Update(task);
        return if ok then Done else Stopped(Raised);
      }
      var ok := outside.Record();
      if !ok {
        return Stopped(Raised);
      }
      var found, raised := outside.PrepareTask(task);
      if raised {
        end := StageFailure(Extraction);
      } else if !found {
        ok := outside.Record();
        if ok {
          task := task.(stage := Extraction, state := InReview);
          ok := outside.Update(task);
        }
        if ok {
          return Stopped(ManualReview);
        }
        end := StageFailure(Extraction);
      } else {
        ok := outside.Record();
        if ok {
          task := task.(
            validated := outside.stored.validated, links := outside.stored.links, state := outside.stored.state);
          end := FinishStage(Extraction);
        } else {
          end := StageFailure(Extraction);
        }
      }
    }

    /** Create the drama in the delivery system, unless the task knows its id. */
    method EnsureDeliveryDrama() returns (end: StageEnd)
      modifies this, outside
      ensures (Now(), end) == LinkReadiness.EnsureDeliveryDrama(old(Now()), outside.oracle)
    {
      hide PrimaryLink, LinkReadiness.StageFailure, LinkReadiness.FinishStage;
      if task.dramaId != "" {
        task := task.(stage := DeliveryDrama);
        var ok := outside.Update(task);
        return if ok then Done else Stopped(Raised);
      }
      var ok := outside.Record();
      if !ok {
        return Stopped(Raised);
      }
      var id := None;
      var link := PrimaryLink(task.links);
      if link.Some? {
        id := outside.EnsureDramaAsset(link.value);
      }
      if id.Some? {
        task := task.(dramaId := id.value, stage := DeliveryDrama);
        end := FinishStage(DeliveryDrama);
      } else {
        end := StageFailure(DeliveryDrama);
      }
    }

    /** Create the missing configurations in link order, storing each before the next. */
    method EnsurePromotionConfigs() returns (end: StageEnd)
      modifies this, outside
      ensures (Now(), end) == LinkReadiness.EnsurePromotionConfigs(old(Now()), outside.oracle)
    {
      hide PrimaryLink, Missing, LinkReadiness.StageFailure, LinkReadiness.FinishStage, LinkReadiness.CreateConfigs;
      var missing := Missing(task.links, task.configs);
      if missing == [] {
        task := task.(stage := PromotionConfig);
        var ok := outside.Update(task);
        return if ok then Done else Stopped(Raised);
      }
      var ok := outside.Record();
      if !ok || PrimaryLink(task.links).None? {
        return Stopped(Raised);
      }
      end := CreateConfigs(missing);
      if end == Done {
        end := FinishStage(PromotionConfig);
      }
    }

    method CreateConfigs(missing: seq<(string, string)>) returns (end: StageEnd)
      modifies this, outside
      ensures (Now(), end) == LinkReadiness.CreateConfigs(old(Now()), outside.oracle, missing)
    {
      hide LinkReadiness.StageFailure, PrimaryLink, Missing;
      var i := 0;
      while i < |missing|
        invariant 0 <= i <= |missing|
        invariant LinkReadiness.CreateConfigs(old(Now()), outside.oracle, missing)
          == LinkReadiness.CreateConfigs(Now(), outside.oracle, missing[i..])
      {
        var id := outside.EnsurePromotionConfig(task.dramaId, missing[i].0, missing[i].1);
        var ok := id.Some?;
        if ok {
          task := task.(configs := task.configs[missing[i].0 := id.value]);
          ok := outside.Update(task);
        }
        if !ok {
          end := StageFailure(PromotionConfig);
          return;
        }
        i := i + 1;
      }
      end := Done;
    }

    /** Carry the task as far as `target` says. */
    method Execute(target: RunTarget, now: Time) returns (outcome: Outcome)
      modifies this, outside
      ensures (Now(), outcome) == LinkReadiness.Execute(old(Now()), outside.oracle, target, now)
    {
      if now < task.availableTime {
        task := task.(stage := WaitingTime);
        var ok := outside.Update(task);
        return if ok then Waiting else Raised;
      }
      var native := task.endType == Native;
      var end := EnsureLinks();
      if end.Stopped? {
        return end.outcome;
      }
      if target == LinkExtraction {
        task := task.(state := Extracted);
        var ok := outside.Update(task);
        return if ok then ExtractionDone else Raised;
      }
      if native {
        end := EnsureDeliveryDrama();
        if end == Done {
          end := EnsurePromotionConfigs();
        }
        if end.Stopped? {
          return end.outcome;
        }
      }
      task := task.(stage := AllReady, state := Ready);
      var ok := outside.Update(task);
      outcome := if ok then AllLinksReady else Raised;
    }
  }

  /** A worker with a claimed item of the task. */
  class Worker {
    const outside: Outside
    var task: Row

    constructor (outside: Outside)
      ensures this.outside == outside && task == outside.stored
    {
      this.outside, task := outside, outside.stored;
    }

    function Now(): World
      reads this, outside
    {
      outside.Seen(task)
    }

    method Open() returns (ok: bool)
      modifies this, outside
      ensures Now() == LinkReadiness.Open(old(Now()), outside.oracle) && ok == Went(Now())
    {
      ok := outside.Record();
      if !ok {
        return;
      }
      ok := outside.Record();
      if !ok {
        return;
      }
      task := outside.stored.(state := Working);
      ok := outside.Update(task);
    }

    method Close(outcome: Outcome) returns (ok: bool)
      modifies this, outside
      ensures Now() == LinkReadiness.Close(old(Now()), outside.oracle, outcome) && ok == Went(Now())
    {
      hide ClosingState;
      ok := outside.Record();
      if ok {
        ok := outside.Record();
      }
      if ok {
        task := task.(state := ClosingState(outcome));
        ok := outside.Update(task);
        if ok {
          ok := outside.CommitAll();
        }
      }
    }

    /** One cycle; what escapes from the execution is an outcome like any other. */
    method Cycle(target: RunTarget, now: Time)
      modifies this, outside
      ensures Now() == LinkReadiness.Cycle(old(Now()), outside.oracle, target, now)
    {
      var ok := Open();
      if ok {
        var service := new LinkReadinessService(outside, task);
        var outcome := service.Execute(target, now);
        task := service.task;
        ok := Close(outcome);
      }
      if !ok {
        outside.RollbackAll();
      }
    }
  }
}
