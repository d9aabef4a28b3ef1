/**
 * Preparing a task's links stage by stage, and the worker cycle around it, as functions on the state of the world.
 * Which calls fail, and what they return, is up to an oracle that answers call after call.
 */
module LinkReadiness {
  import opened Basics

  datatype EndType = Native | Miniprogram

  datatype RunTarget = LinkExtraction | LinkReadyTarget

  datatype Stage = NotStarted | WaitingTime | Extraction | DeliveryDrama | PromotionConfig | AllReady

  datatype TaskState = Pending | Working | Extracted | InReview | Ready

  predicate DistinctTypes(links: seq<(string, string)>) {
    forall i, j :: 0 <= i < j < |links| ==> links[i].0 != links[j].0
  }

  /** A link set: link types with their links, in order, each type once. */
  type Links = links: seq<(string, string)> | DistinctTypes(links) witness []

  /** The id of something created outside. */
  type Id = id: string | id != "" witness "id"

  /** A task as stored; `validated` says its links were validated. */
  datatype Row = Row(
    endType: EndType,
    availableTime: Time,
    validated: bool,
    links: Links,
    dramaId: string,
    configs: map<string, string>,
    stage: Stage,
    state: TaskState)

  predicate LinksDone(row: Row) {
    row.validated && row.links != []
  }

  /** The id of a configuration, empty when there is none. */
  function ConfigOf(configs: map<string, string>, linkType: string): string {
    if linkType in configs then configs[linkType] else ""
  }

  /** The non-empty links without a configuration, in link order. */
  function Missing(links: seq<(string, string)>, configs: map<string, string>): seq<(string, string)> {
    if links == [] then []
    else
      var rest := Missing(links[1..], configs);
      if links[0].1 != "" && ConfigOf(configs, links[0].0) == "" then [links[0]] + rest else rest
  }

  /** Nothing is left to do for a native task. */
  predicate Complete(row: Row) {
    LinksDone(row) && row.dramaId != "" && Missing(row.links, row.configs) == []
  }

  function LinkOf(links: seq<(string, string)>, linkType: string): string {
    if links == [] then "" else if links[0].0 == linkType then links[0].1 else LinkOf(links[1..], linkType)
  }

  /** The first non-empty link of the three known types. */
  function PrimaryLink(links: seq<(string, string)>): Option<string> {
    if LinkOf(links, "IAA") != "" then Some(LinkOf(links, "IAA"))
    else if LinkOf(links, "2.9") != "" then Some(LinkOf(links, "2.9"))
    else if LinkOf(links, "9.9") != "" then Some(LinkOf(links, "9.9"))
    else None
  }

  // ---- calls ----

  /** Calls outside or to the database; reads, stage records, queue rows and events are `OtherCall`. */
  datatype Event =
    | PrepareCall(found: Option<(bool, Links)>)
    | AssetCall(link: string, id: Option<Id>)
    | ConfigCall(dramaId: string, linkType: string, link: string, id: Option<Id>)
    | UpdateCall(row: Row, ok: bool)
    | OtherCall(ok: bool)
    | CommitCall(ok: bool)
    | RollbackCall

  predicate Succeeded(event: Event) {
    match event
    case PrepareCall(found) => found.Some?
    case AssetCall(_, id) => id.Some?
    case ConfigCall(_, _, _, id) => id.Some?
    case UpdateCall(_, ok) => ok
    case OtherCall(ok) => ok
    case CommitCall(ok) => ok
    case RollbackCall => true
  }

  /** What a call gets; `raises` tells an exception of the extraction from a refusal. */
  datatype Answer = Answer(ok: bool, raises: bool, id: Id, validated: bool, links: Links)

  type Oracle = nat -> Answer

  /** The task in hand, its row as written so far and as committed, and all calls up to now. */
  datatype World = World(task: Row, stored: Row, committed: Row, log: seq<Event>)

  function Next(w: World, o: Oracle): Answer {
    o(|w.log|)
  }

  /** The latest call succeeded. */
  predicate Went(w: World) {
    w.log != [] && Succeeded(w.log[|w.log| - 1])
  }

  function Save(w: World, o: Oracle): World {
    var ok := Next(w, o).ok;
    w.(stored := if ok then w.task else w.stored, log := w.log + [UpdateCall(w.task, ok)])
  }

  function Other(w: World, o: Oracle): World {
    w.(log := w.log + [OtherCall(Next(w, o).ok)])
  }

  /** A successful extraction stores the links it found. */
  function Prepare(w: World, o: Oracle): World {
    var a := Next(w, o);
    if a.ok then
      w.(stored := w.stored.(validated := a.validated, links := a.links),
         log := w.log + [PrepareCall(Some((a.validated, a.links)))])
    else w.(log := w.log + [PrepareCall(None)])
  }

  /** The task remembers the id as soon as it has it. */
  function MakeAsset(w: World, o: Oracle, link: string): World {
    var a := Next(w, o);
    if a.ok then
      w.(task := w.task.(dramaId := a.id, stage := DeliveryDrama), log := w.log + [AssetCall(link, Some(a.id))])
    else w.(log := w.log + [AssetCall(link, None)])
  }

  function MakeConfig(w: World, o: Oracle, linkType: string, link: string): World {
    var a := Next(w, o);
    if a.ok then
      w.(task := w.task.(configs := w.task.configs[linkType := a.id]),
         log := w.log + [ConfigCall(w.task.dramaId, linkType, link, Some(a.id))])
    else w.(log := w.log + [ConfigCall(w.task.dramaId, linkType, link, None)])
  }

  function Commit(w: World, o: Oracle): World {
    var ok := Next(w, o).ok;
    w.(committed := if ok then w.stored else w.committed, log := w.log + [CommitCall(ok)])
  }

  function Rollback(w: World): World {
    w.(stored := w.committed, log := w.log + [RollbackCall])
  }

  // ---- stages ----

  /** How an execution ends: one of the outcomes, or an exception that escapes. */
  datatype Outcome = Waiting | ExtractionDone | AllLinksReady | ManualReview | Raised

  datatype StageEnd = Done | Stopped(outcome: Outcome)

  function At(w: World, stage: Stage): World {
    w.(task := w.task.(stage := stage))
  }

  function Marked(w: World, state: TaskState): World {
    w.(task := w.task.(state := state))
  }

  /** _stage_failure: record it and send the task to review, if both can be written. */
  function StageFailure(w: World, o: Oracle, stage: Stage): (World, StageEnd) {
    var recorded := Other(w, o);
    if !Went(recorded) then (recorded, Stopped(Raised))
    else
      var saved := Save(Marked(At(recorded, stage), InReview), o);
      (saved, Stopped(if Went(saved) then ManualReview else Raised))
  }

  /** Store the task and mark the step finished; a failure of either is a stage failure. */
  function FinishStage(w: World, o: Oracle, stage: Stage): (World, StageEnd) {
    var saved := Save(At(w, stage), o);
    if !Went(saved) then StageFailure(saved, o, stage)
    else
      var finished := Other(saved, o);
      if Went(finished) then (finished, Done) else StageFailure(finished, o, stage)
  }

  /** A stage with nothing to do only stores where the task is. */
  function PassStage(w: World, o: Oracle, stage: Stage): (World, StageEnd) {
    var saved := Save(At(w, stage), o);
    (saved, if Went(saved) then Done else Stopped(Raised))
  }

  /** Links and state as the extraction stored them. */
  function Reloaded(w: World): World {
    w.(task := w.task.(validated := w.stored.validated, links := w.stored.links, state := w.stored.state))
  }

  function EnsureLinks(w: World, o: Oracle): (World, StageEnd) {
    if LinksDone(w.task) then PassStage(w, o, Extraction)
    else
      var begun := Other(w, o);
      if !Went(begun) then (begun, Stopped(Raised))
      else
        var prepared := Prepare(begun, o);
        if !Went(prepared) && Next(begun, o).raises then StageFailure(prepared, o, Extraction)
        else if !Went(prepared) then
          var recorded := Other(prepared, o);
          if !Went(recorded) then StageFailure(recorded, o, Extraction)
          else
            var saved := Save(Marked(At(recorded, Extraction), InReview), o);
            if Went(saved) then (saved, Stopped(ManualReview)) else StageFailure(saved, o, Extraction)
        else
          var read := Other(prepared, o);
          if !Went(read) then StageFailure(read, o, Extraction)
          else FinishStage(Reloaded(read), o, Extraction)
  }

  function EnsureDeliveryDrama(w: World, o: Oracle): (World, StageEnd) {
    if w.task.dramaId != "" then PassStage(w, o, DeliveryDrama)
    else
      var begun := Other(w, o);
      if !Went(begun) then (begun, Stopped(Raised))
      else
        match PrimaryLink(w.task.links)
        case None => StageFailure(begun, o, DeliveryDrama)
        case Some(link) =>
          var made := MakeAsset(begun, o, link);
          if Went(made) then FinishStage(made, o, DeliveryDrama) else StageFailure(made, o, DeliveryDrama)
  }

  /** Create the configurations one by one, each stored before the next. */
  function CreateConfigs(w: World, o: Oracle, missing: seq<(string, string)>): (World, StageEnd)
    decreases |missing|
  {
    if missing == [] then (w, Done)
    else
      var made := MakeConfig(w, o, missing[0].0, missing[0].1);
      if !Went(made) then StageFailure(made, o, PromotionConfig)
      else
        var saved := Save(made, o);
        if Went(saved) then CreateConfigs(saved, o, missing[1..]) else StageFailure(saved, o, PromotionConfig)
  }

  function EnsurePromotionConfigs(w: World, o: Oracle): (World, StageEnd) {
    var missing := Missing(w.task.links, w.task.configs);
    if missing == [] then PassStage(w, o, PromotionConfig)
    else
      var begun := Other(w, o);
      if !Went(begun) || PrimaryLink(w.task.links).None? then (begun, Stopped(Raised))
      else
        var (made, end) := CreateConfigs(begun, o, missing);
        if end == Done then FinishStage(made, o, PromotionConfig) else (made, end)
  }

  /** Store the task at the end of an execution. */
  function Conclude(w: World, o: Oracle, outcome: Outcome): (World, Outcome) {
    var saved := Save(w, o);
    (saved, if Went(saved) then outcome else Raised)
  }

  function Deliver(w: World, o: Oracle): (World, StageEnd) {
    var (drama, end) := EnsureDeliveryDrama(w, o);
    if end == Done then EnsurePromotionConfigs(drama, o) else (drama, end)
  }

  function Execute(w: World, o: Oracle, target: RunTarget, now: Time): (World, Outcome) {
    if now < w.task.availableTime then Conclude(At(w, WaitingTime), o, Waiting)
    else
      var (linked, links) := EnsureLinks(w, o);
      if links.Stopped? then (linked, links.outcome)
      else if target == LinkExtraction then Conclude(Marked(linked, Extracted), o, ExtractionDone)
      else
        var (delivered, end) := if w.task.endType == Native then Deliver(linked, o) else (linked, Done);
        if end.Stopped? then (delivered, end.outcome)
        else Conclude(Marked(At(delivered, AllReady), Ready), o, AllLinksReady)
  }

  // ---- the worker cycle ----

  function ClosingState(outcome: Outcome): TaskState {
    match outcome
    case ExtractionDone => Extracted
    case AllLinksReady => Ready
    case _ => InReview
  }

  /** Queue row, task read, task update. */
  function Open(w: World, o: Oracle): World {
    var queued := Other(w, o);
    if !Went(queued) then queued
    else
      var read := Other(queued, o);
      if Went(read) then Save(Marked(read.(task := read.stored), Working), o) else read
  }

  /** Event, queue row, task update, commit; whatever the execution came to. */
  function Close(w: World, o: Oracle, outcome: Outcome): World {
    var event := Other(w, o);
    if !Went(event) then event
    else
      var queued := Other(event, o);
      if !Went(queued) then queued
      else
        var saved := Save(Marked(queued, ClosingState(outcome)), o);
        if Went(saved) then Commit(saved, o) else saved
  }

  /** One cycle for a claimed item: from the stored row, and rolled back unless the commit succeeds. */
  function Cycle(w: World, o: Oracle, target: RunTarget, now: Time): World {
    var begun := Open(w, o);
    if !Went(begun) then Rollback(begun)
    else
      var (executed, outcome) := Execute(begun, o, target, now);
      var closed := Close(executed, o, outcome);
      if Went(closed) then closed else Rollback(closed)
  }

  /** Cycles one after the other, each with its target and time. */
  function Cycles(w: World, o: Oracle, plan: seq<(RunTarget, Time)>): World {
    if plan == [] then w
    else
      var last := plan[|plan| - 1];
      Cycle(Cycles(w, o, plan[..|plan| - 1]), o, last.0, last.1)
  }
}
