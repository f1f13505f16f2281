/** Audit records: the schema every record must meet, and the record each gateway transition is written as. */
module AuditRecords {
  import opened SafetyTypes
  import G = GatewaySpec

  datatype Operation = Discover | Validate | Arm | StartTask | Heartbeat | Cancel | EmergencyStop | OperatorReset

  datatype Outcome = Success | Rejected | Faulted

  /** The operation data of a record: none, the four stop fields, the fields of a task start (well formed or not), or
      anything else. */
  datatype Data = Empty | Stop(result: StopResult) | Task(wellFormed: bool) | Unknown

  /** What the controller hands to the writer for one transition. */
  datatype Item = Item(operation: Operation, before: SafetyState, after: SafetyState, outcome: Outcome, data: Data)

  /** A persisted record. `plain` stands for the checks that look at one field alone: clocks, endpoint ids, error code,
      session format, and the exact set of keys. */
  datatype Record = Record(item: Item, session: string, plain: bool)

  predicate TransitionInTables(i: Item) {
    match i.outcome
    case Rejected => i.before == i.after
    case Faulted => i.operation.Heartbeat? && i.before == RUNNING && i.after == FAULTED
    case Success =>
      match i.operation
      case Discover => i.before == NEW && i.after == DISCOVERED
      case Validate => i.before == DISCOVERED && i.after in {VALIDATED, ARMED}
      case Arm => i.before == VALIDATED && i.after == ARMED
      case StartTask => i.before == ARMED && i.after == RUNNING
      case Heartbeat => i.before == RUNNING && i.after == RUNNING
      case Cancel => i.before == RUNNING && i.after == STOPPED
      case EmergencyStop => i.before != ESTOPPED && i.after == ESTOPPED
      case OperatorReset => i.before == ESTOPPED && i.after == NEW
  }

  predicate DataFits(i: Item) {
    if i.operation.Cancel? || i.operation.EmergencyStop? || (i.operation.Heartbeat? && i.outcome.Faulted?) then
      i.data.Stop? && AuditableCode(i.data.result.code)
    else if i.operation.StartTask? then i.data.Empty? || (i.data.Task? && i.data.wellFormed)
    else i.data.Empty?
  }

  predicate ValidRecord(r: Record) {
    r.plain && TransitionInTables(r.item) && DataFits(r.item)
  }

  /** The operation and outcome under which the controller's call sites append a transition. */
  function CallSite(t: G.Transition): (Operation, Outcome) {
    match t.after
    case DISCOVERED => (Discover, Success)
    case VALIDATED => (Validate, Success)
    case ARMED => (if t.before == VALIDATED then Arm else Validate, Success)
    case RUNNING => (if t.before == ARMED then StartTask else Heartbeat, Success)
    case STOPPED => (Cancel, Success)
    case FAULTED => (Heartbeat, Faulted)
    case ESTOPPED => (EmergencyStop, Success)
    case NEW => (OperatorReset, Success)
  }

  /** What registering a transition stores: a stop result replaces the operation data, and may not come with any. */
  function Registered(t: G.Transition, operation: Operation, outcome: Outcome, data: Data): Option<Item> {
    if t.stop.None? then Some(Item(operation, t.before, t.after, outcome, data))
    else if data != Empty then None
    else Some(Item(operation, t.before, t.after, outcome, Stop(t.stop.value)))
  }

  /** What the drain infers for a transition nobody registered: only a fault of a running task. */
  function InferredFault(t: G.Transition): Option<Item> {
    if t.before == RUNNING && t.after == FAULTED then
      Some(Item(Heartbeat, t.before, t.after, Faulted, if t.stop.None? then Empty else Stop(t.stop.value)))
    else None
  }

  function ItemFor(t: G.Transition): Item {
    var (operation, outcome) := CallSite(t);
    Item(operation, t.before, t.after, outcome,
      if t.stop.Some? then Stop(t.stop.value) else if operation.StartTask? then Task(true) else Empty)
  }

  /** The call site, the inference and the schema agree: a transition the gateway can make is registered as `ItemFor`,
      an inferred fault is that very item, and the item passes the schema. */
  lemma TransitionsAreAuditable(t: G.Transition, mode: G.Mode)
    requires G.LegalMove(t, mode)
    ensures var (operation, outcome) := CallSite(t);
      Registered(t, operation, outcome, if operation.StartTask? then Task(true) else Empty) == Some(ItemFor(t))
    ensures InferredFault(t).Some? <==> t.after == FAULTED
    ensures InferredFault(t).Some? ==> InferredFault(t).value == ItemFor(t)
    ensures TransitionInTables(ItemFor(t)) && DataFits(ItemFor(t))
    ensures ItemFor(t).before == t.before && ItemFor(t).after == t.after
  {
  }

  /** A transition as a record tells it: what moved, and as what it was registered. */
  ghost predicate IsMove(t: G.Transition, mode: G.Mode, i: Item) {
    G.LegalMove(t, mode) && t.before == i.before && t.after == i.after && CallSite(t) == (i.operation, i.outcome)
  }

  /** The tables of the validator list exactly the moves a gateway can make; the rest is rejections, which move nothing. */
  lemma TablesAreTheMoves(i: Item)
    ensures TransitionInTables(i) <==>
      if i.outcome.Rejected? then i.before == i.after else exists t: G.Transition, mode: G.Mode :: IsMove(t, mode, i)
  {
    if !i.outcome.Rejected? && TransitionInTables(i) {
      var stop := if i.after in {STOPPED, FAULTED, ESTOPPED} then Some(StopResult(true, true, true, EstopLatched)) else None;
      var hardware := i.after == VALIDATED || i.before == VALIDATED;
      assert IsMove(G.Transition(0, i.before, i.after, stop), if hardware then G.Hardware else G.Simulation, i);
    }
  }
}
