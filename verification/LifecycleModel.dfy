// Loading and unloading tutorial-05/irq_demo.c: the calls of irq_demo_init, its unwind
// ladder and irq_demo_exit that start or stop a source of work, interleaved with the timer,
// the GPIO line, the regular work item and the self-rearming delayed work.
module LifecycleModel {

  datatype Op =
    | CreateWorkqueue | QueueDelayed | StartTimer | RequestIrq
    | FreeIrq | CancelTimer | CancelDelayedSync | Flush | DestroyWorkqueue

  datatype Workqueue = Absent | Alive | Destroyed

  // The callback runs from Firing (before its queue_work) through Fired to its return.
  datatype Timer = Off | Armed | Firing | Fired

  // The delayed handler: not running, before its re-queue, after it.
  datatype Body = Out | Before | After

  // Where cancel_delayed_work_sync has got to.
  datatype Chain = Unborn | Live | Cancelling | Dead

  datatype State = State(
    script: seq<Op>,      // what the module's own code has still to call
    queue: Workqueue,
    line: bool,           // the GPIO interrupt is requested
    topHalves: nat,       // GPIO top halves that have not reached queue_work
    timer: Timer,
    workPending: bool, workRunning: bool,
    delayArmed: bool, delayPending: bool, delayBody: Body,
    chain: Chain,
    fault: bool)          // something was queued without a live queue, or left in it at its end

  datatype Move =
    | Main
    | TimerFires | TimerQueues | TimerReturns
    | LineFires | LineQueues
    | WorkStarts | WorkEnds
    | DelayExpires | DelayStarts | DelayRequeues | DelayReturns

  // queue_work of the regular item.
  function QueueWork(s: State): State
  {
    if s.queue == Alive then s.(workPending := true) else s.(fault := true)
  }

  // queue_delayed_work; an item that is armed, pending or being cancelled is not queued.
  function QueueDelay(s: State): State
  {
    if s.delayArmed || s.delayPending || s.chain == Cancelling then s
    else s.(delayArmed := true, fault := s.fault || s.queue != Alive)
  }

  predicate DelayIdle(s: State) { !s.delayArmed && !s.delayPending && s.delayBody == Out }

  // The module's next call. A call that waits leaves the state as it is until it can go on;
  // a cancellation first stops the item and its re-queueing, then waits for the handler.
  function Call(s: State): State
    requires s.script != []
  {
    var s' := s.(script := s.script[1..]);
    match s.script[0]
    case CreateWorkqueue => s'.(queue := Alive)
    case QueueDelayed => QueueDelay(s').(chain := Live)
    case StartTimer => s'.(timer := Timer.Armed)
    case RequestIrq => s'.(line := true)
    case FreeIrq => if s.topHalves > 0 then s else s'.(line := false)
    case CancelTimer => if s.timer == Firing || s.timer == Fired then s else s'.(timer := Off)
    case CancelDelayedSync =>
      if s.chain == Unborn || s.chain == Dead then s'
      else if s.chain == Live then s.(chain := Cancelling, delayArmed := false, delayPending := false)
      else if s.delayBody != Out then s
      else s'.(chain := Dead)
    case Flush => if s.workPending || s.workRunning || s.delayPending || s.delayBody != Out then s else s'
    case DestroyWorkqueue =>
      s'.(queue := Destroyed, fault := s.fault || s.workPending || s.workRunning || !DelayIdle(s))
  }

  // One step of the module's code or of its environment; a move that cannot be made changes
  // nothing. An item never runs concurrently with itself, and is no longer pending when it
  // starts; the callback always restarts the timer.
  function Next(s: State, m: Move): State
  {
    match m
    case Main => if s.script == [] then s else Call(s)
    case TimerFires => if s.timer == Timer.Armed then s.(timer := Firing) else s
    case TimerQueues => if s.timer == Firing then QueueWork(s.(timer := Fired)) else s
    case TimerReturns => if s.timer == Fired then s.(timer := Timer.Armed) else s
    case LineFires => if s.line then s.(topHalves := s.topHalves + 1) else s
    case LineQueues => if s.topHalves > 0 then QueueWork(s.(topHalves := s.topHalves - 1)) else s
    case WorkStarts =>
      if s.workPending && !s.workRunning then s.(workPending := false, workRunning := true) else s
    case WorkEnds => s.(workRunning := false)
    case DelayExpires =>
      if s.delayArmed then
        s.(delayArmed := false, delayPending := true, fault := s.fault || s.queue != Alive)
      else s
    case DelayStarts =>
      if s.delayPending && s.delayBody == Out then s.(delayPending := false, delayBody := Before) else s
    case DelayRequeues => if s.delayBody == Before then QueueDelay(s.(delayBody := After)) else s
    case DelayReturns => if s.delayBody == After then s.(delayBody := Out) else s
  }

  function Exec(s: State, moves: seq<Move>): State
  {
    if moves == [] then s else Next(Exec(s, moves[..|moves| - 1]), moves[|moves| - 1])
  }

  // Before irq_demo_init, with the calls it and its counterpart are going to make.
  function Start(script: seq<Op>): State
  {
    State(script, Absent, false, 0, Off, false, false, false, false, Out, Unborn, false)
  }

  // ---- What the source calls ----

  // The labels of irq_demo_init, in the order in which control falls through them.
  datatype Label =
    | FailProcCreate | FailCdevAdd | FailDeviceCreate | FailClassCreate | FailRegisterChrdev
    | FailRequestIrq | FailGpioToIrq | FailGpioDirection | FailGpio

  // The number of labels that control still falls through.
  function Below(point: Label): nat
  {
    match point
    case FailProcCreate => 8
    case FailCdevAdd => 7
    case FailDeviceCreate => 6
    case FailClassCreate => 5
    case FailRegisterChrdev => 4
    case FailRequestIrq => 3
    case FailGpioToIrq => 2
    case FailGpioDirection => 1
    case FailGpio => 0
  }

  function Unwind(point: Label, usingGpio: bool, usingTimer: bool): seq<Op>
    decreases Below(point)
  {
    match point
    case FailProcCreate => Unwind(FailCdevAdd, usingGpio, usingTimer)
    case FailCdevAdd => Unwind(FailDeviceCreate, usingGpio, usingTimer)
    case FailDeviceCreate => Unwind(FailClassCreate, usingGpio, usingTimer)
    case FailClassCreate => Unwind(FailRegisterChrdev, usingGpio, usingTimer)
    case FailRegisterChrdev =>
      (if usingGpio then [FreeIrq] else []) + Unwind(FailRequestIrq, usingGpio, usingTimer)
    case FailRequestIrq => Unwind(FailGpioToIrq, usingGpio, usingTimer)
    case FailGpioToIrq => Unwind(FailGpioDirection, usingGpio, usingTimer)
    case FailGpioDirection => Unwind(FailGpio, usingGpio, usingTimer)
    case FailGpio =>
      (if usingTimer then [CancelTimer] else []) + [CancelDelayedSync, Flush, DestroyWorkqueue]
  }

  // The labels that only the GPIO branch jumps to.
  predicate OfGpio(point: Label)
  {
    point.FailRequestIrq? || point.FailGpioToIrq? || point.FailGpioDirection? || point.FailGpio?
  }

  // What irq_demo_init has called when it jumps to a label, or when it succeeds.
  function Setup(requested: bool, usingTimer: bool): seq<Op>
  {
    [CreateWorkqueue, QueueDelayed]
    + (if usingTimer then [StartTimer] else [])
    + (if requested then [RequestIrq] else [])
  }

  function FailedInit(point: Label, usingGpio: bool, usingTimer: bool): seq<Op>
    requires OfGpio(point) ==> usingGpio
  {
    Setup(usingGpio && !OfGpio(point), usingTimer) + Unwind(point, usingGpio, usingTimer)
  }

  function Exit(usingGpio: bool, usingTimer: bool): seq<Op>
  {
    (if usingTimer then [CancelTimer] else [])
    + [CancelDelayedSync, Flush, DestroyWorkqueue]
    + (if usingGpio then [FreeIrq] else [])
  }

  // A module that loads, lives as long as the schedule lets it, and is unloaded.
  function Life(usingGpio: bool, usingTimer: bool): seq<Op>
  {
    Setup(usingGpio, usingTimer) + Exit(usingGpio, usingTimer)
  }
}
