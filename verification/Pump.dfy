/**
  The message pump of a Claude Code process, and a browser tab's event queue,
  as interleaved steps of the goroutines around them: an unbounded queue under
  a mutex, and a wake channel of capacity one whose send never blocks.
 */
module Pump {

  /** Where the pump is: about to take the queue, handing over a batch, waiting for a wake token, or done. */
  datatype At<T> =
    | Top
    // some: the batch was not empty; exited: as seen when it was taken
    | Handing(rest: seq<T>, some: bool, exited: bool)
    | Blocked
    | Closed

  datatype State<T> = State(
    queue: seq<T>,
    wake: bool,               // the channel holds a token
    reading: bool,            // the reader still runs
    enqueued: bool,           // it appended and has yet to signal
    exited: bool,             // the exit waiter closed `done`
    exitSignaled: bool,       // ... and signaled
    pump: At<T>,
    given: seq<T>,            // everything ever enqueued
    out: seq<T>)              // everything handed to the consumer

  datatype Step<T> =
    | Enqueue(m: T) | Signal | ReaderEnds      // the reader
    | Exit | ExitSignal                        // the exit waiter, once the reader is done
    | Take | Hand | Finish | Wake              // the pump

  predicate Enabled<T>(s: State<T>, step: Step<T>) {
    match step
    case Enqueue(_) => s.reading && !s.enqueued
    case Signal => s.enqueued
    case ReaderEnds => s.reading && !s.enqueued
    case Exit => !s.reading && !s.exited
    case ExitSignal => s.exited && !s.exitSignaled
    case Take => s.pump.Top?
    case Hand => s.pump.Handing? && s.pump.rest != []
    case Finish => s.pump.Handing? && s.pump.rest == []
    case Wake => s.pump.Blocked? && s.wake
  }

  function Apply<T>(s: State<T>, step: Step<T>): State<T>
    requires Enabled(s, step)
  {
    match step
    case Enqueue(m) => s.(queue := s.queue + [m], enqueued := true, given := s.given + [m])
    case Signal => s.(wake := true, enqueued := false)
    case ReaderEnds => s.(reading := false)
    case Exit => s.(exited := true)
    case ExitSignal => s.(wake := true, exitSignaled := true)
    case Take => s.(pump := Handing(s.queue, s.queue != [], s.exited), queue := [])
    case Hand => s.(pump := s.pump.(rest := s.pump.rest[1..]), out := s.out + [s.pump.rest[0]])
    case Finish => s.(pump := if s.pump.some then Top else if s.pump.exited then Closed else Blocked)
    case Wake => s.(wake := false, pump := Top)
  }

  function Initial<T>(): State<T> { State([], false, true, false, false, false, Top, [], []) }

  function InHand<T>(p: At<T>): seq<T> { if p.Handing? then p.rest else [] }

  /** The pump found nothing and no exit, so it blocks next or already does. */
  predicate Idle<T>(p: At<T>) { p.Blocked? || (p.Handing? && !p.some && !p.exited) }

  /** Everything enqueued is handed over, in hand or waiting, in order. */
  ghost predicate Accounted<T>(given: seq<T>, out: seq<T>, hand: seq<T>, queue: seq<T>) {
    given == out + hand + queue
  }

  ghost predicate Inv<T>(s: State<T>) {
    && Accounted(s.given, s.out, InHand(s.pump), s.queue)
    && (s.enqueued ==> s.reading)
    && (s.exited ==> !s.reading)
    && (s.exitSignaled ==> s.exited)
    && (s.pump.Handing? && !s.pump.some ==> s.pump.rest == [])
    && (Idle(s.pump) && s.queue != [] ==> s.wake || s.enqueued)
    && (Idle(s.pump) && s.exited ==> s.wake || !s.exitSignaled)
    && (s.pump.Handing? && s.pump.exited ==> s.exited && s.queue == [])
    && (s.pump.Closed? ==> s.exited && s.queue == [])
  }

  lemma Accounting<T>(given: seq<T>, out: seq<T>, hand: seq<T>, queue: seq<T>, m: T)
    requires Accounted(given, out, hand, queue)
    ensures Accounted(given + [m], out, hand, queue + [m])
    ensures hand == [] ==> Accounted(given, out, queue, [])
    ensures hand != [] ==> Accounted(given, out + [hand[0]], hand[1..], queue)
  {
    assert (out + hand + queue) + [m] == out + hand + (queue + [m]);
    if hand != [] {
      assert hand == [hand[0]] + hand[1..];
    }
  }

  lemma StepKeeps<T>(s: State<T>, step: Step<T>)
    requires Inv(s) && Enabled(s, step)
    ensures Inv(Apply(s, step))
  {
    hide Accounted;
    match step
    case Enqueue(m) => Accounting(s.given, s.out, InHand(s.pump), s.queue, m);
    case Take => if s.queue != [] { Accounting(s.given, s.out, InHand(s.pump), s.queue, s.queue[0]); }
    case Hand => Accounting(s.given, s.out, InHand(s.pump), s.queue, s.pump.rest[0]);
    case _ =>
  }

  ghost predicate IsRun<T>(run: seq<State<T>>, steps: seq<Step<T>>) {
    && |run| == |steps| + 1 && run[0] == Initial()
    && (forall i :: 0 <= i < |steps| ==> Enabled(run[i], steps[i]) && run[i + 1] == Apply(run[i], steps[i]))
  }

  lemma {:induction false} EveryRunIsSafe<T>(run: seq<State<T>>, steps: seq<Step<T>>, k: nat)
    requires IsRun(run, steps) && k < |run|
    ensures Inv(run[k])
  {
    if k > 0 {
      EveryRunIsSafe(run, steps, k - 1);
      StepKeeps(run[k - 1], steps[k - 1]);
    }
  }

  /** No wakeup is lost: a pump blocked without a token has nothing to do, or someone is about to signal. */
  lemma NoLostWakeup<T>(run: seq<State<T>>, steps: seq<Step<T>>, k: nat)
    requires IsRun(run, steps) && k < |run| && run[k].pump.Blocked? && !run[k].wake
    ensures run[k].queue == [] || Enabled(run[k], Signal)
    ensures !run[k].exited || Enabled(run[k], ExitSignal)
  {
    EveryRunIsSafe(run, steps, k);
  }

  /**
    What was handed over is always a prefix of what was enqueued; once the channel
    closes, after the exit, it is all of it.
   */
  lemma ExactlyOnceInOrder<T>(run: seq<State<T>>, steps: seq<Step<T>>, k: nat)
    requires IsRun(run, steps) && k < |run|
    ensures run[k].out <= run[k].given
    ensures run[k].pump.Closed? ==> run[k].exited && !run[k].reading && run[k].out == run[k].given
  {
    EveryRunIsSafe(run, steps, k);
    var s := run[k];
    assert s.given == s.out + (InHand(s.pump) + s.queue);
  }

  predicate IsPump<T>(step: Step<T>) { step.Take? || step.Hand? || step.Finish? || step.Wake? }

  /** How far the pump has to go once nothing else happens. */
  function Left<T>(s: State<T>): nat {
    8 * (2 * |s.queue| + |InHand(s.pump)|) + (if s.wake then 4 else 0)
    + match s.pump
      case Top => 2
      case Handing(_, some, _) => if some then 3 else 1
      case _ => 0
  }

  /** Once the process is gone the pump never sticks, and every step of it brings the close nearer. */
  lemma ThePumpFinishes<T>(s: State<T>)
    requires Inv(s) && s.exitSignaled && !s.pump.Closed?
    ensures exists step: Step<T> :: IsPump(step) && Enabled(s, step)
    ensures forall step: Step<T> :: IsPump(step) && Enabled(s, step) ==> Left(Apply(s, step)) < Left(s)
  {
    match s.pump
    case Top => assert IsPump<T>(Take) && Enabled(s, Take);
    case Blocked => assert IsPump<T>(Wake) && Enabled(s, Wake);
    case Handing(rest, _, _) =>
      if rest == [] {
        assert IsPump<T>(Finish) && Enabled(s, Finish);
      } else {
        assert IsPump<T>(Hand) && Enabled(s, Hand);
      }
  }
}

/** The tab's event queue: any number of producers push, one consumer pops one event at a time. */
module EventQueue {
  datatype State<T> = State(
    items: seq<T>,
    signal: bool,       // the channel holds a token
    pushing: nat,       // producers that appended and have yet to signal
    blocked: bool,      // the consumer found nothing and waits
    canceled: bool,     // the consumer's context is over
    left: bool,         // the consumer gave up on it
    given: seq<T>,
    popped: seq<T>)

  datatype Step<T> = Append(e: T) | Signal | Look | Wake | Cancel | Leave

  predicate Enabled<T>(s: State<T>, step: Step<T>) {
    match step
    case Append(_) => true
    case Signal => s.pushing > 0
    case Look => !s.blocked && !s.left
    case Wake => s.blocked && s.signal
    case Cancel => true
    case Leave => s.blocked && s.canceled
  }

  /** Looking takes the first event, or blocks if there is none. */
  function Apply<T>(s: State<T>, step: Step<T>): State<T>
    requires Enabled(s, step)
  {
    match step
    case Append(e) => s.(items := s.items + [e], pushing := s.pushing + 1, given := s.given + [e])
    case Signal => s.(signal := true, pushing := s.pushing - 1)
    case Look =>
      if s.items == [] then s.(blocked := true)
      else s.(items := s.items[1..], popped := s.popped + [s.items[0]])
    case Wake => s.(blocked := false, signal := false)
    case Cancel => s.(canceled := true)
    case Leave => s.(blocked := false, left := true)
  }

  function Initial<T>(): State<T> { State([], false, 0, false, false, false, [], []) }

  ghost predicate Inv<T>(s: State<T>) {
    && s.given == s.popped + s.items && (s.blocked && s.items != [] ==> s.signal || s.pushing > 0)
    && (s.left ==> s.canceled)
  }

  lemma StepKeeps<T>(s: State<T>, step: Step<T>)
    requires Inv(s) && Enabled(s, step)
    ensures Inv(Apply(s, step))
  {
    if step.Look? && s.items != [] {
      assert s.items == [s.items[0]] + s.items[1..];
    }
  }

  ghost predicate IsRun<T>(run: seq<State<T>>, steps: seq<Step<T>>) {
    && |run| == |steps| + 1 && run[0] == Initial()
    && (forall i :: 0 <= i < |steps| ==> Enabled(run[i], steps[i]) && run[i + 1] == Apply(run[i], steps[i]))
  }

  /** Once its context is over a consumer that waits can leave, and one that left takes nothing more. */
  lemma ConsumersLeaveWhenDone<T>(s: State<T>, step: Step<T>)
    requires Inv(s) && Enabled(s, step)
    ensures var t := Apply(s, step);
            && (t.canceled <==> s.canceled || step.Cancel?)
            && (t.left <==> s.left || step.Leave?)
            && (t.canceled && t.blocked ==> Enabled(t, Leave))
            && (s.left ==> t.popped == s.popped)
  {
  }

  /**
    In every run events are popped once, in order, and a blocked consumer has a
    token or a producer about to leave one whenever there is an event. Until its
    context is over, the consumer is there for all of them.
   */
  lemma {:induction false} EveryRunIsSafe<T>(run: seq<State<T>>, steps: seq<Step<T>>, k: nat)
    requires IsRun(run, steps) && k < |run|
    ensures Inv(run[k])
    ensures run[k].popped <= run[k].given
    ensures run[k].blocked && run[k].items != [] ==> Enabled(run[k], Wake) || Enabled(run[k], Signal)
    ensures !run[k].canceled && run[k].items != [] && run[k].pushing == 0 ==>
        Enabled(run[k], Look) || Enabled(run[k], Wake)
  {
    if k > 0 {
      EveryRunIsSafe(run, steps, k - 1);
      StepKeeps(run[k - 1], steps[k - 1]);
    }
  }
}
