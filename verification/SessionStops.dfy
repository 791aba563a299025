/**
  The user's stop: whatever the process still says, and however its turn ends,
  the turn is recorded as interrupted and its thread is not marked done.
 */
module SessionStops {
  import opened Wrappers
  import opened Messages
  import opened SessionLog
  import opened SessionModel
  import opened SessionSafety
  import opened SessionRuns
  import opened SessionLaws

  /** The first end of a turn from position p on is at q. */
  ghost predicate EndsAt(log: seq<Event>, p: int, q: int) {
    0 <= p <= q < |log| && log[q].TurnEnded? && forall i :: p <= i < q ==> !log[i].TurnEnded?
  }

  ghost predicate NoEnd(log: seq<Event>, p: int) {
    forall i :: 0 <= p <= i < |log| ==> !log[i].TurnEnded?
  }

  /** The turn that ran at position p still does, stopped; or its end reads so. */
  ghost predicate Stopped(s: State, p: int) {
    && 0 <= p <= |s.past.log|
    && ((NoEnd(s.past.log, p) && s.turn.active && s.turn.interrupted)
        || exists q :: EndsAt(s.past.log, p, q) && s.past.log[q] == TurnEnded(Interrupted, Plain))
  }

  /** What a step adds to the record of a stopped turn: no end, and the turn runs on stopped; or its end. */
  ghost predicate StopsRight(added: seq<Event>, turn: Turn) {
    || (NoEnd(added, 0) && turn.active && turn.interrupted)
    || exists q :: EndsAt(added, 0, q) && added[q] == TurnEnded(Interrupted, Plain)
  }

  lemma StoppedStep(s: State, t: State, p: int)
    requires Stopped(s, p) && s.past.log <= t.past.log
    requires s.turn.active && s.turn.interrupted ==> StopsRight(t.past.log[|s.past.log|..], t.turn)
    ensures Stopped(t, p)
  {
    var n := |s.past.log|;
    var added := t.past.log[n..];
    assert forall i :: 0 <= i < |added| ==> added[i] == t.past.log[n + i];
    if q :| EndsAt(s.past.log, p, q) && s.past.log[q] == TurnEnded(Interrupted, Plain) {
      assert EndsAt(t.past.log, p, q);
    } else if q :| EndsAt(added, 0, q) && added[q] == TurnEnded(Interrupted, Plain) {
      assert forall i :: n <= i < n + q ==> t.past.log[i] == added[i - n];
      assert EndsAt(t.past.log, p, n + q);
    } else {
      assert forall i :: n <= i < |t.past.log| ==> t.past.log[i] == added[i - n];
    }
  }

  lemma HasStops(s: State, t: State, x: Effect, p: int)
    requires Stopped(s, p) && Has(s, t, x) && (s.turn.active && s.turn.interrupted ==> StopsRight(x.log, x.turn))
    ensures Stopped(t, p)
  {
    hide Stopped, StopsRight;
    assert t.past.log[|s.past.log|..] == x.log;
    StoppedStep(s, t, p);
  }

  lemma UnmovedStops(s: State, t: State, p: int)
    requires Stopped(s, p) && Unmoved(s, t)
    ensures Stopped(t, p)
  {
    HasStops(s, t, Nothing(s), p);
  }

  lemma NoteStops(s: State, e: Event, p: int)
    requires Stopped(s, p) && !e.TurnEnded?
    ensures Stopped(Emit(s, e), p)
  {
    hide Stopped, Emit;
    EmitDoes(s, e);
    HasStops(s, Emit(s, e), Effect([e], [], s.held, s.turn), p);
  }

  // No action between messages ends a turn, or takes the stop back.
  lemma ActionsStop(s: State, a: Action, e: Env)
    requires s.turn.active && s.turn.interrupted
    requires !a.MessageAction? && !a.ExitAction? && !a.RestartAction? && !a.RewindAction?
    requires s.signIn.refreshRetry.None?
    ensures StopsRight(EffectOf(s, a, e).log, EffectOf(s, a, e).turn)
  {
  }

  lemma {:induction false} CancelsEndNothing(order: seq<string>)
    ensures NoEnd(Cancels(order), 0)
  {
    if order != [] {
      CancelsEndNothing(order[..|order| - 1]);
    }
  }

  lemma {:induction false} BlocksEndNothing(content: seq<Content>)
    ensures NoEnd(BlocksShow(content), 0)
  {
    if content != [] {
      BlocksEndNothing(content[..|content| - 1]);
    }
  }

  // A result of a stopped turn, and its exit, read as a stop.
  lemma EndStops(order: seq<string>, rest: seq<Event>, turn: Turn)
    ensures StopsRight(Cancels(order) + [TurnEnded(Interrupted, Plain)] + rest, turn)
  {
    CancelsEndNothing(order);
    hide Cancels;
    assert EndsAt(Cancels(order) + [TurnEnded(Interrupted, Plain)] + rest, 0, |Cancels(order)|);
  }

  lemma MessagesStop(s: State, m: Message, order: seq<string>)
    requires s.turn.active && s.turn.interrupted
    ensures StopsRight(MessageShows(s, m, order), TurnAfter(s.turn, m))
  {
    match m
    case Assistant(_, content, _) => BlocksEndNothing(content);
    case Result(ok, full, _) =>
      EndStops(order, [], TurnAfter(s.turn, m));
      assert MessageShows(s, m, order) == Cancels(order) + [TurnEnded(Interrupted, Plain)] + [];
    case _ =>
  }

  lemma AlikeStops(a: seq<Event>, b: seq<Event>, turn: Turn)
    requires Alike(a, b) && StopsRight(b, turn)
    ensures StopsRight(a, turn)
  {
    assert forall i :: 0 <= i < |a| ==> (a[i].TurnEnded? <==> b[i].TurnEnded?) && (a[i].TurnEnded? ==> a[i] == b[i]);
    if q :| EndsAt(b, 0, q) && b[q] == TurnEnded(Interrupted, Plain) {
      assert EndsAt(a, 0, q);
    }
  }

  lemma MessageStops(s: State, m: Message, order: seq<string>, stale: bool, p: int)
    requires Fits(s, m, order) && Stopped(s, p)
    ensures Stopped(HandleMessage(s, m, order, stale), p)
  {
    hide Stopped, StopsRight, Alike, HandleMessage, MessageShows, TurnAfter, Lists;
    var t := HandleMessage(s, m, order, stale);
    MessagesDo(s, m, order, stale);
    if s.turn.active && s.turn.interrupted {
      MessagesStop(s, m, order);
      AlikeStops(t.past.log[|s.past.log|..], MessageShows(s, m, order), t.turn);
    }
    StoppedStep(s, t, p);
  }

  lemma ExitStops(s: State, order: seq<string>, err: bool, p: int)
    requires Inv(s) && s.proc && Lists(order, s.asking.pending) && Stopped(s, p)
    ensures Stopped(OnExit(s, order, err), p)
  {
    hide Inv, Stopped, StopsRight, OnExit, Lists, Cancels;
    ExitsDo(s, order, err);
    var t := OnExit(s, order, err);
    var log := if !s.turn.active then []
        else Cancels(order) + [TurnEnded(if Expected(s) then Interrupted else Errored, Plain)];
    if s.turn.active && s.turn.interrupted {
      EndStops(order, [], t.turn);
      assert log + [] == log;
    }
    HasStops(s, t, Effect(log, [], s.held, t.turn), p);
  }

  lemma {:induction false} DrainStops(s: State, last: seq<Input>, p: int)
    requires Inv(s) && s.proc && FitsAll(s, last) && Stopped(s, p)
    ensures Stopped(Drain(s, last), p)
    decreases |last|
  {
    hide Inv, Stopped, HandleMessage, Fits;
    if last != [] {
      var before, i := last[..|last| - 1], last[|last| - 1];
      DrainStops(s, before, p);
      DrainKeeps(s, before);
      MessageStops(Drain(s, before), i.m, i.order, i.stale, p);
    }
  }

  lemma CloseDoes(s: State)
    ensures Unmoved(s, CloseProc(s))
  {
    Same(s);
  }

  lemma ProcStops(s: State, end: Ending, p: int)
    requires Inv(s) && s.proc && Ends(s, end) && Stopped(s, p)
    ensures Stopped(StopProc(s, end), p)
  {
    hide Inv, Stopped, Drain, OnExit, FitsAll, Lists, CloseProc;
    EndsAre(s, end);
    ClosingKeeps(s);
    CloseDoes(s);
    UnmovedStops(s, CloseProc(s), p);
    DrainStops(CloseProc(s), end.last, p);
    DrainKeeps(CloseProc(s), end.last);
    ExitStops(Drain(CloseProc(s), end.last), end.order, end.err, p);
  }

  lemma RestartStops(s: State, end: Ending, e: Env, p: int)
    requires Inv(s) && (s.proc ==> Ends(s, end)) && Stopped(s, p)
    ensures Stopped(Changed(Restart(s, end, e), e.stale), p)
  {
    hide Inv, Stopped, StopProc, EnsureProc, Emit, Changed, Ends, Has;
    if s.proc {
      ProcStops(s, end, p);
    }
    var s1 := if s.proc then StopProc(s, end) else s;
    StartDoes(s1, e.start);
    UnmovedStops(s1, EnsureProc(s1, e.start), p);
    NoteStops(EnsureProc(s1, e.start), Notice, p);
    ChangedDoes(Restart(s, end, e), e.stale);
    UnmovedStops(Restart(s, end, e), Changed(Restart(s, end, e), e.stale), p);
  }

  lemma RewindStops(s: State, w: Rewinding, end: Ending, e: Env, p: int)
    requires Inv(s) && (Restoring(s, w, e).proc ==> Ends(Restoring(s, w, e), end)) && Stopped(s, p)
    ensures Stopped(Changed(Rewind(s, w, end, e), e.stale), p)
  {
    hide Inv, Stopped, StopProc, EnsureProc, Emit, Changed, Ends, Has;
    StartKeeps(s, e.start);
    var s1 := Restoring(s, w, e);
    StartDoes(s, e.start);
    UnmovedStops(s, EnsureProc(s, e.start), p);
    if s1.proc {
      ProcStops(s1, end, p);
    }
    var s2 := if s1.proc then StopProc(s1, end) else s1;
    NoteStops(s2, Rewound, p);
    ChangedDoes(Rewind(s, w, end, e), e.stale);
    UnmovedStops(Rewind(s, w, end, e), Changed(Rewind(s, w, end, e), e.stale), p);
  }

  lemma ApplyStops(s: State, a: Action, e: Env, p: int)
    requires Inv(s) && Enabled(s, a, e) && Stopped(s, p)
    ensures Stopped(Apply(s, a, e), p)
  {
    match a
    case MessageAction(m, order) => MessageStops(s, m, order, e.stale, p);
    case ExitAction(order, err) => ExitStops(s, order, err, p);
    case RestartAction(end) => RestartStops(s, end, e, p);
    case RewindAction(w, end) => RewindStops(s, w, end, e, p);
    case _ => OthersStop(s, a, e, p);
  }

  lemma OthersStop(s: State, a: Action, e: Env, p: int)
    requires Inv(s) && Enabled(s, a, e) && Stopped(s, p)
    requires !a.MessageAction? && !a.ExitAction? && !a.RestartAction? && !a.RewindAction?
    ensures Stopped(Apply(s, a, e), p)
  {
    hide Inv, Apply, Enabled, Stopped, StopsRight, EffectOf;
    ActionsDo(s, a, e);
    TurnsHaveProcesses(s);
    if s.turn.active && s.turn.interrupted {
      ActionsStop(s, a, e);
    }
    HasStops(s, Apply(s, a, e), EffectOf(s, a, e), p);
  }

  // --- every run -----------------------------------------------------------------------------

  lemma StopBegins(s: State, taken: bool, e: Env)
    requires Inv(s) && s.turn.active
    ensures Stopped(Apply(s, InterruptAction(taken), e), |s.past.log|)
  {
    hide Inv, Apply;
    ActionsDo(s, InterruptAction(taken), e);
  }

  lemma {:induction false} StoppedSince(run: seq<State>, steps: seq<(Action, Env)>, i: nat, j: nat)
    requires IsRun(run, steps) && i < j < |run| && steps[i].0.InterruptAction? && run[i].turn.active
    ensures Stopped(run[j], |run[i].past.log|)
    decreases j
  {
    hide Inv, Apply, Enabled, Stopped;
    SessionRuns.EveryRunIsSafe(run, steps, j - 1);
    if i + 1 == j {
      StopBegins(run[i], steps[i].0.taken, steps[i].1);
    } else {
      StoppedSince(run, steps, i, j - 1);
      ApplyStops(run[j - 1], steps[j - 1].0, steps[j - 1].1, |run[i].past.log|);
    }
  }

  lemma RecordIsOrderly(s: State)
    requires Inv(s)
    ensures Scan(s.past.log).Turns?
  {
  }

  // After an end that earned nothing, a mark needs another turn, in which it was asked for.
  lemma DoneNeedsATurn(log: seq<Event>, q: int, d: int)
    requires Scan(log).Turns? && 0 <= q < d < |log| && log[d] == Done(true)
    requires log[q] == TurnEnded(Interrupted, Plain)
    ensures exists k :: q < k < d && log[k] == TurnStarted
  {
    var w := DoneIsEarned(log, d);
    ScanAt(log, w);
    ActiveSinceTheLastStart(log[..w]);
    var k :| 0 <= k < w && log[..w][k].TurnStarted? && Steady(log[..w], k);
    assert q < d - 1 ==> log[..d - 1][q] == log[q];
    assert q < w ==> log[..w][q] == log[q];
    hide Scan;
  }

  /**
    In every run: if the user stops while a turn runs, then from there on the
    first end in the record is that of an interrupted turn, whatever brought it
    (a result, an exit, a restart, the last words of a closing process), and
    until then the turn runs. It does not mark the thread done: no such mark
    comes before the next turn starts.
   */
  lemma AStoppedTurnEndsStopped(run: seq<State>, steps: seq<(Action, Env)>, i: nat, j: nat)
    requires IsRun(run, steps) && i < j < |run| && steps[i].0.InterruptAction? && run[i].turn.active
    ensures var p, log := |run[i].past.log|, run[j].past.log;
            && p <= |log|
            && (NoEnd(log, p) ==> run[j].turn.active)
            && (forall q :: EndsAt(log, p, q) ==> log[q] == TurnEnded(Interrupted, Plain))
            && (forall q, d :: EndsAt(log, p, q) && q < d < |log| && log[d] == Done(true) ==>
                  exists k :: q < k < d && log[k] == TurnStarted)
  {
    StoppedSince(run, steps, i, j);
    SessionRuns.EveryRunIsSafe(run, steps, j);
    RecordIsOrderly(run[j]);
    hide Inv, Scan;
    var p, log := |run[i].past.log|, run[j].past.log;
    forall q, d | EndsAt(log, p, q) && q < d < |log| && log[d] == Done(true)
      ensures exists k :: q < k < d && log[k] == TurnStarted
    {
      DoneNeedsATurn(log, q, d);
    }
  }
}
