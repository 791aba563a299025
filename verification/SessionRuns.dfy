/**
  What a session promises over whole runs: its record is orderly, process
  events are never lost or told twice, the status is exact, and neither the
  idle timer nor a retry ever disturbs a turn.
 */
module SessionRuns {
  import opened Wrappers
  import opened Messages
  import opened SessionLog
  import opened SessionModel
  import opened SessionSafety

  // --- a closing process --------------------------------------------------------------

  /** Each of the closing process's last messages is one its handler can rely on. */
  ghost predicate FitsAll(s: State, last: seq<Input>)
    decreases |last|
  {
    last == [] ||
    (FitsAll(s, last[..|last| - 1]) && Fits(Drain(s, last[..|last| - 1]), last[|last| - 1].m, last[|last| - 1].order))
  }

  ghost predicate Ends(s: State, end: Ending) {
    FitsAll(CloseProc(s), end.last) && Lists(end.order, Drain(CloseProc(s), end.last).asking.pending)
  }

  lemma EndsAre(s: State, end: Ending)
    requires Ends(s, end)
    ensures FitsAll(CloseProc(s), end.last) && Lists(end.order, Drain(CloseProc(s), end.last).asking.pending)
  {
  }

  lemma {:induction false} FitsAllAt(s: State, last: seq<Input>, i: nat)
    requires FitsAll(s, last) && i < |last|
    ensures Fits(Drain(s, last[..i]), last[i].m, last[i].order)
    decreases |last|
  {
    hide HandleMessage, Fits;
    if i < |last| - 1 {
      assert last[..|last| - 1][..i] == last[..i];
      FitsAllAt(s, last[..|last| - 1], i);
    }
  }

  lemma {:induction false} DrainKeeps(s: State, last: seq<Input>)
    requires Inv(s) && s.proc && FitsAll(s, last)
    ensures Inv(Drain(s, last))
    decreases |last|
  {
    if last != [] {
      hide Inv, HandleMessage, Fits;
      var i := last[|last| - 1];
      DrainKeeps(s, last[..|last| - 1]);
      MessageKeeps(Drain(s, last[..|last| - 1]), i.m, i.order, i.stale);
    }
  }

  lemma ClosingKeeps(s: State)
    requires Inv(s) && s.proc
    ensures Inv(CloseProc(s)) && CloseProc(s).proc
  {
    hide Listed, Recorded, Conserved;
  }

  lemma StopKeeps(s: State, end: Ending)
    requires Inv(s) && s.proc && Ends(s, end)
    ensures var t := StopProc(s, end); Inv(t) && !t.proc && !t.turn.active && t.live.streaming == []
  {
    hide Inv, Drain, OnExit, FitsAll, Lists, CloseProc;
    ClosingKeeps(s);
    DrainKeeps(CloseProc(s), end.last);
    ExitKeeps(Drain(CloseProc(s), end.last), end.order, end.err);
  }

  lemma NothingWaits(s: State)
    requires Inv(s) && !s.turn.active
    ensures s.asking.pending == map[]
  {
    hide Listed, Recorded, Conserved;
  }

  lemma StartKeeps(s: State, start: Start)
    requires Inv(s)
    ensures Inv(EnsureProc(s, start)) && EnsureProc(s, start).turn.active == s.turn.active
  {
    hide EnsureProc, Ready, Exact;
    TurnsHaveProcesses(s);
    EnsureProcKeeps(s, start);
  }

  lemma EmitInv(s: State, e: Event)
    requires Inv(s) && Neutral(e)
    ensures Inv(Emit(s, e))
  {
    hide Listed, Recorded, Conserved;
    EmitKeeps(s, e);
  }

  lemma RestartKeeps(s: State, end: Ending, e: Env)
    requires Inv(s) && (s.proc ==> Ends(s, end))
    ensures Inv(Changed(Restart(s, end, e), e.stale))
  {
    hide StopProc, Ends, Inv, EnsureProc, Changed, Emit;
    if s.proc {
      StopKeeps(s, end);
    }
    var s1 := if s.proc then StopProc(s, end) else s;
    StartKeeps(s1, e.start);
    EmitInv(EnsureProc(s1, e.start), Notice);
    InterruptKeeps(Restart(s, end, e), true, e.stale);
  }

  /** The session a rewind stops: restoring files may first start the process. */
  function Restoring(s: State, w: Rewinding, e: Env): State {
    if w.files then EnsureProc(s, e.start) else s
  }

  lemma RewindKeeps(s: State, w: Rewinding, end: Ending, e: Env)
    requires Inv(s)
    requires Restoring(s, w, e).proc ==> Ends(Restoring(s, w, e), end)
    ensures Inv(Changed(Rewind(s, w, end, e), e.stale))
  {
    hide StopProc, Ends, Inv, EnsureProc, Changed, Emit;
    StartKeeps(s, e.start);
    var s1 := Restoring(s, w, e);
    if s1.proc {
      StopKeeps(s1, end);
    }
    var s2 := if s1.proc then StopProc(s1, end) else s1;
    EmitInv(s2, Rewound);
    InterruptKeeps(Rewind(s, w, end, e), true, e.stale);
  }

  // --- every run --------------------------------------------------------------------------

  datatype Action =
    | SendAction(text: string, files: nat, resolves: bool, readable: bool)
    | InterruptAction(taken: bool)
    | RestartAction(end: Ending)
    | RespondAction(req: string, choice: Option<Choice>, taken: bool)
    | RewindAction(w: Rewinding, end: Ending)
    | SettingAction               // any other request: the turn does not depend on it
    | MarkDoneAction
    | EventAction(prompt: string, wake: bool)
    | ContinueAction
    | RetryAction(t: Timer)       // a retry's timer fires, perhaps one canceled meanwhile
    | IdleAction
    | MessageAction(m: Message, order: seq<string>)
    | ExitAction(order: seq<string>, err: bool)

  /** The actions a client asks for, after each of which the state is pushed. */
  predicate IsRequest(a: Action) {
    a.SendAction? || a.InterruptAction? || a.RestartAction? || a.RespondAction? || a.RewindAction? || a.SettingAction?
  }

  ghost predicate Enabled(s: State, a: Action, e: Env) {
    match a
    case RestartAction(end) => s.proc ==> Ends(s, end)
    case RewindAction(w, end) => Restoring(s, w, e).proc ==> Ends(Restoring(s, w, e), end)
    case IdleAction => s.idle
    case MessageAction(m, order) => s.proc && Fits(s, m, order)
    case ExitAction(order, _) => s.proc && Lists(order, s.asking.pending)
    case _ => true
  }

  function Apply(s: State, a: Action, e: Env): State {
    match a
    case SendAction(text, files, resolves, readable) => UserSend(s, text, files, resolves, readable, e)
    case InterruptAction(taken) => Changed(Interrupt(s, taken), e.stale)
    case RestartAction(end) => Changed(Restart(s, end, e), e.stale)
    case RespondAction(req, choice, taken) => Changed(Respond(s, req, choice, taken), e.stale)
    case RewindAction(w, end) => Changed(Rewind(s, w, end, e), e.stale)
    case SettingAction => Changed(s, e.stale)
    case MarkDoneAction => MarkDone(s)
    case EventAction(prompt, wake) => ProcessEvent(s, prompt, wake, e)
    case ContinueAction => ContinueTurn(s, e)
    case RetryAction(t) => RetryFired(s, t, e)
    case IdleAction => IdleFired(s)
    case MessageAction(m, order) => HandleMessage(s, m, order, e.stale)
    case ExitAction(order, err) => OnExit(s, order, err)
  }

  lemma ApplyKeeps(s: State, a: Action, e: Env)
    requires Inv(s) && Enabled(s, a, e)
    ensures Inv(Apply(s, a, e))
  {
    hide Inv, UserSend, Changed, Interrupt, Restart, Respond, Rewind, MarkDone, ProcessEvent, ContinueTurn, RetryFired,
         IdleFired, HandleMessage, OnExit, Ends, Fits, Lists, Restoring;
    match a
    case SendAction(text, files, resolves, readable) => UserSendKeeps(s, text, files, resolves, readable, e);
    case InterruptAction(taken) => InterruptKeeps(s, taken, e.stale);
    case RestartAction(end) => RestartKeeps(s, end, e);
    case RespondAction(req, choice, taken) => RespondKeeps(s, req, choice, taken, e.stale);
    case RewindAction(w, end) => RewindKeeps(s, w, end, e);
    case SettingAction => InterruptKeeps(s, true, e.stale);
    case MarkDoneAction => MarkDoneKeeps(s);
    case EventAction(prompt, wake) => ProcessEventKeeps(s, prompt, wake, e);
    case ContinueAction => ContinueTurnKeeps(s, e);
    case RetryAction(t) => RetryFiredKeeps(s, t, e);
    case IdleAction => IdleFiredKeeps(s);
    case MessageAction(m, order) => MessageKeeps(s, m, order, e.stale);
    case ExitAction(order, err) => ExitKeeps(s, order, err);
  }

  /** `run` is the states of a session from its creation on, taking `steps`. */
  ghost predicate IsRun(run: seq<State>, steps: seq<(Action, Env)>) {
    && |run| == |steps| + 1
    && (run[0] == Initial(false) || run[0] == Initial(true))
    && (forall i :: 0 <= i < |steps| ==>
          Enabled(run[i], steps[i].0, steps[i].1) && run[i + 1] == Apply(run[i], steps[i].0, steps[i].1))
  }

  lemma InitialIsSafe(foreign: bool)
    ensures Inv(Initial(foreign))
  {
    assert Scan([]) == Turns(false, {}, {}, false, false);
  }

  /** Whatever happens, in whatever order, the invariant holds at every handler boundary. */
  lemma {:induction false} EveryRunIsSafe(run: seq<State>, steps: seq<(Action, Env)>, k: nat)
    requires IsRun(run, steps) && k < |run|
    ensures Inv(run[k])
  {
    hide Inv, Apply, Enabled;
    if k > 0 {
      EveryRunIsSafe(run, steps, k - 1);
      ApplyKeeps(run[k - 1], steps[k - 1].0, steps[k - 1].1);
    } else {
      InitialIsSafe(false);
      InitialIsSafe(true);
    }
  }

  // --- what follows ---------------------------------------------------------------------------

  /**
    At every boundary of every run, a turn and a waiting request have their
    process, and no handler used a missing one.
   */
  lemma NoProcessIsMissing(run: seq<State>, steps: seq<(Action, Env)>, k: nat, req: string)
    requires IsRun(run, steps) && k < |run|
    ensures !run[k].past.crashed && (run[k].turn.active ==> run[k].proc)
    ensures req in run[k].asking.pending <==> req in run[k].asking.shown
    ensures req in run[k].asking.pending ==> run[k].turn.active
  {
    EveryRunIsSafe(run, steps, k);
    hide Recorded, Conserved;
  }

  /**
    No turn starts inside a turn, from whichever handler, and a turn is active
    exactly when a start is the last turn event.
   */
  lemma TurnsNeverNest(run: seq<State>, steps: seq<(Action, Env)>, k: nat, i: nat, j: nat)
    requires IsRun(run, steps) && k < |run|
    requires i < j < |run[k].past.log| && run[k].past.log[i].TurnStarted? && run[k].past.log[j].TurnStarted?
    ensures exists e :: i < e < j && run[k].past.log[e].TurnEnded?
  {
    EveryRunIsSafe(run, steps, k);
    TurnsAlternate(run[k].past.log, i, j);
  }

  lemma ActiveMeansStarted(run: seq<State>, steps: seq<(Action, Env)>, k: nat)
    requires IsRun(run, steps) && k < |run|
    ensures var log := run[k].past.log;
            run[k].turn.active <==> exists j :: 0 <= j < |log| && log[j].TurnStarted? && Steady(log, j)
  {
    EveryRunIsSafe(run, steps, k);
    ActiveSinceTheLastStart(run[k].past.log);
  }

  /**
    Every permission request gets exactly one outcome, no later than the end of
    its turn: a request without one yet is still waiting, and at every turn's
    end none is.
   */
  lemma PermissionsGetOneOutcome(run: seq<State>, steps: seq<(Action, Env)>, k: nat, i: nat, req: string)
    requires IsRun(run, steps) && k < |run|
    ensures var log := run[k].past.log;
            && Outcomes(log, req) <= Asks(log, req) <= 1
            && (req in run[k].asking.pending <==> Asks(log, req) == 1 && Outcomes(log, req) == 0)
            && (i < |log| && log[i].TurnEnded? ==> Outcomes(log[..i], req) == Asks(log[..i], req))
  {
    EveryRunIsSafe(run, steps, k);
    OpenIsUnanswered(run[k].past.log, req);
    if i < |run[k].past.log| {
      OutcomesByTheEnd(run[k].past.log, i, req);
    }
  }

  /**
    A turn's end marks the thread done only if the agent asked in that turn,
    nobody prompted since, and it completed.
   */
  lemma DoneIsEarnedInEveryRun(run: seq<State>, steps: seq<(Action, Env)>, k: nat, i: nat) returns (j: nat)
    requires IsRun(run, steps) && k < |run| && i < |run[k].past.log| && run[k].past.log[i] == Done(true)
    ensures var log := run[k].past.log;
            && j + 1 < i && log[j] == DoneWanted && Undisturbed(log[..i - 1], j)
            && log[i - 1].TurnEnded? && log[i - 1].result == Completed
  {
    EveryRunIsSafe(run, steps, k);
    j := DoneIsEarned(run[k].past.log, i);
  }

  /** And whenever the agent asked in a turn, nobody prompted since, and it completed, the thread is marked at once. */
  lemma EarnedIsMarkedInEveryRun(run: seq<State>, steps: seq<(Action, Env)>, k: nat, j: nat, i: nat)
    requires IsRun(run, steps) && k < |run| && j < i < |run[k].past.log|
    requires var log := run[k].past.log;
             && log[j] == DoneWanted && Undisturbed(log[..i], j)
             && log[i].TurnEnded? && log[i].result == Completed
    ensures i + 1 < |run[k].past.log| && run[k].past.log[i + 1] == Done(true)
  {
    EveryRunIsSafe(run, steps, k);
    EarnedIsMarked(run[k].past.log, j, i);
  }

  /**
    Every process event is in exactly one place, still held or carried by one
    message the process took; a failed start or send loses none and repeats
    none; and the held ones keep their order of arrival.
   */
  lemma EventsAreConserved(run: seq<State>, steps: seq<(Action, Env)>, k: nat)
    requires IsRun(run, steps) && k < |run|
    ensures multiset(run[k].past.given) == multiset(run[k].held) + multiset(Carried(run[k].past.sent))
    ensures Subsequence(run[k].held, run[k].past.given)
  {
    EveryRunIsSafe(run, steps, k);
  }

  lemma SendToIs(s: State, text: string, recap: bool, e: Env)
    requires s.proc
    ensures var t := SendTo(s, text, recap, e);
            && (e.sendOk ==> t.past.sent == s.past.sent + [Sent(UserText(text), if recap then [] else s.held)])
            && (!e.sendOk ==> t.past.sent == s.past.sent && t.held == s.held)
  {
    hide Joined, Silent;
  }

  /**
    A /recap is said to carry no process events, and one that starts its own
    turn does not. One sent during a turn does: it carries held events exactly
    when a turn is active and something is held (and the process takes it).
   */
  lemma RecapCarries(s: State, e: Env)
    requires Inv(s)
    ensures Carried(Send(s, RECAP, 0, true, true, e).past.sent) != Carried(s.past.sent)
            <==> s.turn.active && s.held != [] && e.sendOk
  {
    hide Ready, Exact, EnsureProc, SendTo;
    TurnsHaveProcesses(s);
    RecapOnly(s, !s.turn.active);
    EnsureProcKeeps(s.(turn := s.turn.(recapping := !s.turn.active)), e.start);
    var s1 := EnsureProc(s.(turn := s.turn.(recapping := !s.turn.active)), e.start);
    if s1.proc {
      SendToIs(s1, RECAP, !s.turn.active, e);
      CarriedSnoc(s1.past.sent, Sent(UserText(RECAP), if s.turn.active then s1.held else []));
      assert Carried(s1.past.sent) + [] == Carried(s1.past.sent);
    }
  }

  const Willing := Env(Up, true, false)
  const FixIt: Action := SendAction("fix it", 0, true, true)

  lemma AfterAPrompt()
    ensures var s := Apply(Initial(false), FixIt, Willing);
            && s.turn.active && s.proc && s.held == [] && s.past.sent == [Sent(UserText("fix it"), [])]
            && s.asking.pending == map[] && !s.turn.interrupted && !s.turn.recapping
            && s.signIn == SignIn(false, false, 0, None, 0)
            && s.past.log == [] + [TurnStarted] + [Prompted("fix it")]
  {
  }

  lemma AfterAnEvent(s: State)
    requires s.turn.active && s.proc && s.held == []
    ensures var t := Apply(s, EventAction("exit 1", false), Willing);
            t.turn.active && t.proc && t.held == ["exit 1"] && t.past.sent == s.past.sent
  {
  }

  lemma AfterARecap(s: State)
    requires s.turn.active && s.proc
    ensures Apply(s, SendAction(RECAP, 0, true, true), Willing).past.sent
        == s.past.sent + [Sent(UserText(RECAP), s.held)]
  {
    hide SendTo, Silent;
    SendToIs(s.(signIn := s.signIn.(refreshRetries := 0), turn := s.turn.(recapping := false)), RECAP, false, Willing);
  }

  /**
    A run in which a /recap carries a process event: a prompt starts a turn, an
    event is held, and the recap follows.
   */
  lemma ARecapWithEvents()
    ensures var s1 := Apply(Initial(false), FixIt, Willing);
            var s2 := Apply(s1, EventAction("exit 1", false), Willing);
            var s3 := Apply(s2, SendAction(RECAP, 0, true, true), Willing);
            s3.past.sent == [Sent(UserText("fix it"), []), Sent(UserText(RECAP), ["exit 1"])]
  {
    hide Apply;
    AfterAPrompt();
    var s1 := Apply(Initial(false), FixIt, Willing);
    AfterAnEvent(s1);
    AfterARecap(Apply(s1, EventAction("exit 1", false), Willing));
  }

  /**
    In every run the status says at every boundary what the session does: with a
    process, that it waits for the user, or else that a turn runs, or else that
    nothing does; without one, that it stopped or failed.
   */
  lemma TheStatusIsTrue(run: seq<State>, steps: seq<(Action, Env)>, k: nat)
    requires IsRun(run, steps) && k < |run|
    ensures run[k].status == Waiting <==> run[k].proc && exists r :: r in run[k].asking.pending
    ensures run[k].status == Working <==> run[k].proc && run[k].turn.active && forall r :: r !in run[k].asking.pending
    ensures run[k].status == Idle <==> run[k].proc && !run[k].turn.active && forall r :: r !in run[k].asking.pending
    ensures run[k].status != Starting
  {
    EveryRunIsSafe(run, steps, k);
    hide Listed, Recorded, Conserved;
    if run[k].asking.pending != map[] {
      var r :| r in run[k].asking.pending;
    }
  }

  /** So the idle timer and outdated builds never stop a turn. */
  lemma OnlyIdleProcessesAreClosed(s: State, stale: bool)
    requires Inv(s)
    ensures s.proc && s.status == Idle <==> s.proc && !s.turn.active && s.asking.pending == map[]
    ensures IdleFired(s).stopping && !s.stopping ==> !s.turn.active && s.asking.pending == map[]
    ensures Changed(s, stale).stopping && !s.stopping ==> !s.turn.active && s.asking.pending == map[]
  {
    hide Listed, Recorded, Conserved;
  }

  /**
    A turn the user stopped ends as interrupted however its result reads: it is
    not retried, and does not mark the thread done.
   */
  lemma AStoppedTurnNeverCompletes(s: State, ok: bool, contextFull: bool, order: seq<string>, stale: bool)
    requires Inv(s) && s.turn.interrupted && Lists(order, s.asking.pending)
    ensures var t := OnResult(s, ok, contextFull, order, stale);
            && t.past.log == ResolveAll(s, order).past.log + [TurnEnded(Interrupted, Plain)]
            && t.signIn.refreshRetry.None? && !t.turn.active
  {
    TurnsHaveProcesses(s);
    StoppedIsActive(s);
    hide Inv, ResolveAll, Lists;
  }

  lemma StoppedIsActive(s: State)
    requires Inv(s) && s.turn.interrupted
    ensures s.turn.active && s.signIn.refreshRetry.None?
  {
    hide Listed, Recorded, Conserved;
  }
}
