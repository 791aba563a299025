/**
  A thread's session as the source writes it: an object owned by one goroutine,
  whose handlers update its fields. Each computes a function of
  SessionModel.dfy, so any order of handlers is a run of SessionRuns.dfy; those
  the goroutine calls rely on the invariant of SessionSafety.dfy and keep it.
 */
module Agent {
  import opened Wrappers
  import opened Messages
  import opened SessionLog
  import opened SessionModel
  import opened SessionSafety
  import opened SessionRuns

  // What the first of the entries left adds to a loop's result.
  lemma NextOf<T>(xs: seq<T>, i: nat)
    requires i < |xs|
    ensures xs[i..][0] == xs[i] && xs[i..][1..] == xs[i + 1..] && xs[..i + 1] == xs[..i] + [xs[i]]
  {
  }

  lemma NoneLeft<T>(xs: seq<T>)
    ensures xs[|xs|..] == [] && xs[..|xs|] == xs && xs[0..] == xs && xs[..0] == []
  {
  }

  lemma Moved<T>(r: seq<T>, x: T, rest: seq<T>)
    ensures r + ([x] + rest) == (r + [x]) + rest && r + [] == r && [] + rest == rest
  {
  }

  /** Leaves out the first x. */
  method Remove(xs: seq<string>, x: string) returns (ys: seq<string>)
    ensures ys == Without(xs, x)
  {
    var i := 0;
    NoneLeft(xs);
    Moved([], x, Without(xs, x));
    while i < |xs| && xs[i] != x
      invariant 0 <= i <= |xs|
      invariant Without(xs, x) == xs[..i] + Without(xs[i..], x)
    {
      NextOf(xs, i);
      Moved(xs[..i], xs[i], Without(xs[i + 1..], x));
      i := i + 1;
    }
    if i < |xs| {
      NextOf(xs, i);
      ys := xs[..i] + xs[i + 1..];
    } else {
      Moved(xs, x, []);
      ys := xs;
    }
  }

  /** Adds text to every streamed block with the key. */
  method ExtendAll(streaming: seq<Entry>, key: string, text: string) returns (r: seq<Entry>)
    ensures r == Extend(streaming, key, text)
  {
    r := [];
    NoneLeft(streaming);
    Moved([], Entry("", Text, ""), Extend(streaming, key, text));
    for i := 0 to |streaming|
      invariant Extend(streaming, key, text) == r + Extend(streaming[i..], key, text)
    {
      NextOf(streaming, i);
      var e := streaming[i];
      var e' := if e.key == key then e.(text := e.text + text) else e;
      Moved(r, e', Extend(streaming[i + 1..], key, text));
      r := r + [e'];
    }
    Moved(r, Entry("", Text, ""), []);
  }

  /** The oldest block of a kind in an API message, and the others. */
  method TakeOldest(streaming: seq<Entry>, msgID: string, kind: Kind) returns (key: Option<string>, rest: seq<Entry>)
    ensures key == TakeStream(streaming, msgID, kind).0 && rest == TakeStream(streaming, msgID, kind).1
  {
    var i := 0;
    NoneLeft(streaming);
    Moved([], Entry("", Text, ""), TakeStream(streaming, msgID, kind).1);
    while i < |streaming| && !Takes(streaming[i], msgID, kind)
      invariant 0 <= i <= |streaming|
      invariant TakeStream(streaming, msgID, kind).0 == TakeStream(streaming[i..], msgID, kind).0
      invariant TakeStream(streaming, msgID, kind).1 == streaming[..i] + TakeStream(streaming[i..], msgID, kind).1
    {
      hide Takes;
      NextOf(streaming, i);
      Moved(streaming[..i], streaming[i], TakeStream(streaming[i + 1..], msgID, kind).1);
      i := i + 1;
    }
    if i < |streaming| {
      NextOf(streaming, i);
      key, rest := Some(streaming[i].key), streaming[..i] + streaming[i + 1..];
    } else {
      Moved(streaming, Entry("", Text, ""), []);
      key, rest := None, streaming;
    }
  }

  /** When a client's request is answered with an error. */
  predicate Fails(s: State, a: Action, e: Env) {
    match a
    case SendAction(text, files, resolves, readable) =>
      (text != "" || files > 0) && !(resolves && (s.proc || e.start.Up?) && (files == 0 || readable) && e.sendOk)
    case RestartAction(_) => !e.start.Up?
    case RespondAction(req, choice, taken) => req !in s.asking.pending || choice.None? || !taken
    case RewindAction(w, _) =>
      s.foreign || s.turn.active || !w.found || !w.saves || (w.files && !((s.proc || e.start.Up?) && w.restores))
    case _ => false
  }

  /** The source's fields, those that change together grouped as SessionModel.dfy groups them. */
  class Session {
    const foreign: bool
    var proc: bool
    var stopping: bool
    var turn: Turn
    var signIn: SignIn
    var asking: Asking
    var live: Live
    var held: seq<string>
    var status: Status
    var idle: bool
    ghost var past: History

    ghost function View(): State
      reads this
    {
      State(foreign, proc, stopping, turn, signIn, asking, live, held, status, idle, past)
    }

    constructor (foreign: bool)
      ensures View() == Initial(foreign) && Inv(View())
    {
      InitialIsSafe(foreign);
      this.foreign := foreign;
      proc, stopping, turn := false, false, Turn(false, false, false, false);
      signIn, asking, live := SignIn(false, false, 0, None, 0), Asking(map[], []), Live([], "");
      held, status, idle, past := [], Stopped, false, History([], [], [], [], false);
    }

    // --- the process -----------------------------------------------------------

    method Log(e: Event)
      modifies this
      ensures View() == Emit(old(View()), e)
    {
      past := past.(log := past.log + [e]);
    }

    /** Uses the process, which has to be there: a missing one would end the daemon. */
    method UseProc()
      requires proc
      ensures Call(View()) == View()
    {
    }

    /** The process takes a message. */
    method SendProc(sent: Sent)
      requires proc
      modifies this
      ensures View() == Post(old(View()), sent)
    {
      UseProc();
      past := past.(sent := past.sent + [sent]);
    }

    method StopRunning()
      requires proc
      modifies this
      ensures View() == CloseProc(old(View()))
    {
      UseProc();
      stopping := true;
    }

    method PushState(stale: bool)
      modifies this
      ensures View() == Changed(old(View()), stale)
    {
      hide Silent, SameEvents;
      if proc && status != Starting {
        if asking.pending != map[] {
          status := Waiting;
        } else if turn.active {
          status := Working;
        } else {
          status := Idle;
        }
      }
      idle := status == Idle;
      if proc && status == Idle && !stopping && stale {
        StopRunning();
      }
    }

    method StartProc(start: Start) returns (ok: bool)
      modifies this
      ensures View() == EnsureProc(old(View()), start) && ok == View().proc
    {
      hide Changed, Silent, SameEvents, MayStart;
      if proc {
        return true;
      }
      if start == NoThread {
        return false;
      }
      status := Starting;
      PushState(false);
      if start == Refused {
        status := Failed;
        return false;
      }
      proc, status := true, Idle;
      past := past.(heard := []);
      return true;
    }

    // --- turns -------------------------------------------------------------------

    method StartTurn()
      modifies this
      ensures View() == BeginTurn(old(View()))
    {
      turn := turn.(active := true, interrupted := false);
      signIn := signIn.(authFailed := false, refreshBusy := false, refreshRetry := None);
      past := past.(log := past.log + [TurnStarted]);
    }

    method Settle(req: string, d: Decision)
      modifies this
      ensures View() == Resolve(old(View()), req, d)
    {
      hide Emit, Without, OnlyResolves, Silent, SameEvents;
      if req !in asking.pending {
        return;
      }
      var left := Remove(asking.shown, req);
      asking := Asking(asking.pending - {req}, left);
      Log(Outcome(req, d));
    }

    /** `order` is the order in which the runtime walks the waiting requests. */
    method StopTurn(order: seq<string>, result: TurnResult, why: Reason)
      requires Lists(order, asking.pending)
      modifies this
      ensures View() == EndTurn(old(View()), order, result, why)
    {
      hide Finish, Resolve, ResolveAll, OnlyResolves;
      CancelPending(order);
      CloseTurn(result, why);
    }

    method CancelPending(order: seq<string>)
      modifies this
      ensures View() == ResolveAll(old(View()), order)
    {
      hide Resolve, OnlyResolves, Silent;
      for i := 0 to |order|
        invariant View() == ResolveAll(old(View()), order[..i])
      {
        assert order[..i + 1][..i] == order[..i];
        Settle(order[i], Canceled);
      }
      assert order[..|order|] == order;
    }

    method CloseTurn(result: TurnResult, why: Reason)
      modifies this
      ensures View() == Finish(old(View()), result, why)
    {
      hide Emit, Silent, SameEvents;
      var done := turn.doneAfter && result == Completed;
      turn := turn.(active := false, interrupted := false, doneAfter := false);
      live := live.(streaming := []);
      Log(TurnEnded(result, why));
      if done {
        Log(Done(true));
      }
      turn := turn.(recapping := false);
    }

    // --- what the user asks for -----------------------------------------------------

    /** A prompt; it fails when its files, the process or the send do, and an empty one is ignored. */
    method SendPrompt(text: string, files: nat, resolves: bool, readable: bool, e: Env) returns (failed: bool)
      modifies this
      ensures View() == Send(old(View()), text, files, resolves, readable, e)
      ensures failed == Fails(old(View()), SendAction(text, files, resolves, readable), e)
    {
      hide EnsureProc, Prompt, MayStart, SameSignIn;
      if text == "" && files == 0 {
        return false;
      }
      if !resolves {
        return true;
      }
      var recap := !turn.active && text == RECAP && files == 0;
      turn := turn.(recapping := recap);
      var ok := StartProc(e.start);
      failed := PromptProc(text, files > 0 && !readable, recap, e);
    }

    method PromptProc(text: string, unreadable: bool, recap: bool, e: Env) returns (failed: bool)
      modifies this
      ensures View() == Prompt(old(View()), text, unreadable, recap, e)
      ensures failed <==> !old(proc) || unreadable || !e.sendOk
    {
      hide SendTo, Silent, MayStart, SameSignIn;
      if !proc {
        turn := turn.(recapping := false);
        return true;
      }
      if unreadable {
        return true;
      }
      PostPrompt(text, recap, e);
      return !e.sendOk;
    }

    method JoinTurn(text: string, recap: bool, stale: bool)
      modifies this
      ensures View() == Joined(old(View()), text, recap, stale)
    {
      hide BeginTurn, Emit, Changed, Silent, SameEvents;
      if !turn.active {
        StartTurn();
      } else if !recap {
        turn := turn.(doneAfter := false);
      }
      Log(Prompted(text));
      PushState(stale);
    }

    method PostPrompt(text: string, recap: bool, e: Env)
      requires proc
      modifies this
      ensures View() == SendTo(old(View()), text, recap, e)
    {
      hide Joined, Call, Post, Silent;
      var withHeld := !recap && |held| > 0;
      JoinTurn(text, recap, e.stale);
      if !e.sendOk {
        UseProc();
      } else if withHeld {
        SendProc(Sent(UserText(text), held));
        held := [];
      } else {
        SendProc(Sent(UserText(text), []));
      }
    }

    method InterruptTurn(taken: bool)
      requires Inv(View())
      modifies this
      ensures View() == Interrupt(old(View()), taken) && Inv(View())
    {
      InterruptKeeps(View(), taken, false);
      hide Inv, CloseProc, Silent;
      if !proc || !turn.active {
        return;
      }
      turn := turn.(interrupted := true);
      if !taken {
        StopRunning();
      }
    }

    /** An answer; it fails unless its request waits, the decision is known and the process takes it. */
    method Answer(req: string, choice: Option<Choice>, taken: bool) returns (failed: bool)
      requires Inv(View())
      modifies this
      ensures View() == Respond(old(View()), req, choice, taken)
      ensures failed <==> req !in old(asking).pending || choice.None? || !taken
    {
      hide Inv, Resolve, Silent, OnlyResolves;
      if req !in asking.pending || choice.None? {
        return true;
      }
      WaitingHasProcess(View(), req);
      UseProc();
      if !taken {
        return true;
      }
      Settle(req, Chosen(choice.value));
      return false;
    }

    method Finished() returns (afterTurn: bool)
      requires Inv(View())
      modifies this
      ensures View() == MarkDone(old(View())) && Inv(View()) && afterTurn == old(turn.active)
    {
      MarkDoneKeeps(View());
      hide Inv, Emit, Silent, SameEvents;
      if turn.active {
        turn := turn.(doneAfter := true);
        Log(DoneWanted);
        return true;
      }
      Log(Done(false));
      return false;
    }

    // --- process events and retries ---------------------------------------------------

    method HearProcess(prompt: string, wake: bool, e: Env)
      requires Inv(View())
      modifies this
      ensures View() == ProcessEvent(old(View()), prompt, wake, e) && Inv(View())
    {
      ProcessEventKeeps(View(), prompt, wake, e);
      hide Inv, Given, Tell, Changed, Silent, SameEvents, MayStart;
      var how := Later;
      if wake && turn.active && proc {
        how := InTurn;
      } else if wake {
        how := Wakes;
      }
      LogEvent(prompt, how);
      TellProc(prompt, how, e);
      PushState(e.stale);
    }

    method LogEvent(prompt: string, how: Hearing)
      modifies this
      ensures View() == Given(old(View()), prompt, how)
    {
      hide Emit, Silent, SameEvents;
      past := past.(given := past.given + [prompt]);
      Log(ProcessHeard(how));
    }

    method TellProc(prompt: string, how: Hearing, e: Env)
      requires how.InTurn? ==> proc
      modifies this
      ensures View() == Tell(old(View()), prompt, how, e)
    {
      hide Post, Wake, Silent, MayStart;
      match how {
        case InTurn =>
          if e.sendOk {
            SendProc(Sent(News, [prompt]));
          } else {
            UseProc();
            held := held + [prompt];
          }
        case Wakes =>
          held := held + [prompt];
          WakeUp(e);
        case Later =>
          held := held + [prompt];
      }
    }

    method WakeUp(e: Env)
      modifies this
      ensures View() == Wake(old(View()), e)
    {
      hide EnsureProc, Emit, BeginTurn, Post, MayStart, Silent;
      var ok := StartProc(e.start);
      if !ok {
        Log(Notice);
        return;
      }
      StartTurn();
      if e.sendOk {
        SendProc(Sent(News, held));
        held := [];
      } else {
        UseProc();
      }
    }

    method AskToContinue(e: Env)
      requires proc
      modifies this
      ensures View() == Resume(old(View()), e)
    {
      hide Post, Silent;
      if e.sendOk {
        SendProc(Sent(Continue, []));
      } else {
        UseProc();
      }
    }

    method ContinueAfterUpdate(e: Env)
      requires Inv(View())
      modifies this
      ensures View() == ContinueTurn(old(View()), e) && Inv(View())
    {
      ContinueTurnKeeps(View(), e);
      hide Inv, EnsureProc, Emit, BeginTurn, Resume, Changed, MayStart, Silent, SameEvents;
      var ok := StartProc(e.start);
      if !ok {
        Log(Notice);
        PushState(e.stale);
        return;
      }
      if !turn.active {
        StartTurn();
      }
      Log(Notice);
      AskToContinue(e);
      PushState(e.stale);
    }

    method RetryNow(timer: Timer, e: Env)
      requires Inv(View())
      modifies this
      ensures View() == RetryFired(old(View()), timer, e) && Inv(View())
      ensures old(signIn).refreshRetry == Some(timer) ==> !old(turn).active
    {
      TurnsHaveProcesses(View());
      RetryFiredKeeps(View(), timer, e);
      Retry(timer, e);
      hide Inv, RetryFired;
    }

    method Retry(timer: Timer, e: Env)
      modifies this
      ensures View() == RetryFired(old(View()), timer, e)
    {
      hide Send, Continued, MayStart;
      if signIn.refreshRetry != Some(timer) {
        return;
      }
      signIn := signIn.(refreshRetry := None);
      if timer.recap {
        var failed := SendPrompt(RECAP, 0, true, true, e);
      } else {
        StartAndContinue(e);
      }
    }

    method StartAndContinue(e: Env)
      modifies this
      ensures View() == Continued(old(View()), e)
    {
      hide EnsureProc, Emit, BeginTurn, Resume, Changed, MayStart, Silent, SameEvents;
      var ok := StartProc(e.start);
      if !ok {
        Log(Notice);
        PushState(e.stale);
        return;
      }
      StartTurn();
      AskToContinue(e);
      PushState(e.stale);
    }

    method IdleTooLong()
      requires Inv(View())
      modifies this
      ensures View() == IdleFired(old(View())) && Inv(View())
      ensures stopping && !old(stopping) ==> !turn.active && asking.pending == map[]
    {
      OnlyIdleProcessesAreClosed(View(), false);
      IdleFiredKeeps(View());
      hide Inv, CloseProc, Silent;
      idle := false;
      if proc && status == Idle {
        StopRunning();
      }
    }

    // --- what the process says ------------------------------------------------------------

    method StreamEvent(m: Message, stale: bool)
      modifies this
      ensures View() == OnStream(old(View()), m, stale)
    {
      hide BeginTurn, Changed, Extend, Silent, SameEvents;
      if !turn.active {
        StartTurn();
        PushState(stale);
      }
      match m {
        case MessageStart(id) =>
          live := live.(msgID := id);
        case BlockStart(index, Some(kind)) =>
          live := live.(streaming := live.streaming + [Entry(Key(live.msgID, index), kind, "")]);
        case Delta(index, _, text) =>
          if text != "" {
            var extended := ExtendAll(live.streaming, Key(live.msgID, index), text);
            live := live.(streaming := extended);
          }
        case _ =>
      }
    }

    /** A complete block takes the oldest streamed block of its kind in its message. */
    method ShowStreamed(id: string, kind: Kind, said: string, visible: bool)
      modifies this
      ensures View() == ShowBlock(old(View()), id, kind, said, visible)
    {
      hide Emit, TakeStream, OnlyShows, Silent, SameEvents;
      var key, rest := TakeOldest(live.streaming, id, kind);
      live := live.(streaming := rest);
      if visible {
        Log(Said(kind, said, key));
      }
    }

    method AssistantBlock(id: string, c: Content)
      modifies this
      ensures View() == OnBlock(old(View()), id, c)
    {
      hide ShowBlock, OnlyShows, Left, Emit, Silent, SameEvents;
      match c {
        case TextBlock(t) => ShowStreamed(id, Text, t, true);
        case ThinkingBlock(t) => ShowStreamed(id, Thinking, t, t != "");
        case ToolBlock(tool) => Log(ToolShown(tool));
        case OtherBlock =>
      }
    }

    method AssistantMessage(id: string, content: seq<Content>, error: AssistantError)
      modifies this
      ensures View() == OnAssistant(old(View()), id, content, error)
    {
      hide BeginTurn, NoteError, OnBlocks, Emit, Silent, SameEvents, OnlyShows;
      if !turn.active {
        StartTurn();
      }
      SignInError(error);
      ShowContent(id, content);
      if error != NoError {
        Log(Notice);
      }
    }

    method SignInError(error: AssistantError)
      modifies this
      ensures View() == NoteError(old(View()), error)
    {
      hide Silent;
      if error.SignedOut? {
        if error.contended && signIn.refreshRetries < MAX_REFRESH_RETRIES {
          signIn := signIn.(refreshBusy := true);
        } else {
          signIn := signIn.(authFailed := true);
        }
      }
    }

    method ShowContent(id: string, content: seq<Content>)
      modifies this
      ensures View() == OnBlocks(old(View()), id, content)
    {
      hide OnBlock, OnlyShows;
      for i := 0 to |content|
        invariant View() == OnBlocks(old(View()), id, content[..i])
      {
        assert content[..i + 1][..i] == content[..i];
        AssistantBlock(id, content[i]);
      }
      assert content[..|content|] == content;
    }

    method TurnResultCame(ok: bool, contextFull: bool, order: seq<string>, stale: bool)
      requires Lists(order, asking.pending)
      modifies this
      ensures View() == OnResult(old(View()), ok, contextFull, order, stale)
    {
      hide EndTurn, ScheduleRetry, Silent;
      var result := Completed;
      var why := Plain;
      if turn.interrupted {
        result := Interrupted;
      } else if !ok {
        result := Errored;
        if signIn.authFailed {
          why := SignedOutReason;
        }
        if signIn.refreshBusy && !signIn.authFailed {
          why := RefreshBusy;
        }
        if contextFull {
          why := ContextFull;
        }
      }
      if result == Completed && !foreign {
        signIn := signIn.(refreshRetries := 0);
      }
      var recap := turn.recapping;
      StopTurn(order, result, why);
      if why == RefreshBusy {
        RetryLater(recap, stale);
      }
    }

    method RetryLater(recap: bool, stale: bool)
      modifies this
      ensures View() == ScheduleRetry(old(View()), recap, stale)
    {
      hide Emit, Changed, Silent, SameEvents;
      signIn := signIn.(refreshRetries := signIn.refreshRetries + 1);
      Log(Notice);
      PushState(stale);
      signIn := signIn.(refreshRetry := Some(Timer(signIn.timers, recap)), timers := signIn.timers + 1);
    }

    method PermissionAsked(req: string, tool: string)
      modifies this
      ensures View() == OnPermission(old(View()), req, tool)
    {
      hide BeginTurn, Emit, Silent, SameEvents;
      if !turn.active {
        StartTurn();
      }
      asking := Asking(asking.pending[req := tool], asking.shown + [req]);
      Log(Asked(req));
    }

    /** `order` is only needed for a result: the order in which it walks the waiting requests. */
    method Handle(m: Message, order: seq<string>, stale: bool)
      requires Inv(View()) && proc && Fits(View(), m, order)
      modifies this
      ensures View() == HandleMessage(old(View()), m, order, stale) && Inv(View()) && proc
    {
      MessageKeeps(View(), m, order, stale);
      Dispatch(m, order, stale);
      hide Inv, HandleMessage;
    }

    method Dispatch(m: Message, order: seq<string>, stale: bool)
      requires m.Result? ==> Lists(order, asking.pending)
      modifies this
      ensures View() == HandleMessage(old(View()), m, order, stale)
    {
      hide OnStream, OnAssistant, OnResult, OnPermission, Resolve, Changed, Emit, OnlyResolves, Silent, SameEvents;
      past := past.(heard := past.heard + [m]);
      match m {
        case MessageStart(_) => StreamEvent(m, stale); return;
        case BlockStart(_, _) => StreamEvent(m, stale); return;
        case Delta(_, _, _) => StreamEvent(m, stale); return;
        case StreamOther => StreamEvent(m, stale); return;
        case StreamChild => return;
        case System(logs) =>
          if logs {
            Log(Notice);
          }
        case Assistant(id, content, error) => AssistantMessage(id, content, error);
        case ToolResult(tool, _, _) => Log(ToolAnswered(tool));
        case Result(ok, full, _) => TurnResultCame(ok, full, order, stale);
        case ControlRequest(req, tool) => PermissionAsked(req, tool);
        case ControlCancel(req) => Settle(req, Canceled);
        case Ignored => return;
      }
      PushState(stale);
    }

    method Exited(order: seq<string>, err: bool)
      requires Inv(View()) && proc && Lists(order, asking.pending)
      modifies this
      ensures View() == OnExit(old(View()), order, err) && Inv(View())
      ensures !proc && !turn.active && asking.pending == map[] && live.streaming == []
    {
      ExitKeeps(View(), order, err);
      NothingWaits(OnExit(View(), order, err));
      ProcGone(order, err);
      hide Inv, OnExit, Lists;
    }

    method ProcGone(order: seq<string>, err: bool)
      requires proc && Lists(order, asking.pending)
      modifies this
      ensures View() == OnExit(old(View()), order, err)
    {
      hide Call, EndTurn, Changed, Silent, SameEvents;
      UseProc();
      proc := false;
      var expected := stopping || turn.interrupted;
      if turn.active {
        StopTurn(order, if expected then Interrupted else Errored, Plain);
      }
      status := Stopped;
      if err && !expected {
        status := Failed;
      }
      stopping := false;
      turn := turn.(interrupted := false);
      PushState(false);
    }

    // --- restarts and rewinds ------------------------------------------------------------

    /** Ends the process: its remaining messages, then its exit. */
    method StopAndDrain(end: Ending)
      requires Inv(View()) && proc && Ends(View(), end)
      modifies this
      ensures View() == StopProc(old(View()), end) && Inv(View()) && !proc && !turn.active
    {
      hide Inv, CloseProc, OnExit, HandleMessage, Silent, Lists, Ends, FitsAll, Fits;
      ghost var s := CloseProc(View());
      EndsAre(View(), end);
      ClosingKeeps(View());
      StopRunning();
      for i := 0 to |end.last|
        invariant View() == Drain(s, end.last[..i]) && Inv(View()) && proc
      {
        FitsAllAt(s, end.last, i);
        assert end.last[..i + 1][..i] == end.last[..i];
        Handle(end.last[i].m, end.last[i].order, end.last[i].stale);
      }
      assert end.last[..|end.last|] == end.last;
      Exited(end.order, end.err);
    }

    method RestartProc(end: Ending, e: Env) returns (failed: bool)
      requires Inv(View()) && (proc ==> Ends(View(), end))
      modifies this
      ensures View() == Restart(old(View()), end, e) && (failed <==> !e.start.Up?)
    {
      hide Inv, StopProc, EnsureProc, Emit, Ends, Silent, SameEvents, MayStart;
      if proc {
        StopAndDrain(end);
      }
      var ok := StartProc(e.start);
      if ok {
        Log(Notice);
      }
      failed := !ok;
    }

    /** Rolls the conversation back; it fails during a turn, for another agent, and when any step does. */
    method RollBack(w: Rewinding, end: Ending, e: Env) returns (failed: bool)
      requires Inv(View())
      requires Restoring(View(), w, e).proc ==> Ends(Restoring(View(), w, e), end)
      modifies this
      ensures View() == Rewind(old(View()), w, end, e)
      ensures failed == Fails(old(View()), RewindAction(w, end), e)
    {
      StartKeeps(View(), e.start);
      hide Inv, StopProc, EnsureProc, Emit, Ends, Silent, SameEvents, MayStart;
      if foreign || turn.active || !w.found {
        return true;
      }
      if w.files {
        var ok := StartProc(e.start);
        if !ok || !w.restores {
          return true;
        }
      }
      if proc {
        StopAndDrain(end);
      }
      if w.saves {
        Log(Rewound);
      }
      failed := !w.saves;
    }

    // --- a client's request ----------------------------------------------------------------

    /** A request of a client: whatever it does, the state is pushed after it. */
    method HandleRequest(a: Action, e: Env) returns (failed: bool)
      requires IsRequest(a) && Inv(View()) && Enabled(View(), a, e)
      modifies this
      ensures View() == Apply(old(View()), a, e) && Inv(View())
      ensures !a.SettingAction? ==> failed == Fails(old(View()), a, e)
    {
      ApplyKeeps(View(), a, e);
      failed := Requested(a, e);
      hide Inv, Apply, Enabled, Fails;
    }

    method Requested(a: Action, e: Env) returns (failed: bool)
      requires IsRequest(a) && Inv(View()) && Enabled(View(), a, e)
      modifies this
      ensures View() == Apply(old(View()), a, e) && failed == Fails(old(View()), a, e)
    {
      hide Inv, Send, Interrupt, Restart, Respond, Rewind, Changed, Ends, MayStart, Silent, SameEvents, Restoring;
      failed := false;
      match a {
        case SendAction(text, files, resolves, readable) =>
          signIn := signIn.(refreshRetries := 0);
          failed := SendPrompt(text, files, resolves, readable, e);
        case InterruptAction(taken) => InterruptTurn(taken);
        case RestartAction(end) => failed := RestartProc(end, e);
        case RespondAction(req, choice, taken) => failed := Answer(req, choice, taken);
        case RewindAction(w, end) => failed := RollBack(w, end, e);
        case SettingAction =>
      }
      PushState(e.stale);
    }
  }
}
