/**
  What each of a session's actions comes to: what it adds to the record, what
  the process is sent and with which held events, and how the turn stands
  afterwards. The laws are about the actions as wholes, whatever functions they
  are made of.
 */
module SessionLaws {
  import opened Wrappers
  import opened Messages
  import opened SessionLog
  import opened SessionModel
  import opened SessionSafety
  import opened SessionRuns

  /** What is logged and sent, which events are held then, and the turn then. */
  datatype Effect = Effect(log: seq<Event>, sent: seq<Sent>, held: seq<string>, turn: Turn)

  ghost predicate Has(s: State, t: State, x: Effect) {
    && t.past.log == s.past.log + x.log && t.past.sent == s.past.sent + x.sent
    && t.held == x.held && t.turn == x.turn
  }

  // --- the effects, action by action ---------------------------------------------------------

  function Nothing(s: State): Effect { Effect([], [], s.held, s.turn) }

  /** A turn begins unless one runs. */
  function Begins(turn: Turn): seq<Event> { if turn.active then [] else [TurnStarted] }

  function Running(turn: Turn): Turn { if turn.active then turn else turn.(active := true, interrupted := false) }

  /** A prompt that goes out: a /recap of its own carries nothing, any other carries all that is held. */
  function PromptEffect(s: State, text: string, recap: bool, e: Env): Effect {
    var turn := s.turn.(recapping := recap, doneAfter := if s.turn.active then false else s.turn.doneAfter);
    Effect(Begins(s.turn) + [Prompted(text)],
           if e.sendOk then [Sent(UserText(text), if recap then [] else s.held)] else [],
           if e.sendOk && !recap then [] else s.held,
           Running(turn))
  }

  function SendEffect(s: State, text: string, files: nat, resolves: bool, readable: bool, e: Env): Effect {
    if (text == "" && files == 0) || !resolves then Nothing(s)
    else if (!s.proc && !e.start.Up?) || (files > 0 && !readable) then
      Effect([], [], s.held, s.turn.(recapping := false))
    else PromptEffect(s, text, !s.turn.active && text == RECAP && files == 0, e)
  }

  /** A process event joins the turn; without one it wakes the agent, if it is to; or it is held for the next prompt. */
  function EventEffect(s: State, prompt: string, wake: bool, e: Env): Effect {
    var held := s.held + [prompt];
    if !wake then Effect([ProcessHeard(Later)], [], held, s.turn)
    else if s.turn.active then
      Effect([ProcessHeard(InTurn)], if e.sendOk then [Sent(News, [prompt])] else [],
             if e.sendOk then s.held else held, s.turn)
    else if s.proc || e.start.Up? then
      Effect([ProcessHeard(Wakes), TurnStarted], if e.sendOk then [Sent(News, held)] else [],
             if e.sendOk then [] else held, Running(s.turn))
    else Effect([ProcessHeard(Wakes), Notice], [], held, s.turn)
  }

  /** A turn goes on with a prompt of the daemon's; the failure to start a process for it is noted. */
  function ContinueEffect(s: State, e: Env): Effect {
    if s.proc || e.start.Up? then
      Effect(Begins(s.turn) + [Notice], if e.sendOk then [Sent(Continue, [])] else [], s.held, Running(s.turn))
    else Effect([Notice], [], s.held, s.turn)
  }

  function RetryEffect(s: State, timer: Timer, e: Env): Effect {
    if s.signIn.refreshRetry != Some(timer) then Nothing(s)
    else if timer.recap then SendEffect(s, RECAP, 0, true, true, e)
    else if s.proc || e.start.Up? then
      Effect([TurnStarted], if e.sendOk then [Sent(Continue, [])] else [], s.held, Running(s.turn))
    else Effect([Notice], [], s.held, s.turn)
  }

  function EffectOf(s: State, a: Action, e: Env): Effect {
    match a
    case SendAction(text, files, resolves, readable) => SendEffect(s, text, files, resolves, readable, e)
    case InterruptAction(_) =>
      Effect([], [], s.held, if s.turn.active then s.turn.(interrupted := true) else s.turn)
    case RespondAction(req, choice, taken) =>
      if req in s.asking.pending && choice.Some? && taken
      then Effect([Outcome(req, Chosen(choice.value))], [], s.held, s.turn) else Nothing(s)
    case MarkDoneAction =>
      if s.turn.active then Effect([DoneWanted], [], s.held, s.turn.(doneAfter := true))
      else Effect([Done(false)], [], s.held, s.turn)
    case EventAction(prompt, wake) => EventEffect(s, prompt, wake, e)
    case ContinueAction => ContinueEffect(s, e)
    case RetryAction(t) => RetryEffect(s, t, e)
    case _ => Nothing(s)
  }

  // --- the parts of handlers -------------------------------------------------------------------

  // What leaves the record, what was sent, the held events and the turn as they were.
  ghost predicate Unmoved(s: State, t: State) { Has(s, t, Nothing(s)) }

  lemma ChangedDoes(s: State, stale: bool)
    ensures Unmoved(s, Changed(s, stale))
  {
    hide Silent, SameSignIn;
    Same(s);
  }

  lemma Same(s: State)
    ensures s.past.log + [] == s.past.log && s.past.sent + [] == s.past.sent
  {
  }

  lemma StartDoes(s: State, start: Start)
    ensures Unmoved(s, EnsureProc(s, start)) && EnsureProc(s, start).asking == s.asking
  {
    hide Silent, SameSignIn, SameEvents;
    Same(s);
  }

  lemma EmitDoes(s: State, e: Event)
    ensures Has(s, Emit(s, e), Effect([e], [], s.held, s.turn))
  {
    hide Silent, SameSignIn, SameEvents;
    Same(s);
  }

  lemma BeginDoes(s: State)
    ensures Has(s, BeginTurn(s), Effect([TurnStarted], [], s.held, s.turn.(active := true, interrupted := false)))
  {
    hide Silent, SameSignIn, SameEvents;
    Same(s);
  }

  lemma PostDoes(s: State, sent: Sent)
    requires s.proc
    ensures Has(s, Post(s, sent), Effect([], [sent], s.held, s.turn))
  {
    hide Silent, SameSignIn, SameEvents;
    Same(s);
  }

  lemma ResumeDoes(s: State, e: Env)
    requires s.proc
    ensures Has(s, Resume(s, e), Effect([], if e.sendOk then [Sent(Continue, [])] else [], s.held, s.turn))
  {
    hide Post, Silent, SameSignIn, SameEvents;
    PostDoes(s, Sent(Continue, []));
    Same(s);
  }

  lemma Then(s: State, t: State, u: State, x: Effect, y: Effect)
    requires Has(s, t, x) && Has(t, u, y)
    ensures Has(s, u, Effect(x.log + y.log, x.sent + y.sent, y.held, y.turn))
  {
  }

  // --- what the user and the daemon ask for ------------------------------------------------------

  lemma JoinedDoes(s: State, text: string, recap: bool, stale: bool)
    requires recap ==> !s.turn.active
    ensures Has(s, Joined(s, text, recap, stale),
                Effect(Begins(s.turn) + [Prompted(text)], [], s.held,
                       Running(s.turn.(doneAfter := if s.turn.active then false else s.turn.doneAfter))))
  {
    hide Changed, Emit, BeginTurn, Silent, SameSignIn, SameEvents;
    var s1 := if !s.turn.active then BeginTurn(s) else s.(turn := s.turn.(doneAfter := false));
    BeginDoes(s);
    EmitDoes(s1, Prompted(text));
    ChangedDoes(Emit(s1, Prompted(text)), stale);
    Same(s);
  }

  lemma SendToDoes(s: State, text: string, recap: bool, e: Env)
    requires s.proc && (recap ==> !s.turn.active) && s.turn.recapping == recap
    ensures Has(s, SendTo(s, text, recap, e), PromptEffect(s, text, recap, e))
  {
    hide Joined, Post, Silent, SameSignIn, SameEvents;
    JoinedDoes(s, text, recap, e.stale);
    var s1 := Joined(s, text, recap, e.stale);
    PostDoes(s1, Sent(UserText(text), s1.held));
    PostDoes(s1, Sent(UserText(text), []));
  }

  lemma SendDoes(s: State, text: string, files: nat, resolves: bool, readable: bool, e: Env)
    ensures Has(s, Send(s, text, files, resolves, readable, e), SendEffect(s, text, files, resolves, readable, e))
  {
    hide EnsureProc, Prompt, PromptEffect, SameSignIn, MayStart, Has;
    if (text == "" && files == 0) || !resolves {
      Stays(s);
    } else {
      var recap := !s.turn.active && text == RECAP && files == 0;
      var s0 := s.(turn := s.turn.(recapping := recap));
      StartDoes(s0, e.start);
      var s1 := EnsureProc(s0, e.start);
      PromptDoes(s1, text, files > 0 && !readable, recap, e);
      SamePrompt(s, s0, s1, text, recap, e);
      StartedThen(s, s0, s1, Send(s, text, files, resolves, readable, e),
          SendEffect(s, text, files, resolves, readable, e));
    }
  }

  lemma Stays(s: State)
    ensures Has(s, s, Nothing(s))
  {
    Same(s);
  }

  lemma StartedThen(s: State, s0: State, s1: State, t: State, x: Effect)
    requires s0.past == s.past && Unmoved(s0, s1) && Has(s1, t, x)
    ensures Has(s, t, x)
  {
  }

  lemma PromptDoes(s: State, text: string, unreadable: bool, recap: bool, e: Env)
    requires (recap ==> !s.turn.active) && s.turn.recapping == recap
    ensures Has(s, Prompt(s, text, unreadable, recap, e),
                if !s.proc then Effect([], [], s.held, s.turn.(recapping := false))
                else if unreadable then Nothing(s)
                else PromptEffect(s, text, recap, e))
  {
    hide SendTo, PromptEffect, Silent, SameSignIn, MayStart;
    Same(s);
    if s.proc {
      SendToDoes(s, text, recap, e);
    }
  }

  lemma SamePrompt(s: State, s0: State, s1: State, text: string, recap: bool, e: Env)
    requires s0 == s.(turn := s.turn.(recapping := recap)) && Unmoved(s0, s1)
    ensures PromptEffect(s1, text, recap, e) == PromptEffect(s, text, recap, e)
    ensures s1.held == s.held && s1.turn == s0.turn
  {
  }

  lemma UserSendDoes(s: State, text: string, files: nat, resolves: bool, readable: bool, e: Env)
    ensures Has(s, UserSend(s, text, files, resolves, readable, e), SendEffect(s, text, files, resolves, readable, e))
  {
    hide Send, Changed, SendEffect, SameSignIn, MayStart;
    var s0 := s.(signIn := s.signIn.(refreshRetries := 0));
    SendDoes(s0, text, files, resolves, readable, e);
    SameSend(s, s0, text, files, resolves, readable, e);
    ChangedDoes(Send(s0, text, files, resolves, readable, e), e.stale);
  }

  lemma SameSend(s: State, t: State, text: string, files: nat, resolves: bool, readable: bool, e: Env)
    requires t.held == s.held && t.turn == s.turn && t.proc == s.proc
    ensures SendEffect(t, text, files, resolves, readable, e) == SendEffect(s, text, files, resolves, readable, e)
  {
  }

  lemma RespondDoes(s: State, req: string, choice: Option<Choice>, taken: bool)
    requires Inv(s)
    ensures Has(s, Respond(s, req, choice, taken), EffectOf(s, RespondAction(req, choice, taken), Willing))
  {
    Same(s);
    if req in s.asking.pending {
      WaitingHasProcess(s, req);
    }
    hide Inv, Silent, SameSignIn, SameEvents, OnlyResolves;
  }

  // --- process events, continued turns and retries -------------------------------------------------

  lemma WakeDoes(s: State, e: Env)
    requires !s.turn.active
    ensures Has(s, Wake(s, e),
                if s.proc || e.start.Up?
                then Effect([TurnStarted], if e.sendOk then [Sent(News, s.held)] else [],
                            if e.sendOk then [] else s.held, Running(s.turn))
                else Effect([Notice], [], s.held, s.turn))
  {
    hide EnsureProc, Emit, BeginTurn, Post, Silent, SameSignIn, SameEvents, MayStart;
    StartDoes(s, e.start);
    var s1 := EnsureProc(s, e.start);
    EmitDoes(s1, Notice);
    BeginDoes(s1);
    if s1.proc {
      PostDoes(BeginTurn(s1), Sent(News, s1.held));
    }
    Same(s);
  }

  lemma EventDoes(s: State, prompt: string, wake: bool, e: Env)
    requires s.turn.active ==> s.proc
    ensures Has(s, ProcessEvent(s, prompt, wake, e), EventEffect(s, prompt, wake, e))
  {
    hide Emit, Wake, Post, Changed, Silent, SameSignIn, SameEvents, MayStart;
    var how := HearsHow(s, wake);
    var s1 := Given(s, prompt, how);
    EmitDoes(s.(past := s.past.(given := s.past.given + [prompt])), ProcessHeard(how));
    if how == InTurn {
      PostDoes(s1, Sent(News, [prompt]));
    } else if how == Wakes {
      WakeDoes(s1.(held := s1.held + [prompt]), e);
    }
    ChangedDoes(Tell(s1, prompt, how, e), e.stale);
  }

  lemma ContinueDoes(s: State, e: Env)
    ensures Has(s, ContinueTurn(s, e), ContinueEffect(s, e))
  {
    hide EnsureProc, Emit, BeginTurn, Resume, Changed, Silent, SameSignIn, SameEvents, MayStart;
    StartDoes(s, e.start);
    var s1 := EnsureProc(s, e.start);
    BeginDoes(s1);
    var s2 := if s1.turn.active then s1 else BeginTurn(s1);
    EmitDoes(s1, Notice);
    EmitDoes(s2, Notice);
    if s1.proc {
      ResumeDoes(Emit(s2, Notice), e);
      ChangedDoes(Resume(Emit(s2, Notice), e), e.stale);
    }
    ChangedDoes(Emit(s1, Notice), e.stale);
  }

  lemma ContinuedDoes(s: State, e: Env)
    requires !s.turn.active
    ensures Has(s, Continued(s, e),
                if s.proc || e.start.Up?
                then Effect([TurnStarted], if e.sendOk then [Sent(Continue, [])] else [], s.held, Running(s.turn))
                else Effect([Notice], [], s.held, s.turn))
  {
    hide EnsureProc, Emit, BeginTurn, Resume, Changed, Silent, SameSignIn, SameEvents, MayStart;
    StartDoes(s, e.start);
    var s1 := EnsureProc(s, e.start);
    BeginDoes(s1);
    EmitDoes(s1, Notice);
    if s1.proc {
      ResumeDoes(BeginTurn(s1), e);
      ChangedDoes(Resume(BeginTurn(s1), e), e.stale);
    }
    ChangedDoes(Emit(s1, Notice), e.stale);
  }

  lemma RetryDoes(s: State, timer: Timer, e: Env)
    requires s.signIn.refreshRetry.Some? ==> !s.turn.active
    ensures Has(s, RetryFired(s, timer, e), RetryEffect(s, timer, e))
  {
    hide Send, Continued, SendEffect, SameSignIn, MayStart;
    Same(s);
    var s1 := s.(signIn := s.signIn.(refreshRetry := None));
    if s.signIn.refreshRetry == Some(timer) {
      if timer.recap {
        SendDoes(s1, RECAP, 0, true, true, e);
        SameSend(s, s1, RECAP, 0, true, true, e);
      } else {
        ContinuedDoes(s1, e);
      }
    }
  }

  lemma InterruptDoes(s: State, taken: bool, stale: bool)
    requires s.turn.active ==> s.proc
    ensures Has(s, Changed(Interrupt(s, taken), stale), EffectOf(s, InterruptAction(taken), Willing))
    ensures Unmoved(s, IdleFired(s))
  {
    hide Changed, Silent, SameSignIn, SameEvents;
    Same(s);
    ChangedDoes(Interrupt(s, taken), stale);
  }

  lemma MarkDoes(s: State)
    ensures Has(s, MarkDone(s), EffectOf(s, MarkDoneAction, Willing))
  {
    hide Silent, SameSignIn, SameEvents;
    Same(s);
  }

  /**
    What each action does that neither hears nor ends a process: what it adds to
    the record, what it sends and with which events, what is held then, and the
    turn then.
   */
  lemma ActionsDo(s: State, a: Action, e: Env)
    requires Inv(s) && Enabled(s, a, e)
    requires !a.MessageAction? && !a.ExitAction? && !a.RestartAction? && !a.RewindAction?
    ensures Has(s, Apply(s, a, e), EffectOf(s, a, e))
  {
    TurnsHaveProcesses(s);
    hide Inv, UserSend, Changed, Interrupt, Respond, MarkDone, ProcessEvent, ContinueTurn, RetryFired, IdleFired,
         SendEffect, EventEffect, ContinueEffect, RetryEffect, Has;
    match a
    case SendAction(text, files, resolves, readable) => UserSendDoes(s, text, files, resolves, readable, e);
    case InterruptAction(taken) => InterruptDoes(s, taken, e.stale);
    case RespondAction(req, choice, taken) =>
      RespondDoes(s, req, choice, taken);
      PushedDoes(s, Respond(s, req, choice, taken), EffectOf(s, a, e), e.stale);
    case SettingAction => ChangedDoes(s, e.stale);
    case MarkDoneAction => MarkDoes(s);
    case EventAction(prompt, wake) => EventDoes(s, prompt, wake, e);
    case ContinueAction => ContinueDoes(s, e);
    case RetryAction(t) => RetryDoes(s, t, e);
    case IdleAction => InterruptDoes(s, true, e.stale);
  }

  lemma PushedDoes(s: State, t: State, x: Effect, stale: bool)
    requires Has(s, t, x)
    ensures Has(s, Changed(t, stale), x)
  {
    hide Changed;
    ChangedDoes(t, stale);
  }

  // --- what the process says -------------------------------------------------------------------

  /** Apart from the streamed block a complete one replaces, two records are alike. */
  function Bare(e: Event): Event { if e.Said? then e.(streamKey := None) else e }

  ghost predicate Alike(a: seq<Event>, b: seq<Event>) {
    |a| == |b| && forall i :: 0 <= i < |a| ==> Bare(a[i]) == Bare(b[i])
  }

  /** What a complete block shows: thinking that is empty is not shown. */
  function BlockShows(c: Content): seq<Event> {
    match c
    case TextBlock(t) => [Said(Text, t, None)]
    case ThinkingBlock(t) => if t == "" then [] else [Said(Thinking, t, None)]
    case ToolBlock(tool) => [ToolShown(tool)]
    case OtherBlock => []
  }

  function BlocksShow(content: seq<Content>): seq<Event> {
    if content == [] then [] else BlocksShow(content[..|content| - 1]) + BlockShows(content[|content| - 1])
  }

  /** The waiting requests are canceled, in the order the runtime walks them. */
  function Cancels(order: seq<string>): seq<Event> {
    if order == [] then [] else Cancels(order[..|order| - 1]) + [Outcome(order[|order| - 1], Canceled)]
  }

  /**
    How a result reads: a stopped turn is interrupted whatever it says, and an
    error has the gravest of its reasons.
   */
  function ResultReads(s: State, ok: bool, contextFull: bool): Event {
    if s.turn.interrupted then TurnEnded(Interrupted, Plain)
    else if ok then TurnEnded(Completed, Plain)
    else TurnEnded(Errored, if contextFull then ContextFull
                            else if s.signIn.authFailed then SignedOutReason
                            else if s.signIn.refreshBusy then RefreshBusy
                            else Plain)
  }

  /**
    A turn ends: what waits is canceled, the end is logged, and a completed turn
    whose thread was to be done marks it.
   */
  function EndShows(s: State, order: seq<string>, end: Event): seq<Event>
    requires end.TurnEnded?
  {
    Cancels(order) + [end] + (if s.turn.doneAfter && end.result == Completed then [Done(true)] else [])
  }

  /** What a message adds to the record. */
  function MessageShows(s: State, m: Message, order: seq<string>): seq<Event> {
    match m
    case Assistant(_, content, error) =>
      Begins(s.turn) + BlocksShow(content) + (if error == NoError then [] else [Notice])
    case ToolResult(tool, _, _) => [ToolAnswered(tool)]
    case ControlRequest(req, _) => Begins(s.turn) + [Asked(req)]
    case ControlCancel(req) => if req in s.asking.pending then [Outcome(req, Canceled)] else []
    case Result(ok, full, _) =>
      var end := ResultReads(s, ok, full);
      EndShows(s, order, end) + (if end.why == RefreshBusy then [Notice] else [])
    case System(logs) => if logs then [Notice] else []
    case StreamChild => []
    case Ignored => []
    case _ => Begins(s.turn)
  }

  /** How the turn stands after a message: only a result ends it, and all but what is said in none begin one. */
  function TurnAfter(turn: Turn, m: Message): Turn {
    match m
    case Result(_, _, _) => Turn(false, false, false, false)
    case ToolResult(_, _, _) => turn
    case ControlCancel(_) => turn
    case System(_) => turn
    case StreamChild => turn
    case Ignored => turn
    case _ => Running(turn)
  }

  /** A message sends nothing; it adds to the record, and the turn stands, as said. */
  ghost predicate Hears(s: State, t: State, logged: seq<Event>, turn: Turn) {
    && s.past.log <= t.past.log && Alike(t.past.log[|s.past.log|..], logged)
    && t.past.sent == s.past.sent && t.held == s.held && t.turn == turn
  }

  lemma HasHears(s: State, t: State, x: Effect)
    requires Has(s, t, x) && x.sent == [] && x.held == s.held
    ensures Hears(s, t, x.log, x.turn)
  {
    assert t.past.log[|s.past.log|..] == x.log && s.past.sent + [] == s.past.sent;
  }

  lemma HearsThen(s: State, t: State, u: State, a: seq<Event>, b: seq<Event>, turn: Turn, turn': Turn)
    requires Hears(s, t, a, turn) && Hears(t, u, b, turn')
    ensures Hears(s, u, a + b, turn')
  {
    assert u.past.log[|s.past.log|..] == t.past.log[|s.past.log|..] + u.past.log[|t.past.log|..];
  }

  lemma HearsMoved(s: State, t: State, u: State, a: seq<Event>, turn: Turn)
    requires Hears(s, t, a, turn) && Unmoved(t, u)
    ensures Hears(s, u, a, turn)
  {
    HasHears(t, u, Nothing(t));
    HearsThen(s, t, u, a, [], turn, turn);
    assert a + [] == a;
  }

  lemma StreamDoes(s: State, m: Message, stale: bool)
    ensures Has(s, OnStream(s, m, stale), Effect(Begins(s.turn), [], s.held, Running(s.turn)))
  {
    hide BeginTurn, Changed, Extend, Silent, SameSignIn, SameEvents;
    BeginDoes(s);
    ChangedDoes(BeginTurn(s), stale);
    Same(s);
  }

  lemma BlockDoes(s: State, id: string, c: Content)
    ensures Hears(s, OnBlock(s, id, c), BlockShows(c), s.turn)
  {
    hide TakeStream, Silent, SameSignIn, SameEvents;
    Same(s);
    var t := OnBlock(s, id, c);
    assert t.past.log[|s.past.log|..] == t.past.log[|s.past.log|..];
  }

  lemma {:induction false} BlocksDo(s: State, id: string, content: seq<Content>)
    ensures Hears(s, OnBlocks(s, id, content), BlocksShow(content), s.turn)
    decreases |content|
  {
    hide OnBlock, OnlyShows, BlockShows;
    if content == [] {
      Same(s);
      assert s.past.log[|s.past.log|..] == [];
    } else {
      var before, last := content[..|content| - 1], content[|content| - 1];
      BlocksDo(s, id, before);
      var s1 := OnBlocks(s, id, before);
      BlockDoes(s1, id, last);
      HearsThen(s, s1, OnBlock(s1, id, last), BlocksShow(before), BlockShows(last), s.turn, s.turn);
    }
  }

  lemma AssistantDoes(s: State, id: string, content: seq<Content>, error: AssistantError)
    ensures Hears(s, OnAssistant(s, id, content, error),
                  Begins(s.turn) + BlocksShow(content) + (if error == NoError then [] else [Notice]), Running(s.turn))
  {
    hide BeginTurn, NoteError, OnBlocks, Emit, BlocksShow, Has, Hears;
    var s1 := if s.turn.active then s else BeginTurn(s);
    var s2 := NoteError(s1, error);
    var s3 := OnBlocks(s2, id, content);
    BegunHears(s, s1);
    NotedHears(s1, error);
    BlocksDo(s2, id, content);
    HearsThen(s, s1, s2, Begins(s.turn), [], Running(s.turn), Running(s.turn));
    HearsThen(s, s2, s3, Begins(s.turn) + [], BlocksShow(content), Running(s.turn), Running(s.turn));
    assert Begins(s.turn) + [] == Begins(s.turn);
    NoticeHears(s3);
    if error == NoError {
      assert Begins(s.turn) + BlocksShow(content) + [] == Begins(s.turn) + BlocksShow(content);
    } else {
      HearsThen(s, s3, Emit(s3, Notice), Begins(s.turn) + BlocksShow(content), [Notice], s3.turn, s3.turn);
    }
  }

  lemma BegunHears(s: State, t: State)
    requires t == if s.turn.active then s else BeginTurn(s)
    ensures Hears(s, t, Begins(s.turn), Running(s.turn)) && t.turn == Running(s.turn)
  {
    hide BeginTurn;
    BeginDoes(s);
    Same(s);
    HasHears(s, t, Effect(Begins(s.turn), [], s.held, Running(s.turn)));
  }

  lemma NotedHears(s: State, error: AssistantError)
    ensures Hears(s, NoteError(s, error), [], s.turn) && NoteError(s, error).turn == s.turn
  {
    Same(s);
    HasHears(s, NoteError(s, error), Nothing(s));
  }

  lemma NoticeHears(s: State)
    ensures Hears(s, Emit(s, Notice), [Notice], s.turn)
  {
    hide Emit;
    EmitDoes(s, Notice);
    HasHears(s, Emit(s, Notice), Effect([Notice], [], s.held, s.turn));
  }

  lemma {:induction false} CancelsDo(s: State, order: seq<string>)
    requires Lists(order, s.asking.pending)
    ensures Has(s, ResolveAll(s, order), Effect(Cancels(order), [], s.held, s.turn))
  {
    CancelsPart(s, order, |order|);
    assert order[..|order|] == order;
  }

  lemma {:induction false} CancelsPart(s: State, order: seq<string>, n: nat)
    requires n <= |order| && Lists(order, s.asking.pending)
    ensures var t := ResolveAll(s, order[..n]);
            && Has(s, t, Effect(Cancels(order[..n]), [], s.held, s.turn))
            && forall r :: r in t.asking.pending <==> r in order && r !in order[..n]
    decreases n
  {
    Same(s);
    if n > 0 {
      hide OnlyResolves, Silent, SameSignIn;
      CancelsPart(s, order, n - 1);
      assert order[..n][..n - 1] == order[..n - 1] && order[..n] == order[..n - 1] + [order[n - 1]];
      assert order[n - 1] !in order[..n - 1];
      CancelDoes(ResolveAll(s, order[..n - 1]), order[n - 1]);
    }
  }

  lemma CancelDoes(s: State, req: string)
    ensures Has(s, Resolve(s, req, Canceled),
                Effect(if req in s.asking.pending then [Outcome(req, Canceled)] else [], [], s.held, s.turn))
    ensures forall r :: r in Resolve(s, req, Canceled).asking.pending <==> r in s.asking.pending && r != req
  {
    hide Silent, SameSignIn, SameEvents, OnlyResolves;
    Same(s);
  }

  lemma EndDoes(s: State, order: seq<string>, result: TurnResult, why: Reason)
    requires Lists(order, s.asking.pending)
    ensures Has(s, EndTurn(s, order, result, why),
                Effect(EndShows(s, order, TurnEnded(result, why)), [], s.held, Turn(false, false, false, false)))
  {
    hide ResolveAll, OnlyResolves, Silent, SameSignIn, SameEvents, Lists, Cancels;
    CancelsDo(s, order);
    FinishDoes(ResolveAll(s, order), result, why);
  }

  lemma FinishDoes(s: State, result: TurnResult, why: Reason)
    ensures Has(s, Finish(s, result, why),
                Effect([TurnEnded(result, why)]
                    + (if s.turn.doneAfter && result == Completed then [Done(true)] else []),
                       [], s.held, Turn(false, false, false, false)))
  {
    hide Silent, SameSignIn, SameEvents;
    Same(s);
  }

  lemma ResultDoes(s: State, m: Message, order: seq<string>, stale: bool)
    requires m.Result? && Lists(order, s.asking.pending)
    ensures Has(s, OnResult(s, m.ok, m.contextFull, order, stale),
                Effect(MessageShows(s, m, order), [], s.held, Turn(false, false, false, false)))
  {
    hide EndTurn, ScheduleRetry, EndShows, Lists, Silent, SameSignIn;
    var end := ResultReads(s, m.ok, m.contextFull);
    var s1 := if end.result == Completed && !s.foreign then s.(signIn := s.signIn.(refreshRetries := 0)) else s;
    EndDoes(s1, order, end.result, end.why);
    SameEnd(s, s1, order, end);
    var s2 := EndTurn(s1, order, end.result, end.why);
    ScheduleDoes(s2, s.turn.recapping, stale);
    assert EndShows(s, order, end) + [] == EndShows(s, order, end);
  }

  lemma SameEnd(s: State, t: State, order: seq<string>, end: Event)
    requires end.TurnEnded? && t.turn == s.turn
    ensures EndShows(t, order, end) == EndShows(s, order, end)
  {
  }

  lemma ScheduleDoes(s: State, recap: bool, stale: bool)
    ensures Has(s, ScheduleRetry(s, recap, stale), Effect([Notice], [], s.held, s.turn))
  {
    hide Silent, SameSignIn, SameEvents;
    Same(s);
  }

  lemma PermissionDoes(s: State, req: string, tool: string)
    ensures Has(s, OnPermission(s, req, tool), Effect(Begins(s.turn) + [Asked(req)], [], s.held, Running(s.turn)))
    ensures OnPermission(s, req, tool).asking.pending == s.asking.pending[req := tool]
    ensures OnPermission(s, req, tool).asking.shown == s.asking.shown + [req]
  {
    hide Silent, SameSignIn, SameEvents;
    Same(s);
  }

  /** What each message does: what it adds to the record, and how the turn stands then; it sends nothing. */
  lemma MessagesDo(s: State, m: Message, order: seq<string>, stale: bool)
    requires m.Result? ==> Lists(order, s.asking.pending)
    ensures Hears(s, HandleMessage(s, m, order, stale), MessageShows(s, m, order), TurnAfter(s.turn, m))
  {
    hide OnStream, OnAssistant, OnResult, OnPermission, Resolve, Changed, Emit, Silent, SameSignIn, SameEvents,
         OnlyResolves, Lists, Has, Hears;
    var s1 := s.(past := s.past.(heard := s.past.heard + [m]));
    if Streams(m) {
      StreamDoes(s1, m, stale);
      HasHears(s1, OnStream(s1, m, stale), Effect(Begins(s.turn), [], s.held, Running(s.turn)));
      HeardHears(s, s1, OnStream(s1, m, stale), Begins(s.turn), Running(s.turn));
    } else if m.Assistant? {
      AssistantDoes(s1, m.id, m.content, m.error);
      PushedHears(s, s1, OnAssistant(s1, m.id, m.content, m.error), MessageShows(s, m, order), Running(s.turn), stale);
    } else if m.Result? {
      var t := OnResult(s1, m.ok, m.contextFull, order, stale);
      ResultDoes(s1, m, order, stale);
      SameResult(s, s1, m, order);
      HasHears(s1, t, Effect(MessageShows(s, m, order), [], s.held, Turn(false, false, false, false)));
      PushedHears(s, s1, t, MessageShows(s, m, order), Turn(false, false, false, false), stale);
    } else {
      OthersDo(s, s1, m, order, stale);
    }
  }

  lemma SameResult(s: State, t: State, m: Message, order: seq<string>)
    requires m.Result? && t.turn == s.turn && t.signIn == s.signIn
    ensures MessageShows(t, m, order) == MessageShows(s, m, order)
  {
  }

  // What was heard is no part of the record.
  lemma HeardHears(s: State, s1: State, t: State, logged: seq<Event>, turn: Turn)
    requires s1 == s.(past := s.past.(heard := s1.past.heard)) && Hears(s1, t, logged, turn)
    ensures Hears(s, t, logged, turn)
  {
  }

  lemma PushedHears(s: State, s1: State, t: State, logged: seq<Event>, turn: Turn, stale: bool)
    requires s1 == s.(past := s.past.(heard := s1.past.heard)) && Hears(s1, t, logged, turn)
    ensures Hears(s, Changed(t, stale), logged, turn)
  {
    hide Hears, Changed, Has;
    ChangedDoes(t, stale);
    HearsMoved(s1, t, Changed(t, stale), logged, turn);
    HeardHears(s, s1, Changed(t, stale), logged, turn);
  }

  lemma OthersDo(s: State, s1: State, m: Message, order: seq<string>, stale: bool)
    requires s1 == s.(past := s.past.(heard := s.past.heard + [m]))
    requires !Streams(m) && !m.Assistant? && !m.Result?
    ensures Hears(s, HandleMessage(s, m, order, stale), MessageShows(s, m, order), TurnAfter(s.turn, m))
  {
    hide OnPermission, Resolve, Changed, Emit, Silent, SameSignIn, SameEvents, OnlyResolves, Has, Hears;
    Stays(s1);
    HasHears(s1, s1, Nothing(s1));
    HeardHears(s, s1, s1, [], s.turn);
    match m
    case ToolResult(tool, _, _) =>
      EmitDoes(s1, ToolAnswered(tool));
      HasHears(s1, Emit(s1, ToolAnswered(tool)), Effect([ToolAnswered(tool)], [], s.held, s.turn));
      PushedHears(s, s1, Emit(s1, ToolAnswered(tool)), [ToolAnswered(tool)], s.turn, stale);
    case ControlRequest(req, tool) =>
      PermissionDoes(s1, req, tool);
      HasHears(s1, OnPermission(s1, req, tool), Effect(MessageShows(s, m, order), [], s.held, Running(s.turn)));
      PushedHears(s, s1, OnPermission(s1, req, tool), MessageShows(s, m, order), Running(s.turn), stale);
    case ControlCancel(req) =>
      CancelDoes(s1, req);
      HasHears(s1, Resolve(s1, req, Canceled), Effect(MessageShows(s, m, order), [], s.held, s.turn));
      PushedHears(s, s1, Resolve(s1, req, Canceled), MessageShows(s, m, order), s.turn, stale);
    case System(logs) =>
      NoticeHears(s1);
      PushedHears(s, s1, if logs then Emit(s1, Notice) else s1, MessageShows(s, m, order), s.turn, stale);
    case _ =>
  }

  /** A process is expected to exit when it is being closed, or the user stopped its turn. */
  predicate Expected(s: State) { s.stopping || s.turn.interrupted }

  /**
    An exit ends the turn that runs: as interrupted if it was expected, or else
    as an error; and the session has failed exactly if the process did and
    nobody expected it to end.
   */
  lemma ExitsDo(s: State, order: seq<string>, err: bool)
    requires Inv(s) && s.proc && Lists(order, s.asking.pending)
    ensures var t := OnExit(s, order, err);
            && Has(s, t, Effect(if !s.turn.active then []
                                else Cancels(order) + [TurnEnded(if Expected(s) then Interrupted else Errored, Plain)],
                                [], s.held, s.turn.(active := false, interrupted := false, recapping := false,
                                                    doneAfter := false)))
            && t.status == (if err && !Expected(s) then Failed else Stopped)
            && !t.proc && !t.stopping && !t.idle
  {
    TurnParts(s);
    hide Inv, EndTurn, Lists, Silent, SameSignIn, SameEvents;
    Same(s);
    var s1 := s.(proc := false);
    if s.turn.active {
      EndDoes(s1, order, if Expected(s) then Interrupted else Errored, Plain);
    }
  }

  lemma TurnParts(s: State)
    requires Inv(s)
    ensures !s.turn.active ==> s.turn == Turn(false, false, false, false)
    ensures !s.past.crashed
  {
    hide Listed, Recorded, Conserved;
  }

  // --- processes -------------------------------------------------------------------------------

  /**
    When a process is closed: by the idle timer if nothing runs or waits, by a
    stop it does not take, and by a push that finds it idle and out of date.
   */
  lemma ProcessesAreClosed(s: State, taken: bool, e: Env)
    requires Inv(s)
    ensures IdleFired(s).stopping <==> s.stopping || (s.proc && !s.turn.active && s.asking.pending == map[])
    ensures var t := Apply(s, InterruptAction(taken), e);
            s.turn.active ==> (t.stopping <==> s.stopping || !taken)
    ensures var t := Apply(s, SettingAction, e);
            && (t.stopping <==> s.stopping || (e.stale && s.proc && !s.turn.active && s.asking.pending == map[]))
            && (t.idle <==> t.proc && !t.turn.active && t.asking.pending == map[])
  {
    TurnsHaveProcesses(s);
    NothingWaitsUnless(s);
    hide Listed, Recorded, Conserved, Silent, SameSignIn, SameEvents;
  }

  lemma NothingWaitsUnless(s: State)
    requires Inv(s)
    ensures s.asking.pending != map[] ==> s.turn.active
  {
    hide Listed, Recorded, Conserved;
  }

  /** How a start goes: the running process is kept; one that does not start leaves the session failed. */
  lemma StartsGo(s: State, start: Start)
    ensures s.proc ==> EnsureProc(s, start) == s
    ensures !s.proc ==>
              var t := EnsureProc(s, start);
              && (start.NoThread? ==> t == s)
              && (start.Refused? ==> !t.proc && t.status == Failed)
              && (start.Up? ==> t.proc && t.status == Idle && t.past.heard == [])
  {
    hide Silent, SameSignIn, SameEvents;
  }

  function Words(last: seq<Input>): seq<Message> {
    if last == [] then [] else Words(last[..|last| - 1]) + [last[|last| - 1].m]
  }

  lemma {:induction false} DrainHears(s: State, last: seq<Input>)
    ensures Drain(s, last).past.heard == s.past.heard + Words(last)
    decreases |last|
  {
    if last == [] {
      assert s.past.heard + [] == s.past.heard;
    } else {
      hide HandleMessage;
      var before, i := last[..|last| - 1], last[|last| - 1];
      DrainHears(s, before);
      OneIsHeard(Drain(s, before), i.m, i.order, i.stale);
    }
  }

  lemma OneIsHeard(s: State, m: Message, order: seq<string>, stale: bool)
    ensures HandleMessage(s, m, order, stale).past.heard == s.past.heard + [m]
  {
    var s1 := s.(past := s.past.(heard := s.past.heard + [m]));
    if m.Assistant? {
      AssistantHeard(s1, m.id, m.content, m.error);
    } else if Streams(m) {
      StreamHeard(s1, m, stale);
    }
    hide OnStream, OnAssistant, OnResult, OnPermission, Resolve, Changed, Emit, SameSignIn, OnlyResolves, SameEvents;
  }

  lemma AssistantHeard(s: State, id: string, content: seq<Content>, error: AssistantError)
    ensures OnAssistant(s, id, content, error).past.heard == s.past.heard
  {
    hide OnBlocks, BeginTurn, NoteError, SameSignIn;
  }

  lemma StreamHeard(s: State, m: Message, stale: bool)
    ensures OnStream(s, m, stale).past.heard == s.past.heard
  {
    hide Changed, BeginTurn, Extend, SameSignIn;
  }

  /**
    A process that is stopped on purpose is heard out, and its exit is expected:
    a turn it leaves running is recorded as interrupted, and the session has not
    failed.
   */
  lemma StopsDo(s: State, end: Ending)
    requires Inv(s) && s.proc && Ends(s, end)
    ensures var t, last := StopProc(s, end), Drain(CloseProc(s), end.last);
            && !t.proc && !t.turn.active && t.status == Stopped
            && last.past.heard == s.past.heard + Words(end.last) && t.past.heard == last.past.heard
            && t.past.log == last.past.log
                 + (if last.turn.active then Cancels(end.order) + [TurnEnded(Interrupted, Plain)] else [])
  {
    hide Inv, Drain, OnExit, FitsAll, Lists, HandleMessage;
    EndsAre(s, end);
    ClosingKeeps(s);
    DrainKeeps(CloseProc(s), end.last);
    DrainHears(CloseProc(s), end.last);
    DrainStaysClosing(CloseProc(s), end.last);
    var last := Drain(CloseProc(s), end.last);
    ExitsDo(last, end.order, end.err);
    ExitHeard(last, end.order, end.err);
    assert last.past.log + [] == last.past.log;
  }

  lemma {:induction false} DrainStaysClosing(s: State, last: seq<Input>)
    requires s.stopping
    ensures Drain(s, last).stopping
    decreases |last|
  {
    hide HandleMessage;
    if last != [] {
      var before, i := last[..|last| - 1], last[|last| - 1];
      DrainStaysClosing(s, before);
      MessageStaysClosing(Drain(s, before), i.m, i.order, i.stale);
    }
  }

  lemma MessageStaysClosing(s: State, m: Message, order: seq<string>, stale: bool)
    requires s.stopping
    ensures HandleMessage(s, m, order, stale).stopping
  {
    var s1 := s.(past := s.past.(heard := s.past.heard + [m]));
    match m
    case Assistant(id, content, error) => ShownStaysClosing(s1, id, content, error);
    case Result(_, _, _) => EndStaysClosing(s1, m, order, stale);
    case MessageStart(_) => StreamStaysClosing(s1, m, stale);
    case BlockStart(_, _) => StreamStaysClosing(s1, m, stale);
    case Delta(_, _, _) => StreamStaysClosing(s1, m, stale);
    case StreamOther => StreamStaysClosing(s1, m, stale);
    case _ =>
    hide OnStream, OnAssistant, OnResult, Silent, SameSignIn, SameEvents;
  }

  lemma StreamStaysClosing(s: State, m: Message, stale: bool)
    requires s.stopping
    ensures OnStream(s, m, stale).stopping
  {
    hide Extend, Silent, SameSignIn, SameEvents;
  }

  lemma ShownStaysClosing(s: State, id: string, content: seq<Content>, error: AssistantError)
    requires s.stopping
    ensures OnAssistant(s, id, content, error).stopping
  {
    hide OnBlocks, Silent, SameSignIn, SameEvents;
  }

  lemma EndStaysClosing(s: State, m: Message, order: seq<string>, stale: bool)
    requires s.stopping && m.Result?
    ensures OnResult(s, m.ok, m.contextFull, order, stale).stopping
  {
    hide EndTurn, ScheduleRetry, ResultOf, ReasonOf;
    var result := ResultOf(s, m.ok);
    var why := if result == Errored then ReasonOf(s, m.contextFull) else Plain;
    var s1 := if result == Completed && !s.foreign then s.(signIn := s.signIn.(refreshRetries := 0)) else s;
    TurnEndStaysClosing(s1, order, result, why);
    ScheduleStaysClosing(EndTurn(s1, order, result, why), s.turn.recapping, stale);
  }

  lemma TurnEndStaysClosing(s: State, order: seq<string>, result: TurnResult, why: Reason)
    ensures EndTurn(s, order, result, why).stopping == s.stopping
  {
    hide ResolveAll;
  }

  lemma ScheduleStaysClosing(s: State, recap: bool, stale: bool)
    ensures s.stopping ==> ScheduleRetry(s, recap, stale).stopping
  {
    hide Silent, SameSignIn, SameEvents;
  }

  lemma ExitHeard(s: State, order: seq<string>, err: bool)
    ensures OnExit(s, order, err).past.heard == s.past.heard
  {
    hide EndTurn, Changed, SameSignIn;
  }

  /** A restart stops what runs and starts a process, which it notes; a start that fails is not noted. */
  lemma RestartsDo(s: State, end: Ending, e: Env)
    requires Inv(s) && (s.proc ==> Ends(s, end))
    ensures var t, s1 := Apply(s, RestartAction(end), e), if s.proc then StopProc(s, end) else s;
            && (t.proc <==> e.start.Up?)
            && t.past.log == s1.past.log + (if t.proc then [Notice] else [])
            && (t.proc ==> t.past.heard == [] && !t.turn.active)
  {
    hide Inv, StopProc, EnsureProc, Emit, Changed, Ends, SameSignIn, SameEvents;
    if s.proc {
      StopKeeps(s, end);
    }
    TurnsHaveProcesses(s);
    var s1 := if s.proc then StopProc(s, end) else s;
    StartDoes(s1, e.start);
    EmitDoes(EnsureProc(s1, e.start), Notice);
    ChangedDoes(Restart(s, end, e), e.stale);
    assert s1.past.log + [] == s1.past.log;
  }

  /** Whether a rewind goes through: between turns, of a prompt that is found, with its files restored if asked for. */
  predicate GoesThrough(s: State, w: Rewinding, e: Env) {
    && !s.foreign && !s.turn.active && w.found
    && (w.files ==> (s.proc || e.start.Up?) && w.restores)
  }

  /**
    A rewind that goes through leaves no process, and is recorded last if the
    store has it; another changes no record.
   */
  lemma RewindsDo(s: State, w: Rewinding, end: Ending, e: Env)
    requires Inv(s) && Enabled(s, RewindAction(w, end), e)
    ensures var t := Apply(s, RewindAction(w, end), e);
            if GoesThrough(s, w, e) then
              !t.proc && (w.saves ==> t.past.log != [] && t.past.log[|t.past.log| - 1] == Rewound)
            else t.past.log == s.past.log && t.turn == s.turn && t.held == s.held && t.past.sent == s.past.sent
  {
    hide Inv, StopProc, EnsureProc, Emit, Changed, Ends, SameSignIn, SameEvents;
    StartKeeps(s, e.start);
    StartDoes(s, e.start);
    ChangedDoes(Rewind(s, w, end, e), e.stale);
    var s1 := Restoring(s, w, e);
    if s1.proc {
      StopKeeps(s1, end);
    }
    EmitDoes(if s1.proc then StopProc(s1, end) else s1, Rewound);
    Same(s);
  }

  // --- streamed blocks ---------------------------------------------------------------------------

  /** A complete block takes the oldest streamed one of its kind in its API message, and leaves the others in order. */
  lemma TakesTheOldest(streaming: seq<Entry>, id: string, kind: Kind) returns (i: nat)
    ensures i <= |streaming|
    ensures forall j :: 0 <= j < i ==> streaming[j].kind != kind || !(id + ":" <= streaming[j].key)
    ensures i < |streaming| ==>
              && streaming[i].kind == kind && id + ":" <= streaming[i].key
              && TakeStream(streaming, id, kind) == (Some(streaming[i].key), streaming[..i] + streaming[i + 1..])
    ensures i == |streaming| ==> TakeStream(streaming, id, kind) == (None, streaming)
  {
    i := FirstToTake(streaming, id, kind);
    TakesTheFirst(streaming, i, id, kind);
    hide TakeStream;
  }

  /** Position i is the first whose block is taken, or the end if none is. */
  predicate FirstTaken(streaming: seq<Entry>, i: nat, id: string, kind: Kind) {
    && i <= |streaming| && (i < |streaming| ==> Takes(streaming[i], id, kind))
    && forall j :: 0 <= j < i ==> !Takes(streaming[j], id, kind)
  }

  lemma {:induction false} FirstToTake(streaming: seq<Entry>, id: string, kind: Kind) returns (i: nat)
    ensures FirstTaken(streaming, i, id, kind)
  {
    hide Takes;
    if streaming == [] || Takes(streaming[0], id, kind) {
      i := 0;
    } else {
      i := FirstToTake(streaming[1..], id, kind);
      i := i + 1;
      assert forall j :: 0 < j < i ==> streaming[j] == streaming[1..][j - 1];
    }
  }

  lemma {:induction false} TakesTheFirst(streaming: seq<Entry>, i: nat, id: string, kind: Kind)
    requires FirstTaken(streaming, i, id, kind)
    ensures TakeStream(streaming, id, kind)
         == if i < |streaming| then (Some(streaming[i].key), streaming[..i] + streaming[i + 1..]) else (None, streaming)
    decreases i
  {
    TakeStep(streaming, id, kind);
    hide Takes, TakeStream;
    if i > 0 {
      assert FirstTaken(streaming[1..], i - 1, id, kind);
      TakesTheFirst(streaming[1..], i - 1, id, kind);
      PutBack(streaming, i - 1);
    } else {
      assert streaming != [] ==> streaming[..0] + streaming[1..] == streaming[1..];
    }
  }

  lemma TakeStep(streaming: seq<Entry>, id: string, kind: Kind)
    ensures TakeStream(streaming, id, kind)
         == if streaming == [] then (None, [])
            else if Takes(streaming[0], id, kind) then (Some(streaming[0].key), streaming[1..])
            else (TakeStream(streaming[1..], id, kind).0, [streaming[0]] + TakeStream(streaming[1..], id, kind).1)
  {
  }

  lemma PutBack(streaming: seq<Entry>, k: nat)
    requires streaming != [] && k < |streaming|
    ensures [streaming[0]] + streaming[1..] == streaming
    ensures k + 1 < |streaming| ==>
              && streaming[1..][k] == streaming[k + 1]
              && [streaming[0]] + (streaming[1..][..k] + streaming[1..][k + 1..])
                  == streaming[..k + 1] + streaming[k + 2..]
  {
  }

  /** Streamed text goes to the blocks with its key, at their end, and to no other. */
  lemma {:induction false} TextGoesToItsBlock(streaming: seq<Entry>, key: string, text: string)
    ensures |Extend(streaming, key, text)| == |streaming|
    ensures forall i :: 0 <= i < |streaming| ==>
              Extend(streaming, key, text)[i]
              == if streaming[i].key == key then streaming[i].(text := streaming[i].text + text) else streaming[i]
  {
    if streaming != [] {
      TextGoesToItsBlock(streaming[1..], key, text);
    }
  }

  /** Streamed text goes to the blocks of its API message and index. */
  lemma DeltasDo(s: State, m: Message, stale: bool)
    requires m.Delta?
    ensures var x, t := s.live, OnStream(s, m, stale).live;
            && t.msgID == x.msgID && |t.streaming| == |x.streaming|
            && forall i :: 0 <= i < |x.streaming| ==>
                 t.streaming[i] == if x.streaming[i].key != x.msgID + ":" + m.index then x.streaming[i]
                                   else x.streaming[i].(text := x.streaming[i].text + m.text)
  {
    hide Changed, BeginTurn, SameSignIn, SameEvents, Extend;
    TextGoesToItsBlock(s.live.streaming, Key(s.live.msgID, m.index), m.text);
    assert m.text == "" ==> forall e: Entry :: e.text + m.text == e.text;
  }

  /** Other stream events leave the live text, but for a block that starts, which goes by its API message and index. */
  lemma BlocksStart(s: State, m: Message, stale: bool)
    requires Streams(m) && !m.Delta?
    ensures var x, t := s.live, OnStream(s, m, stale).live;
            && t.msgID == (if m.MessageStart? then m.id else x.msgID)
            && t.streaming == if m.BlockStart? && m.blockKind.Some?
                              then x.streaming + [Entry(x.msgID + ":" + m.index, m.blockKind.value, "")]
                              else x.streaming
  {
    hide Changed, BeginTurn, SameSignIn, SameEvents;
  }
}
