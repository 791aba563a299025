/**
  What a thread's session does, as functions on its whole state: turns that
  begin and end from many handlers, the permission table, process events held
  for the next prompt, the live text, sign-in retries and the status. The class
  in Session.dfy computes these functions in place; SessionSafety.dfy proves
  what they keep.
 */
module SessionModel {
  import opened Wrappers
  import opened Messages
  import opened SessionLog

  datatype Status = Stopped | Starting | Idle | Working | Waiting | Failed

  /** A block being streamed: its key names the API message and the block's index in it. */
  datatype Entry = Entry(key: string, kind: Kind, text: string)

  /** A scheduled sign-in retry: which one, and whether it repeats a /recap. */
  datatype Timer = Timer(id: nat, recap: bool)

  datatype What = UserText(text: string) | News | Continue

  /** A message the process took, and the process events it carried. */
  datatype Sent = Sent(what: What, carries: seq<string>)

  /** How starting the process goes: its thread is unknown, it does not start, or it runs. */
  datatype Start = NoThread | Refused | Up

  /** What the world does during a handler: a process start, a send, and whether an idle process is out of date. */
  datatype Env = Env(start: Start, sendOk: bool, stale: bool)

  /** What the whole run did so far; the session itself keeps none of it. */
  datatype History = History(
    log: seq<Event>,
    sent: seq<Sent>,
    given: seq<string>,     // process events, in order of arrival
    heard: seq<Message>,    // what the running process said
    crashed: bool)          // a process that is not there was used

  /** The turn: is one running, did the user stop it, is it only a /recap, is the thread done after it. */
  datatype Turn = Turn(active: bool, interrupted: bool, recapping: bool, doneAfter: bool)

  /** The sign-in: refused in this turn, lost a race to renew it, retries so far, the armed one, and all scheduled. */
  datatype SignIn = SignIn(authFailed: bool, refreshBusy: bool, refreshRetries: nat, refreshRetry: Option<Timer>,
                           timers: nat)

  /** The waiting requests, with their tools, and as clients see them. */
  datatype Asking = Asking(pending: map<string, string>, shown: seq<string>)

  /** The blocks being streamed, and the API message they are in. */
  datatype Live = Live(streaming: seq<Entry>, msgID: string)

  datatype State = State(
    foreign: bool,          // runs another agent than Claude Code
    proc: bool,             // a process runs, or is closing
    stopping: bool,         // the process is being closed on purpose
    turn: Turn,
    signIn: SignIn,
    asking: Asking,
    live: Live,
    held: seq<string>,      // process events waiting for a prompt
    status: Status,
    idle: bool,             // the idle timer runs
    past: History)

  const RECAP := "/recap"
  const MAX_REFRESH_RETRIES := 3

  function Initial(foreign: bool): State {
    State(foreign, false, false, Turn(false, false, false, false), SignIn(false, false, 0, None, 0), Asking(map[], []),
          Live([], ""), [], Stopped, false, History([], [], [], [], false))
  }

  /** The sign-in of a turn that begins: what it had to say of the turn before is forgotten. */
  function Renewed(x: SignIn): SignIn { x.(authFailed := false, refreshBusy := false, refreshRetry := None) }

  /** The sign-in is as a turn begins with it, or as before; then no turn began. */
  predicate SameSignIn(s: State, t: State) {
    t.signIn == Renewed(s.signIn) || (t.signIn == s.signIn && (t.turn.active ==> s.turn.active))
  }

  /** The streamed text, what the process said and the sign-in are as before. */
  predicate Silent(s: State, t: State) {
    t.live == s.live && t.past.heard == s.past.heard && SameSignIn(s, t)
  }

  /** The events held, and those sent, are as before. */
  predicate SameEvents(s: State, t: State) {
    t.held == s.held && t.past.sent == s.past.sent
  }

  /** As before, but that a process may have been started: it said nothing yet. */
  predicate MayStart(s: State, t: State) {
    && t.live == s.live
    && (if t.proc == s.proc then t.past.heard == s.past.heard else t.proc && t.past.heard == [])
  }

  // --- the process ----------------------------------------------------------------

  function Emit(s: State, e: Event): (t: State)
    ensures t.proc == s.proc && t.turn == s.turn
    ensures Silent(s, t)
    ensures SameEvents(s, t)
  {
    s.(past := s.past.(log := s.past.log + [e]))
  }

  /** Calls the process, which has to be there. */
  function Call(s: State): (t: State)
    ensures s.proc ==> t == s
    ensures Silent(s, t) && t.proc == s.proc
  {
    if s.proc then s else s.(past := s.past.(crashed := true))
  }

  /** A message the process took. */
  function Post(s: State, sent: Sent): (t: State)
    ensures Silent(s, t) && t.proc == s.proc
    ensures t.status == s.status && t.turn.active == s.turn.active && t.turn.recapping == s.turn.recapping
  {
    var s1 := Call(s);
    s1.(past := s1.past.(sent := s1.past.sent + [sent]))
  }

  function CloseProc(s: State): (t: State)
    ensures Silent(s, t) && t.proc == s.proc
  {
    Call(s).(stopping := true)
  }

  /** The status of a session with a process. */
  function Busy(pending: map<string, string>, turnActive: bool): Status {
    if pending != map[] then Waiting else if turnActive then Working else Idle
  }

  /** Recomputes and pushes the status; an idle process that is out of date is closed. */
  function Changed(s: State, stale: bool): (t: State)
    ensures t.proc == s.proc && t.turn == s.turn
    ensures Silent(s, t)
    ensures SameEvents(s, t)
  {
    var status := if s.proc && s.status != Starting then Busy(s.asking.pending, s.turn.active) else s.status;
    var closes := s.proc && status == Idle && !s.stopping && stale;
    s.(status := status, idle := status == Idle, stopping := s.stopping || closes)
  }

  /** Starts the process if none runs; one runs afterwards unless that failed. */
  function EnsureProc(s: State, start: Start): (t: State)
    ensures t.proc <==> s.proc || start.Up?
    ensures MayStart(s, t) && t.signIn == s.signIn && t.turn == s.turn
  {
    if s.proc || start.NoThread? then s
    else
      var s1 := Changed(s.(status := Starting), false);
      if start.Refused? then s1.(status := Failed)
      else s1.(proc := true, status := Idle, past := s1.past.(heard := []))
  }

  // --- turns ------------------------------------------------------------------------

  function BeginTurn(s: State): (t: State)
    ensures t.proc == s.proc && t.turn.active
    ensures Silent(s, t)
    ensures SameEvents(s, t)
  {
    Emit(s.(turn := s.turn.(active := true, interrupted := false),
            signIn := Renewed(s.signIn)),
         TurnStarted)
  }

  /** The first x is left out. */
  function Without(xs: seq<string>, x: string): seq<string> {
    if xs == [] then []
    else if xs[0] == x then xs[1..]
    else [xs[0]] + Without(xs[1..], x)
  }

  /** Resolving requests changes the table, the list and the record, and nothing else. */
  predicate OnlyResolves(s: State, t: State) {
    t == s.(asking := Asking(t.asking.pending, t.asking.shown), past := s.past.(log := t.past.log))
  }

  /** Records the outcome of a waiting request and forgets it. */
  function Resolve(s: State, req: string, d: Decision): (t: State)
    ensures OnlyResolves(s, t) && t.proc == s.proc
    ensures Silent(s, t)
  {
    if req !in s.asking.pending then s
    else Emit(s.(asking := Asking(s.asking.pending - {req}, Without(s.asking.shown, req))), Outcome(req, d))
  }

  function ResolveAll(s: State, order: seq<string>): (t: State)
    ensures OnlyResolves(s, t) && t.proc == s.proc
    ensures Silent(s, t)
  {
    if order == [] then s else Resolve(ResolveAll(s, order[..|order| - 1]), order[|order| - 1], Canceled)
  }

  /** The turn ends: what waits is canceled, in the order the runtime walks it, and the thread may be done. */
  function EndTurn(s: State, order: seq<string>, result: TurnResult, why: Reason): (t: State)
    ensures t.proc == s.proc
    ensures t.live.msgID == s.live.msgID && t.past.heard == s.past.heard && t.live.streaming == []
    ensures t.signIn == s.signIn
  {
    Finish(ResolveAll(s, order), result, why)
  }

  function Finish(s: State, result: TurnResult, why: Reason): (t: State)
    ensures t.proc == s.proc
    ensures t.live.msgID == s.live.msgID && t.past.heard == s.past.heard && t.live.streaming == []
    ensures t.signIn == s.signIn
  {
    var s1 := Emit(s.(turn := s.turn.(active := false, interrupted := false, doneAfter := false),
                       live := s.live.(streaming := [])),
                   TurnEnded(result, why));
    var s2 := if s.turn.doneAfter && result == Completed then Emit(s1, Done(true)) else s1;
    s2.(turn := s2.turn.(recapping := false))
  }

  /** An order in which the runtime may walk the waiting requests. */
  ghost predicate Lists(order: seq<string>, pending: map<string, string>) {
    && (forall r :: r in pending <==> r in order)
    && (forall i, j :: 0 <= i < j < |order| ==> order[i] != order[j])
  }

  // --- what the user asks for ----------------------------------------------------------

  /** A prompt (trimmed): it starts a turn or joins one, with the events held so far unless it is a recap of its own. */
  function Send(s: State, text: string, files: nat, resolves: bool, readable: bool, e: Env): (t: State)
    ensures MayStart(s, t) && SameSignIn(s, t)
  {
    if (text == "" && files == 0) || !resolves then s
    else
      var recap := !s.turn.active && text == RECAP && files == 0;
      Prompt(EnsureProc(s.(turn := s.turn.(recapping := recap)), e.start), text, files > 0 && !readable, recap, e)
  }

  /** The prompt goes out if a process runs and the files can be read. */
  function Prompt(s: State, text: string, unreadable: bool, recap: bool, e: Env): (t: State)
    ensures MayStart(s, t) && SameSignIn(s, t)
  {
    if !s.proc then s.(turn := s.turn.(recapping := false))
    else if unreadable then s
    else SendTo(s, text, recap, e)
  }

  /** The prompt is part of a turn: one it starts, or the one running, whose thread is then not done. */
  function Joined(s: State, text: string, recap: bool, stale: bool): (t: State)
    ensures Silent(s, t) && t.proc == s.proc && SameEvents(s, t) && t.turn.active
  {
    hide Changed, Emit, BeginTurn;
    var s1 := if !s.turn.active then BeginTurn(s)
              else if !recap then s.(turn := s.turn.(doneAfter := false))
              else s;
    Changed(Emit(s1, Prompted(text)), stale)
  }

  function SendTo(s: State, text: string, recap: bool, e: Env): (t: State)
    ensures Silent(s, t) && t.proc == s.proc && t.turn.active
  {
    var withHeld := !recap && s.held != [];
    var s1 := Joined(s, text, recap, e.stale);
    if !e.sendOk then Call(s1)
    else if withHeld then Post(s1, Sent(UserText(text), s1.held)).(held := [])
    else Post(s1, Sent(UserText(text), []))
  }

  /** The user's own prompt gets sign-in retries of its own. */
  function UserSend(s: State, text: string, files: nat, resolves: bool, readable: bool, e: Env): (t: State)
    ensures MayStart(s, t) && SameSignIn(s.(signIn := s.signIn.(refreshRetries := 0)), t)
  {
    Changed(Send(s.(signIn := s.signIn.(refreshRetries := 0)), text, files, resolves, readable, e), e.stale)
  }

  function Interrupt(s: State, taken: bool): (t: State)
    ensures Silent(s, t) && t.proc == s.proc
  {
    if !s.proc || !s.turn.active then s
    else
      var s1 := s.(turn := s.turn.(interrupted := true));
      if taken then s1 else CloseProc(s1)
  }

  /** The user's answer: only a waiting request takes one, and it stays waiting if the process did not get it. */
  function Respond(s: State, req: string, choice: Option<Choice>, taken: bool): (t: State)
    ensures Silent(s, t) && t.proc == s.proc
  {
    if req !in s.asking.pending || choice.None? then s
    else if taken then Resolve(Call(s), req, Chosen(choice.value)) else Call(s)
  }

  /** The agent marks its thread done: when its turn completes, or at once. */
  function MarkDone(s: State): (t: State)
    ensures Silent(s, t) && t.proc == s.proc
  {
    if s.turn.active then Emit(s.(turn := s.turn.(doneAfter := true)), DoneWanted) else Emit(s, Done(false))
  }

  // --- process events --------------------------------------------------------------------

  function HearsHow(s: State, wake: bool): Hearing {
    if wake && s.turn.active && s.proc then InTurn else if wake then Wakes else Later
  }

  /** A process event is logged; how it is told comes next. */
  function Given(s: State, prompt: string, how: Hearing): (t: State)
    ensures Silent(s, t) && t.proc == s.proc
  {
    Emit(s.(past := s.past.(given := s.past.given + [prompt])), ProcessHeard(how))
  }

  function Tell(s: State, prompt: string, how: Hearing, e: Env): (t: State)
    ensures MayStart(s, t) && SameSignIn(s, t)
  {
    match how
    case InTurn => if e.sendOk then Post(s, Sent(News, [prompt])) else Call(s).(held := s.held + [prompt])
    case Wakes => Wake(s.(held := s.held + [prompt]), e)
    case Later => s.(held := s.held + [prompt])
  }

  /** A process did something: it joins the turn, starts one, or waits for the next prompt. */
  function ProcessEvent(s: State, prompt: string, wake: bool, e: Env): (t: State)
    ensures MayStart(s, t) && SameSignIn(s, t)
  {
    var how := HearsHow(s, wake);
    Changed(Tell(Given(s, prompt, how), prompt, how, e), e.stale)
  }

  /** A turn for the events held. */
  function Wake(s: State, e: Env): (t: State)
    ensures MayStart(s, t) && SameSignIn(s, t)
  {
    hide EnsureProc, Changed, Emit, BeginTurn, Resume, Post;
    var s1 := EnsureProc(s, e.start);
    if !s1.proc then Emit(s1, Notice)
    else if e.sendOk then Post(BeginTurn(s1), Sent(News, s1.held)).(held := [])
    else Call(BeginTurn(s1))
  }

  /** A turn that goes on where the last one stopped. */
  function Resume(s: State, e: Env): (t: State)
    ensures Silent(s, t) && t.proc == s.proc
  {
    if e.sendOk then Post(s, Sent(Continue, [])) else Call(s)
  }

  /** A turn that a restart of the daemon interrupted goes on. */
  function ContinueTurn(s: State, e: Env): (t: State)
    ensures MayStart(s, t) && SameSignIn(s, t)
  {
    hide EnsureProc, Changed, Emit, BeginTurn, Resume, Post;
    var s1 := EnsureProc(s, e.start);
    if !s1.proc then Changed(Emit(s1, Notice), e.stale)
    else Changed(Resume(Emit(if s1.turn.active then s1 else BeginTurn(s1), Notice), e), e.stale)
  }

  /** A turn of its own that goes on where the failed one stopped. */
  function Continued(s: State, e: Env): (t: State)
    ensures MayStart(s, t) && SameSignIn(s, t)
  {
    hide EnsureProc, Changed, Emit, BeginTurn, Resume;
    var s1 := EnsureProc(s, e.start);
    if !s1.proc then Changed(Emit(s1, Notice), e.stale)
    else Changed(Resume(BeginTurn(s1), e), e.stale)
  }

  /** A sign-in retry's timer fires: nothing happens unless it is the one still armed. */
  function RetryFired(s: State, timer: Timer, e: Env): (t: State)
    ensures MayStart(s, t) && (t == s || SameSignIn(s.(signIn := s.signIn.(refreshRetry := None)), t))
  {
    hide Send, Continued;
    if s.signIn.refreshRetry != Some(timer) then s
    else
      var s1 := s.(signIn := s.signIn.(refreshRetry := None));
      if timer.recap then Send(s1, RECAP, 0, true, true, e) else Continued(s1, e)
  }

  /** The idle timer fires. */
  function IdleFired(s: State): (t: State)
    ensures Silent(s, t) && t.proc == s.proc
  {
    var s1 := s.(idle := false);
    if s.proc && s.status == Idle then CloseProc(s1) else s1
  }

  // --- what the process says ----------------------------------------------------------------

  function Key(msgID: string, index: string): string { msgID + ":" + index }

  /** Adds text to every block with the key. */
  function Extend(streaming: seq<Entry>, key: string, text: string): seq<Entry> {
    if streaming == [] then []
    else
      var e := streaming[0];
      [if e.key == key then e.(text := e.text + text) else e] + Extend(streaming[1..], key, text)
  }

  function OnStream(s: State, m: Message, stale: bool): (t: State)
    ensures t.proc == s.proc
    ensures SameSignIn(s, t)
  {
    var s1 := if s.turn.active then s else Changed(BeginTurn(s), stale);
    match m
    case MessageStart(id) => s1.(live := s1.live.(msgID := id))
    case BlockStart(index, Some(kind)) =>
      s1.(live := s1.live.(streaming := s1.live.streaming + [Entry(Key(s1.live.msgID, index), kind, "")]))
    case Delta(index, _, text) =>
      if text == "" then s1
      else s1.(live := s1.live.(streaming := Extend(s1.live.streaming, Key(s1.live.msgID, index), text)))
    case _ => s1
  }

  predicate Takes(e: Entry, msgID: string, kind: Kind) {
    e.kind == kind && (msgID + ":") <= e.key
  }

  /** The oldest block of a kind in an API message, and the others. */
  function TakeStream(streaming: seq<Entry>, msgID: string, kind: Kind): (Option<string>, seq<Entry>) {
    if streaming == [] then (None, [])
    else if Takes(streaming[0], msgID, kind) then (Some(streaming[0].key), streaming[1..])
    else var (key, rest) := TakeStream(streaming[1..], msgID, kind);
         (key, [streaming[0]] + rest)
  }

  /** Blocks of a complete message change the streamed ones and the record, and nothing else. */
  predicate OnlyShows(s: State, t: State) {
    t == s.(live := s.live.(streaming := t.live.streaming), past := s.past.(log := t.past.log))
  }

  /** A complete block takes its streamed one. */
  function ShowBlock(s: State, id: string, kind: Kind, said: string, visible: bool): (t: State)
    ensures OnlyShows(s, t) && t.proc == s.proc && t.live.streaming == TakeStream(s.live.streaming, id, kind).1
    ensures t.past.log
        == s.past.log + (if visible then [Said(kind, said, TakeStream(s.live.streaming, id, kind).0)] else [])
  {
    var (key, rest) := TakeStream(s.live.streaming, id, kind);
    var s1 := s.(live := s.live.(streaming := rest));
    if visible then Emit(s1, Said(kind, said, key)) else s1
  }

  /** What a complete block leaves of the streamed ones. */
  function Left(streaming: seq<Entry>, id: string, c: Content): seq<Entry> {
    match c
    case TextBlock(_) => TakeStream(streaming, id, Text).1
    case ThinkingBlock(_) => TakeStream(streaming, id, Thinking).1
    case _ => streaming
  }

  /** One block of a complete message; thinking that is not shown still takes its streamed block. */
  function OnBlock(s: State, id: string, c: Content): (t: State)
    ensures OnlyShows(s, t) && t.proc == s.proc && t.live.streaming == Left(s.live.streaming, id, c)
  {
    match c
    case TextBlock(t) => ShowBlock(s, id, Text, t, true)
    case ThinkingBlock(t) => ShowBlock(s, id, Thinking, t, t != "")
    case ToolBlock(tool) => Emit(s, ToolShown(tool))
    case OtherBlock => s
  }

  function OnBlocks(s: State, id: string, content: seq<Content>): (t: State)
    ensures OnlyShows(s, t) && t.proc == s.proc
  {
    if content == [] then s else OnBlock(OnBlocks(s, id, content[..|content| - 1]), id, content[|content| - 1])
  }

  /** Losing the race to renew the sign-in is retried, a few times; any other sign-in failure counts. */
  function NoteError(s: State, error: AssistantError): (t: State)
    ensures t.turn.active == s.turn.active && t.turn.recapping == s.turn.recapping && t == s.(signIn := t.signIn)
  {
    if !error.SignedOut? then s
    else if error.contended && s.signIn.refreshRetries < MAX_REFRESH_RETRIES then
      s.(signIn := s.signIn.(refreshBusy := true))
    else s.(signIn := s.signIn.(authFailed := true))
  }

  function OnAssistant(s: State, id: string, content: seq<Content>, error: AssistantError): (t: State)
    ensures t.proc == s.proc
    ensures t.signIn == NoteError(if s.turn.active then s else BeginTurn(s), error).signIn
  {
    var s1 := NoteError(if s.turn.active then s else BeginTurn(s), error);
    var s2 := OnBlocks(s1, id, content);
    if error == NoError then s2 else Emit(s2, Notice)
  }

  function ReasonOf(s: State, contextFull: bool): Reason {
    if contextFull then ContextFull
    else if s.signIn.authFailed then SignedOutReason
    else if s.signIn.refreshBusy then RefreshBusy
    else Plain
  }

  function ResultOf(s: State, ok: bool): TurnResult {
    if s.turn.interrupted then Interrupted else if ok then Completed else Errored
  }

  /** The turn's result; one that lost the race to renew the sign-in is retried later. */
  function OnResult(s: State, ok: bool, contextFull: bool, order: seq<string>, stale: bool): (t: State)
    ensures t.proc == s.proc
    ensures t.live.msgID == s.live.msgID && t.past.heard == s.past.heard && t.live.streaming == []
  {
    hide EndTurn, ScheduleRetry, ResultOf, ReasonOf;
    var result := ResultOf(s, ok);
    var why := if result == Errored then ReasonOf(s, contextFull) else Plain;
    var s1 := if result == Completed && !s.foreign then s.(signIn := s.signIn.(refreshRetries := 0)) else s;
    var s2 := EndTurn(s1, order, result, why);
    if why == RefreshBusy then ScheduleRetry(s2, s.turn.recapping, stale) else s2
  }

  function ScheduleRetry(s: State, recap: bool, stale: bool): (t: State)
    ensures t.proc == s.proc
    ensures t.live == s.live && t.past.heard == s.past.heard
  {
    var s1 := Changed(Emit(s.(signIn := s.signIn.(refreshRetries := s.signIn.refreshRetries + 1)), Notice), stale);
    s1.(signIn := s1.signIn.(refreshRetry := Some(Timer(s1.signIn.timers, recap)), timers := s1.signIn.timers + 1))
  }

  function OnPermission(s: State, req: string, tool: string): (t: State)
    ensures t.proc == s.proc
    ensures Silent(s, t)
  {
    var s1 := if s.turn.active then s else BeginTurn(s);
    Emit(s1.(asking := Asking(s1.asking.pending[req := tool], s1.asking.shown + [req])), Asked(req))
  }

  predicate Streams(m: Message) { m.MessageStart? || m.BlockStart? || m.Delta? || m.StreamOther? }

  /** One message of the process. */
  function HandleMessage(s: State, m: Message, order: seq<string>, stale: bool): (t: State)
    ensures t.proc == s.proc
  {
    hide OnStream, OnAssistant, OnResult, OnPermission, Resolve, Changed, Emit, OnlyResolves, Silent, SameEvents;
    var s1 := s.(past := s.past.(heard := s.past.heard + [m]));
    if Streams(m) then OnStream(s1, m, stale)
    else match m
    case Assistant(id, content, error) => Changed(OnAssistant(s1, id, content, error), stale)
    case ToolResult(tool, _, _) => Changed(Emit(s1, ToolAnswered(tool)), stale)
    case Result(ok, full, _) => Changed(OnResult(s1, ok, full, order, stale), stale)
    case ControlRequest(req, tool) => Changed(OnPermission(s1, req, tool), stale)
    case ControlCancel(req) => Changed(Resolve(s1, req, Canceled), stale)
    case System(logs) => Changed(if logs then Emit(s1, Notice) else s1, stale)
    case _ => s1
  }

  /** The process ended, on purpose or not. */
  function OnExit(s: State, order: seq<string>, err: bool): (t: State)
    ensures SameSignIn(s, t)
  {
    hide EndTurn, Changed;
    var s1 := Call(s);
    var expected := s1.stopping || s1.turn.interrupted;
    var s2 := s1.(proc := false);
    var s3 := if s.turn.active then EndTurn(s2, order, if expected then Interrupted else Errored, Plain) else s2;
    Changed(s3.(status := if err && !expected then Failed else Stopped, stopping := false,
                turn := s3.turn.(interrupted := false)), false)
  }

  // --- restarts and rewinds -----------------------------------------------------------------

  /** A message with the order in which its handler may walk the waiting requests. */
  datatype Input = Input(m: Message, order: seq<string>, stale: bool)

  /** A closing process's last words and its end. */
  datatype Ending = Ending(last: seq<Input>, order: seq<string>, err: bool)

  function Drain(s: State, last: seq<Input>): (t: State)
    ensures t.proc == s.proc
    decreases |last|
  {
    hide HandleMessage;
    if last == [] then s
    else
      var i := last[|last| - 1];
      HandleMessage(Drain(s, last[..|last| - 1]), i.m, i.order, i.stale)
  }

  /** Ends the process: its remaining messages, then its exit. */
  function StopProc(s: State, end: Ending): State {
    OnExit(Drain(CloseProc(s), end.last), end.order, end.err)
  }

  function Restart(s: State, end: Ending, e: Env): State {
    var s1 := EnsureProc(if s.proc then StopProc(s, end) else s, e.start);
    if s1.proc then Emit(s1, Notice) else s1
  }

  /** What a rewind meets: the prompt is found, files are to be restored and that works, the store saves it. */
  datatype Rewinding = Rewinding(found: bool, files: bool, restores: bool, saves: bool)

  /** Rolls the conversation back, between turns only. */
  function Rewind(s: State, w: Rewinding, end: Ending, e: Env): State {
    if s.foreign || s.turn.active || !w.found then s
    else
      var s1 := if w.files then EnsureProc(s, e.start) else s;
      if w.files && !(s1.proc && w.restores) then s1
      else
        var s2 := if s1.proc then StopProc(s1, end) else s1;
        if w.saves then Emit(s2, Rewound) else s2
  }
}
