/**
  What a harness connection does, as functions on its whole state: the
  translation of an ACP agent's updates into the engine's message stream, the
  prompt queue, the permission table, the exit and the pump. The class in
  Conn.dfy computes these functions in place; ConnSafety.dfy proves what they
  keep.
 */
module ConnModel {
  import opened Wrappers
  import opened Messages

  /** The block being streamed of one kind: no id means none. */
  datatype Stream = Stream(id: Option<string>, text: string)

  const NoStream: Stream := Stream(None, "")

  /** What is known of a tool call. How it is named and shaped is left out. */
  datatype ToolCall = ToolCall(emitted: bool, output: string)

  datatype ToolStatus = Unset | Pending | InProgress | Finished | Failed

  datatype ToolContent = Diff | Content(text: string) | Terminal

  datatype Update =
    | AgentChunk(text: string)
    | ThoughtChunk(text: string)
    | UserChunk
    | Tool(id: string, status: ToolStatus, contents: seq<ToolContent>, raw: Option<string>)
    | Plan
    | Setting(reports: bool)   // commands, mode, config or usage; reports: there is something to tell

  datatype Part = TextPart(text: string) | ImagePart(data: Option<string>) | OtherPart
  type Prompt = seq<Part>

  /** How the agent's call ended: an error, or a stop reason. */
  datatype Outcome = CallError(text: string) | Stopped(reason: string)

  datatype Options = Options(allow: string, allowSession: string, deny: string)

  /** A permission request's reply channel (of capacity one): what was ever sent on it, and whether it was closed. */
  datatype Chan = Chan(sent: seq<string>, closed: bool)

  /** What the whole run did so far; the connection itself keeps none of it. */
  datatype History = History(
    emitted: seq<Message>,     // everything that ever went out
    delivered: seq<Message>,   // ... as far as the engine has it
    heardText: string,         // the text chunks that were translated, joined
    heardThought: string,
    sends: seq<Prompt>,        // prompts accepted by Send, in order
    started: seq<Prompt>,      // prompts begun, in order
    dropped: seq<Prompt>)      // prompts an Interrupt took off the queue

  datatype State = State(
    out: seq<Message>,             // waiting to go out
    ended: bool,                   // the agent exited: nothing more comes
    loading: bool,                 // session/load is replaying the conversation
    prompting: bool,
    queued: seq<Prompt>,
    tools: map<string, ToolCall>,
    text: Stream,
    thought: Stream,
    pending: map<string, Options>,
    replies: map<string, Chan>,    // the reply channel of every request so far
    hand: seq<Message>,            // what the pump has taken and not yet handed over
    closed: bool,                  // the message channel is closed
    callers: seq<Prompt>,          // the goroutines inside prompt()
    inflight: map<string, string>, // Respond calls between their unlock and their send
    past: History)

  const Initial: State :=
    State([], false, false, false, [], map[], NoStream, NoStream, map[], map[], [], false, [], map[],
          History([], [], "", "", [], [], []))

  // --- the message stream -----------------------------------------------------

  /** Of the run so far, t differs from s in what went out at most; after the exit nothing did. */
  predicate OnlySays(s: State, t: State) {
    && t.ended == s.ended && t.past == s.past.(emitted := t.past.emitted)
    && (s.ended ==> t.past.emitted == s.past.emitted)
  }

  /** The permission requests are as before. */
  predicate SameRequests(s: State, t: State) {
    t.pending == s.pending && t.inflight == s.inflight && t.replies == s.replies
  }

  /** Messages go out in order; after the exit nothing does. */
  function Say(s: State, ms: seq<Message>): (t: State)
    ensures t.callers == s.callers && t.tools == s.tools && SameRequests(s, t) && OnlySays(s, t)
  {
    if s.ended then s else s.(out := s.out + ms, past := s.past.(emitted := s.past.emitted + ms))
  }

  function StreamOf(s: State, kind: Kind): Stream {
    if kind == Text then s.text else s.thought
  }

  function Put(s: State, kind: Kind, st: Stream): (t: State)
    ensures t.tools == s.tools && SameRequests(s, t) && OnlySays(s, t)
  {
    if kind == Text then s.(text := st) else s.(thought := st)
  }

  function Other(kind: Kind): Kind {
    if kind == Text then Thinking else Text
  }

  /** Completes the block of one kind, if one is open. */
  function FlushOne(s: State, kind: Kind): (t: State)
    ensures t.callers == s.callers && t.tools == s.tools && SameRequests(s, t) && OnlySays(s, t)
  {
    var st := StreamOf(s, kind);
    if st.id.None? then s
    else Put(Say(s, [Assistant(st.id.value, [BlockOf(kind, st.text)], NoError)]), kind, NoStream)
  }

  function Flush(s: State): (t: State)
    ensures t.callers == s.callers && t.tools == s.tools && SameRequests(s, t) && OnlySays(s, t)
  {
    FlushOne(FlushOne(s, Thinking), Text)
  }

  /** Opens a block of a kind. */
  function OpenBlock(s: State, kind: Kind, newID: string): (t: State)
    ensures SameRequests(s, t) && OnlySays(s, t)
  {
    Put(Say(s, [MessageStart(newID), BlockStart("0", Some(kind))]), kind, Stream(Some(newID), ""))
  }

  /** Adds a chunk to the open block of a kind. */
  function Append(s: State, kind: Kind, chunk: string): (t: State)
    ensures SameRequests(s, t) && t.ended == s.ended && (s.ended ==> t.past.emitted == s.past.emitted)
  {
    var st := StreamOf(s, kind);
    var s1 := Say(s, [Delta("0", kind, chunk)]);
    var s2 := if s.ended then s1
              else if kind == Text then s1.(past := s1.past.(heardText := s1.past.heardText + chunk))
              else s1.(past := s1.past.(heardThought := s1.past.heardThought + chunk));
    Put(s2, kind, st.(text := st.text + chunk))
  }

  /** A chunk joins the block of its kind; the other kind's block is completed first, and one is opened as needed. */
  function Chunk(s: State, kind: Kind, chunk: string, newID: string): (t: State)
    ensures SameRequests(s, t) && t.ended == s.ended && (s.ended ==> t.past.emitted == s.past.emitted)
  {
    if chunk == "" then s
    else
      var s1 := FlushOne(s, Other(kind));
      var s2 := if StreamOf(s1, kind).id.None? then OpenBlock(s1, kind, newID) else s1;
      Append(s2, kind, chunk)
  }

  // --- tool calls ---------------------------------------------------------------

  /** Whether a call can be shown: it is under way, or over. */
  predicate Ready(status: ToolStatus) { status in {InProgress, Finished, Failed} }

  predicate Done(status: ToolStatus) { status in {Finished, Failed} }

  /** What is known of a call: nothing, if it is new. */
  function Known(tools: map<string, ToolCall>, id: string): ToolCall {
    if id in tools then tools[id] else ToolCall(false, "")
  }

  /** A call's output is the last text its updates brought. */
  function LastText(contents: seq<ToolContent>, before: string): string {
    if contents == [] then before
    else var c := contents[|contents| - 1];
         if c.Content? && c.text != "" then c.text else LastText(contents[..|contents| - 1], before)
  }

  function ToolUse(id: string): Message { Assistant("", [ToolBlock(id)], NoError) }

  /** Shows a tool call; the open block is completed first. */
  function ShowTool(s: State, id: string): (t: State)
    ensures SameRequests(s, t) && OnlySays(s, t)
  {
    Say(Flush(s), [ToolUse(id)])
  }

  /** Shows a call the first time it is ready, and marks it as shown. */
  function Show(s: State, id: string, t: ToolCall, now: bool): (r: State)
    ensures SameRequests(s, r) && OnlySays(s, r)
    ensures id in r.tools && r.tools[id] == t.(emitted := t.emitted || now)
  {
    var s1 := if now && !t.emitted then ShowTool(s, id) else s;
    s1.(tools := s1.tools[id := t.(emitted := t.emitted || now)])
  }

  /** What a finished call answers: the output it brought, or else its raw output. */
  function Output(output: string, raw: Option<string>): string {
    if output == "" then raw.GetOr("") else output
  }

  /** A tool call or its update: shown once it runs; answered with its output, and forgotten, when it is done. */
  function ToolUpdate(s: State, id: string, status: ToolStatus, contents: seq<ToolContent>,
                      raw: Option<string>): (t: State)
    ensures SameRequests(s, t) && OnlySays(s, t)
  {
    var t := Known(s.tools, id);
    var t' := t.(output := LastText(contents, t.output));
    Answer(Show(s, id, t', Ready(status)), id, status, raw)
  }

  /** A call that was shown is answered once it is done, and forgotten. */
  function Answer(s: State, id: string, status: ToolStatus, raw: Option<string>): (t: State)
    requires id in s.tools
    ensures SameRequests(s, t) && OnlySays(s, t)
  {
    if s.tools[id].emitted && Done(status)
    then Say(s.(tools := s.tools - {id}), [ToolResult(id, Output(s.tools[id].output, raw), status == Failed)])
    else s
  }

  /** A plan is shown as a tool call that is answered at once. */
  function ShowPlan(s: State, newID: string): (t: State)
    ensures SameRequests(s, t) && OnlySays(s, t)
  {
    Say(ShowTool(s, "plan_" + newID), [ToolResult("plan_" + newID, "Plan updated", false)])
  }

  /**
    What the agent says; while a session is reloaded its old conversation is
    skipped. newID is the fresh id a new message gets.
   */
  function Notify(s: State, u: Update, newID: string): (t: State)
    ensures SameRequests(s, t) && t.ended == s.ended && (s.ended ==> t.past.emitted == s.past.emitted)
  {
    if s.loading && !u.Setting? then s else
    match u
    case AgentChunk(t) => Chunk(s, Text, t, newID)
    case ThoughtChunk(t) => Chunk(s, Thinking, t, newID)
    case Tool(id, status, contents, raw) => ToolUpdate(s, id, status, contents, raw)
    case Plan => ShowPlan(s, newID)
    case Setting(reports) => if reports then Say(s, [System(false)]) else s
    case UserChunk => s
  }

  // --- permission prompts ---------------------------------------------------------

  /**
    The agent asks: its tool is shown if it was not yet, and the request waits.
    After the exit it is cancelled at once.
   */
  function Request(s: State, req: string, tool: string, o: Options): (t: State)
    ensures OnlySays(s, t)
  {
    if s.ended then s
    else
      var s1 := Show(s, tool, Known(s.tools, tool), true);
      var s2 := Say(s1.(replies := s1.replies[req := Chan([], false)]), [ControlRequest(req, tool)]);
      s2.(pending := s2.pending[req := o])
  }

  /** The option an answer picks; allowing for the session needs both the option and the user's wish. */
  function Choice(o: Options, allow: bool, updates: bool): string {
    if !allow then o.deny
    else if updates && o.allowSession != "" then o.allowSession
    else o.allow
  }

  /** The locked half of answering: whoever takes the request answers it. */
  function Respond(s: State, req: string, allow: bool, updates: bool): State {
    if req !in s.pending then s
    else s.(pending := s.pending - {req}, inflight := s.inflight[req := Choice(s.pending[req], allow, updates)])
  }

  /** A request's reply channel. */
  function ReplyOf(s: State, req: string): Chan {
    if req in s.replies then s.replies[req] else Chan([], false)
  }

  function SendReply(s: State, req: string, value: string): (t: State)
    ensures OnlySays(s, t)
  {
    s.(replies := s.replies[req := ReplyOf(s, req).(sent := ReplyOf(s, req).sent + [value])])
  }

  /** The other half, after the unlock: the answer is sent. */
  function RespondSend(s: State, req: string): State
    requires req in s.inflight
  {
    SendReply(s.(inflight := s.inflight - {req}), req, s.inflight[req])
  }

  /** A waiting request is answered with a cancellation and withdrawn. */
  function CancelOne(s: State, req: string): (t: State)
    ensures OnlySays(s, t)
  {
    var s1 := SendReply(s, req, "");
    Say(s1.(pending := s1.pending - {req}), [ControlCancel(req)])
  }

  function CancelAll(s: State, order: seq<string>): (t: State)
    ensures OnlySays(s, t)
  {
    if order == [] then s else CancelOne(CancelAll(s, order[..|order| - 1]), order[|order| - 1])
  }

  function DropQueue(s: State): State {
    s.(queued := [], past := s.past.(dropped := s.past.dropped + s.queued))
  }

  /** An order in which the runtime may walk the waiting requests. */
  ghost predicate Lists(order: seq<string>, keys: set<string>) {
    && (forall k :: k in keys <==> k in order)
    && (forall i, j :: 0 <= i < j < |order| ==> order[i] != order[j])
  }

  /** Cancels the turn: queued prompts are dropped, and every waiting request is cancelled. */
  function Interrupt(s: State, order: seq<string>): State {
    CancelAll(DropQueue(s), order)
  }

  // --- prompts ----------------------------------------------------------------------

  predicate Accepts(p: Part, canImage: bool) {
    (p.TextPart? && p.text != "") || (p.ImagePart? && p.data.Some? && canImage)
  }

  /** The parts of a message that become the prompt. */
  function Accepted(content: seq<Part>, canImage: bool): Prompt {
    if content == [] then []
    else Accepted(content[..|content| - 1], canImage) +
         (if Accepts(content[|content| - 1], canImage) then [content[|content| - 1]] else [])
  }

  /** Sends a prompt: at once if no turn runs, else it waits for the turn to end. An empty one is skipped. */
  function Send(s: State, p: Prompt): (t: State)
    ensures SameRequests(s, t)
  {
    if p == [] then s
    else
      var s1 := s.(past := s.past.(sends := s.past.sends + [p]));
      if s.prompting then s1.(queued := s.queued + [p])
      else s1.(prompting := true, callers := s.callers + [p], past := s1.past.(started := s.past.started + [p]))
  }

  /** A turn's result: an error unless the agent ended it in an ordinary way. */
  function ResultOf(o: Outcome): Message {
    match o
    case CallError(t) => Result(false, false, t)
    case Stopped(r) =>
      if r == "max_tokens" then Result(false, false, "The reply hit the model's output limit.")
      else if r == "max_turn_requests" then Result(false, false, "The turn hit the agent's limit on model requests.")
      else if r == "refusal" then Result(false, false, "The model declined to continue.")
      else Result(true, false, "")
  }

  /** The turn's result goes out after all it streamed, and its tool calls are forgotten. */
  function EndTurn(s: State, o: Outcome): (t: State)
    ensures t.callers == s.callers && SameRequests(s, t) && OnlySays(s, t)
  {
    Say(Flush(s), [ResultOf(o)]).(tools := map[])
  }

  /** Caller i is done; the first prompt waiting takes its place. */
  function NextPrompt(s: State, i: nat): State
    requires i < |s.callers|
  {
    var left := s.callers[..i] + s.callers[i + 1..];
    if s.queued == [] then s.(prompting := false, callers := left)
    else s.(queued := s.queued[1..], callers := left + [s.queued[0]],
            past := s.past.(started := s.past.started + [s.queued[0]]))
  }

  /** The agent's call of caller i returned. */
  function PromptReturned(s: State, i: nat, o: Outcome): State
    requires i < |s.callers|
  {
    NextPrompt(EndTurn(s, o), i)
  }

  // --- the exit and the pump ----------------------------------------------------------

  function Close(replies: map<string, Chan>, waiting: set<string>): map<string, Chan> {
    map r | r in replies :: if r in waiting then replies[r].(closed := true) else replies[r]
  }

  /** The agent exited: nothing more goes out, and every waiting request is cancelled by closing its channel. */
  function Exited(s: State): State {
    s.(ended := true, pending := map[], replies := Close(s.replies, s.pending.Keys))
  }

  function PumpTake(s: State): (t: State)
    requires s.out != []
    ensures SameRequests(s, t)
  {
    s.(hand := s.hand + [s.out[0]], out := s.out[1..])
  }

  function PumpDeliver(s: State): (t: State)
    requires s.hand != []
    ensures SameRequests(s, t)
  {
    s.(hand := s.hand[1..], past := s.past.(delivered := s.past.delivered + [s.hand[0]]))
  }
}
