/**
  What every step of a harness connection keeps, and so what holds after any
  interleaving of the agent, the user, the prompt goroutine, answers in flight,
  the exit and the pump.
 */
module ConnSafety {
  import opened Wrappers
  import opened Messages
  import opened Protocol
  import opened ConnModel

  // --- the invariant ------------------------------------------------------------

  function BlocksIn(s: State): Blocks { BlockScan(s.past.emitted) }

  function LedgerIn(s: State): Ledger { LedgerScan(s.past.emitted) }

  /** The block the stream buffers hold open. */
  function Buffered(text: Stream, thought: Stream): BlockState {
    if text.id.Some? then Open(text.id.value, Text, text.text)
    else if thought.id.Some? then Open(thought.id.value, Thinking, thought.text)
    else Closed
  }

  /** The stream buffers are what the output says is open, at most one of them, and no chunk is lost. */
  ghost predicate Agree(b: Blocks, text: Stream, thought: Stream, ended: bool, heardText: string,
                        heardThought: string) {
    && b.Blocks?
    && !(text.id.Some? && thought.id.Some?)
    && (text.id.None? ==> text == NoStream)
    && (thought.id.None? ==> thought == NoStream)
    && (!ended ==> b.open == Buffered(text, thought) && b.said == heardText && b.thought == heardThought)
  }

  /** A call marked as shown has a tool use without a result. */
  ghost predicate Drawn(l: Ledger, tools: map<string, ToolCall>, ended: bool) {
    && l.Ledger?
    && (!ended ==> forall u :: u in tools && tools[u].emitted ==> u in l.unmatched && u in l.used)
  }

  /** Only registered requests were shown; what waits was shown and not withdrawn. */
  ghost predicate Prompted(l: Ledger, pending: map<string, Options>, replies: map<string, Chan>, ended: bool) {
    && l.Ledger?
    && (forall r :: r in l.asked ==> r in replies)
    && (forall r :: r in l.canceled ==> r in l.asked)
    && (!ended ==> forall r :: r in pending ==> r in l.asked && r !in l.canceled)
  }

  /** Sends and closes a reply channel has seen. */
  function Settled(c: Chan): nat { |c.sent| + (if c.closed then 1 else 0) }

  /** Every permission request is waiting, being answered, or settled exactly once; none waits after the exit. */
  ghost predicate SettledOnce(pending: map<string, Options>, inflight: map<string, string>, replies: map<string, Chan>,
                              ended: bool)
  {
    && (forall r :: r in pending ==> r in replies)
    && (forall r :: r in inflight ==> r in replies && r !in pending)
    && (forall r :: r in replies ==> Settled(replies[r]) == if r in pending || r in inflight then 0 else 1)
    && (ended ==> pending == map[])
  }

  /** One prompt runs at a time, the last one begun; others wait only while it runs. */
  ghost predicate OneAtATime(callers: seq<Prompt>, prompting: bool, queued: seq<Prompt>, started: seq<Prompt>) {
    && |callers| == (if prompting then 1 else 0)
    && (!prompting ==> queued == [])
    && (prompting ==> started != [] && callers == [started[|started| - 1]])
  }

  /** Prompts begin in the order they were sent, and each is begun, waiting or dropped: none is lost or repeated. */
  ghost predicate Kept(sends: seq<Prompt>, started: seq<Prompt>, queued: seq<Prompt>, dropped: seq<Prompt>) {
    && Subsequence(started + queued, sends)
    && multiset(sends) == multiset(started) + multiset(queued) + multiset(dropped)
  }

  /** Each prompt begun has one result, except the one still running. */
  ghost predicate OneResultEach(results: nat, running: nat, begun: nat, ended: bool) {
    !ended ==> results + running == begun
  }

  /** The pump hands everything over in order, and closes only after the exit with nothing left. */
  ghost predicate InOrder(emitted: seq<Message>, delivered: seq<Message>, hand: seq<Message>, out: seq<Message>,
                          closed: bool, ended: bool)
  {
    && emitted == delivered + hand + out
    && |hand| <= 1
    && (closed ==> ended && hand == [] && out == [])
  }

  /** The side of the invariant that reads the output. */
  ghost predicate Told(s: State) {
    var b, l := BlocksIn(s), LedgerIn(s);
    && b.Blocks? && l.Ledger?
    && Agree(b, s.text, s.thought, s.ended, s.past.heardText, s.past.heardThought)
    && Drawn(l, s.tools, s.ended)
    && Prompted(l, s.pending, s.replies, s.ended)
    && InOrder(s.past.emitted, s.past.delivered, s.hand, s.out, s.closed, s.ended)
  }

  ghost predicate Inv(s: State) {
    && Told(s)
    && OneResultEach(BlocksIn(s).results, |s.callers|, |s.past.started|, s.ended)
    && SettledOnce(s.pending, s.inflight, s.replies, s.ended)
    && OneAtATime(s.callers, s.prompting, s.queued, s.past.started)
    && Kept(s.past.sends, s.past.started, s.queued, s.past.dropped)
  }

  // --- emitting -------------------------------------------------------------------

  lemma SayOne(s: State, m: Message)
    requires !s.ended
    ensures BlocksIn(Say(s, [m])) == BlockStep(BlocksIn(s), m)
    ensures LedgerIn(Say(s, [m])) == LedgerStep(LedgerIn(s), m)
  {
    BlockScanSnoc(s.past.emitted, m);
    LedgerScanSnoc(s.past.emitted, m);
  }

  lemma SayInOrder(s: State, ms: seq<Message>)
    requires InOrder(s.past.emitted, s.past.delivered, s.hand, s.out, s.closed, s.ended)
    ensures var t := Say(s, ms); InOrder(t.past.emitted, t.past.delivered, t.hand, t.out, t.closed, t.ended)
  {
    assert (s.past.delivered + s.hand + s.out) + ms == s.past.delivered + s.hand + (s.out + ms);
  }

  lemma SayTwo(s: State, m: Message, n: Message)
    ensures Say(s, [m, n]) == Say(Say(s, [m]), [n])
  {
    assert s.out + [m, n] == s.out + [m] + [n];
    assert s.past.emitted + [m, n] == s.past.emitted + [m] + [n];
  }

  // What the automata do on each kind of message a connection emits.
  lemma OpenSteps(b: Blocks, l: Ledger, id: string, kind: Kind)
    requires b.Blocks? && b.open.Closed? && ':' !in id
    ensures BlockStep(b, MessageStart(id)) == b.(open := Named(id))
    ensures BlockStep(b.(open := Named(id)), BlockStart("0", Some(kind))) == b.(open := Open(id, kind, ""))
    ensures LedgerStep(l, MessageStart(id)) == l && LedgerStep(l, BlockStart("0", Some(kind))) == l
  {
  }

  lemma AppendStep(b: Blocks, l: Ledger, kind: Kind, chunk: string)
    requires b.Blocks? && b.open.Open? && b.open.kind == kind && chunk != ""
    ensures BlockStep(b, Delta("0", kind, chunk)) == AddDelta(b, chunk)
    ensures LedgerStep(l, Delta("0", kind, chunk)) == l
  {
  }

  lemma CompleteStep(b: Blocks, l: Ledger, id: string, kind: Kind, text: string)
    requires b.Blocks? && b.open == Open(id, kind, text)
    ensures BlockStep(b, Assistant(id, [BlockOf(kind, text)], NoError)) == b.(open := Closed)
    ensures LedgerStep(l, Assistant(id, [BlockOf(kind, text)], NoError)) == l
  {
  }

  lemma UseStep(b: Blocks, l: Ledger, id: string)
    requires b.Blocks? && b.open.Closed? && l.Ledger?
    ensures BlockStep(b, ToolUse(id)) == b
    ensures LedgerStep(l, ToolUse(id)) == l.(unmatched := l.unmatched + multiset{id}, used := l.used + {id})
  {
  }

  lemma ToolResultStep(b: Blocks, l: Ledger, id: string, output: string, failed: bool)
    requires b.Blocks? && !b.open.Named? && l.Ledger? && id in l.unmatched
    ensures BlockStep(b, ToolResult(id, output, failed)) == b
    ensures LedgerStep(l, ToolResult(id, output, failed)) == l.(unmatched := l.unmatched - multiset{id})
  {
  }

  lemma OtherSteps(b: Blocks, l: Ledger, req: string, tool: string)
    requires b.Blocks? && !b.open.Named? && l.Ledger?
    ensures BlockStep(b, System(false)) == b && LedgerStep(l, System(false)) == l
    ensures BlockStep(b, ControlRequest(req, tool)) == b && BlockStep(b, ControlCancel(req)) == b
    ensures tool in l.used && req !in l.asked ==>
              LedgerStep(l, ControlRequest(req, tool)) == l.(asked := l.asked + {req})
    ensures req in l.asked && req !in l.canceled ==>
              LedgerStep(l, ControlCancel(req)) == l.(canceled := l.canceled + {req})
  {
  }

  lemma ResultStep(b: Blocks, l: Ledger, o: Outcome)
    requires b.Blocks? && b.open.Closed?
    ensures BlockStep(b, ResultOf(o)) == b.(results := b.results + 1) && LedgerStep(l, ResultOf(o)) == l
  {
  }

  // --- the block stream -------------------------------------------------------------

  /** What translating the agent's words never touches: prompts, answers, the exit and the pump's hand. */
  function Control(s: State): State {
    s.(out := [], tools := map[], text := NoStream, thought := NoStream,
       past := s.past.(emitted := [], heardText := "", heardThought := ""))
  }

  ghost predicate Quiet(s: State, t: State) {
    t.ended == s.ended && t.pending == s.pending && t.replies == s.replies && Control(t) == Control(s)
  }

  lemma FlushOneKeeps(s: State, kind: Kind)
    requires Told(s)
    ensures FlushOne(s, kind).tools == s.tools
    ensures StreamOf(FlushOne(s, kind), kind) == NoStream
    ensures StreamOf(FlushOne(s, kind), Other(kind)) == StreamOf(s, Other(kind))
    ensures Told(FlushOne(s, kind)) && Quiet(s, FlushOne(s, kind))
    ensures LedgerIn(FlushOne(s, kind)) == LedgerIn(s) && BlocksIn(FlushOne(s, kind)).results == BlocksIn(s).results
  {
    hide BlockStep, LedgerStep, BlockScan, LedgerScan, Drawn, Prompted, InOrder;
    var st := StreamOf(s, kind);
    if st.id.Some? && !s.ended {
      var m := Assistant(st.id.value, [BlockOf(kind, st.text)], NoError);
      SayOne(s, m);
      SayInOrder(s, [m]);
      CompleteStep(BlocksIn(s), LedgerIn(s), st.id.value, kind, st.text);
    }
  }

  lemma FlushKeeps(s: State)
    requires Told(s)
    ensures Told(Flush(s)) && Quiet(s, Flush(s)) && Flush(s).tools == s.tools
        && Flush(s).text == Flush(s).thought == NoStream
    ensures LedgerIn(Flush(s)) == LedgerIn(s) && BlocksIn(Flush(s)).results == BlocksIn(s).results
    ensures !s.ended ==> BlocksIn(Flush(s)).open.Closed?
  {
    hide FlushOne, Control, BlockStep, LedgerStep, BlockScan, LedgerScan, Drawn, Prompted, InOrder;
    FlushOneKeeps(s, Thinking);
    FlushOneKeeps(FlushOne(s, Thinking), Text);
  }

  lemma Streams(s: State)
    requires Told(s)
    ensures s.text.id.None? ==> s.text == NoStream
    ensures s.thought.id.None? ==> s.thought == NoStream
  {
  }

  lemma OpenKeeps(s: State, kind: Kind, newID: string)
    requires Told(s) && s.text == s.thought == NoStream && ':' !in newID
    ensures Told(OpenBlock(s, kind, newID)) && Quiet(s, OpenBlock(s, kind, newID))
    ensures StreamOf(OpenBlock(s, kind, newID), kind).id.Some?
    ensures LedgerIn(OpenBlock(s, kind, newID)) == LedgerIn(s)
    ensures BlocksIn(OpenBlock(s, kind, newID)).results == BlocksIn(s).results
  {
    hide BlockStep, LedgerStep, BlockScan, LedgerScan, Drawn, Prompted, InOrder;
    if !s.ended {
      var m, n := MessageStart(newID), BlockStart("0", Some(kind));
      OpenSteps(BlocksIn(s), LedgerIn(s), newID, kind);
      SayTwo(s, m, n);
      SayOne(s, m);
      SayOne(Say(s, [m]), n);
      SayInOrder(s, [m, n]);
    }
  }

  lemma AppendKeeps(s: State, kind: Kind, chunk: string)
    requires Told(s) && StreamOf(s, kind).id.Some? && chunk != ""
    ensures Told(Append(s, kind, chunk)) && Quiet(s, Append(s, kind, chunk))
    ensures LedgerIn(Append(s, kind, chunk)) == LedgerIn(s)
    ensures BlocksIn(Append(s, kind, chunk)).results == BlocksIn(s).results
  {
    hide BlockStep, LedgerStep, BlockScan, LedgerScan, Drawn, Prompted, InOrder;
    if !s.ended {
      var m := Delta("0", kind, chunk);
      AppendStep(BlocksIn(s), LedgerIn(s), kind, chunk);
      SayOne(s, m);
      SayInOrder(s, [m]);
    }
  }

  lemma ChunkKeeps(s: State, kind: Kind, chunk: string, newID: string)
    requires Told(s) && ':' !in newID
    ensures Told(Chunk(s, kind, chunk, newID)) && Quiet(s, Chunk(s, kind, chunk, newID))
    ensures LedgerIn(Chunk(s, kind, chunk, newID)) == LedgerIn(s)
    ensures BlocksIn(Chunk(s, kind, chunk, newID)).results == BlocksIn(s).results
  {
    hide FlushOne, OpenBlock, Append, Control, Agree, BlockStep, LedgerStep, BlockScan, LedgerScan, Drawn, Prompted,
        InOrder;
    if chunk != "" {
      FlushOneKeeps(s, Other(kind));
      Streams(FlushOne(s, Other(kind)));
      var s1 := FlushOne(s, Other(kind));
      if StreamOf(s1, kind).id.None? {
        OpenKeeps(s1, kind, newID);
        AppendKeeps(OpenBlock(s1, kind, newID), kind, chunk);
      } else {
        AppendKeeps(s1, kind, chunk);
      }
    }
  }

  // --- tool calls ---------------------------------------------------------------------

  lemma ShowToolKeeps(s: State, id: string)
    requires Told(s)
    ensures Told(ShowTool(s, id)) && Quiet(s, ShowTool(s, id)) && ShowTool(s, id).tools == s.tools
    ensures BlocksIn(ShowTool(s, id)).results == BlocksIn(s).results
    ensures s.ended ==> LedgerIn(ShowTool(s, id)) == LedgerIn(s)
    ensures !s.ended ==>
              var l := LedgerIn(s);
              LedgerIn(ShowTool(s, id)) == l.(unmatched := l.unmatched + multiset{id}, used := l.used + {id})
  {
    hide BlockStep, LedgerStep, BlockScan, LedgerScan, InOrder, Flush;
    FlushKeeps(s);
    if !s.ended {
      UseStep(BlocksIn(Flush(s)), LedgerIn(s), id);
      SayOne(Flush(s), ToolUse(id));
      SayInOrder(Flush(s), [ToolUse(id)]);
    }
  }

  lemma KnownIsDrawn(l: Ledger, tools: map<string, ToolCall>, ended: bool, id: string)
    requires Drawn(l, tools, ended)
    ensures !ended && Known(tools, id).emitted ==> id in l.unmatched && id in l.used
  {
  }

  // Remembering or forgetting a call only touches the table of calls.
  lemma MarkKeeps(s: State, id: string, t: ToolCall)
    requires Told(s)
    requires !s.ended && t.emitted ==> id in LedgerIn(s).unmatched && id in LedgerIn(s).used
    ensures Told(s.(tools := s.tools[id := t])) && Quiet(s, s.(tools := s.tools[id := t]))
    ensures Told(s.(tools := s.tools - {id})) && Quiet(s, s.(tools := s.tools - {id}))
  {
    hide BlockStep, LedgerStep, BlockScan, LedgerScan, InOrder, Agree, Prompted;
  }

  lemma ShowKeeps(s: State, id: string, t: ToolCall, now: bool)
    requires Told(s) && t.emitted == Known(s.tools, id).emitted
    ensures Told(Show(s, id, t, now)) && Quiet(s, Show(s, id, t, now))
    ensures BlocksIn(Show(s, id, t, now)).results == BlocksIn(s).results
    ensures !s.ended && (t.emitted || now) ==> id in LedgerIn(Show(s, id, t, now)).unmatched
                                               && id in LedgerIn(Show(s, id, t, now)).used
    ensures LedgerIn(Show(s, id, t, now)).asked == LedgerIn(s).asked
    ensures Show(s, id, t, now).tools == s.tools[id := t.(emitted := t.emitted || now)]
  {
    hide BlockStep, LedgerStep, BlockScan, LedgerScan, InOrder, ShowTool, Agree, Prompted, Drawn, Control, Known;
    KnownIsDrawn(LedgerIn(s), s.tools, s.ended, id);
    if now && !t.emitted {
      ShowToolKeeps(s, id);
      MarkKeeps(ShowTool(s, id), id, t.(emitted := true));
    } else {
      MarkKeeps(s, id, t);
    }
  }

  // Emits a result for a tool that has an unanswered use and is no longer kept as shown.
  lemma AnswerKeeps(s: State, id: string, output: string, failed: bool)
    requires Told(s) && (!s.ended ==> id in LedgerIn(s).unmatched)
    requires !s.ended && id in s.tools && s.tools[id].emitted ==> LedgerIn(s).unmatched[id] > 1
    ensures var t := Say(s, [ToolResult(id, output, failed)]);
            Told(t) && Quiet(s, t) && BlocksIn(t).results == BlocksIn(s).results
  {
    hide BlockStep, LedgerStep, BlockScan, LedgerScan, InOrder;
    if !s.ended {
      ToolResultStep(BlocksIn(s), LedgerIn(s), id, output, failed);
      SayOne(s, ToolResult(id, output, failed));
      SayInOrder(s, [ToolResult(id, output, failed)]);
    }
  }

  lemma ToolUpdateKeeps(s: State, id: string, status: ToolStatus, contents: seq<ToolContent>, raw: Option<string>)
    requires Told(s)
    ensures var t := ToolUpdate(s, id, status, contents, raw);
            Told(t) && Quiet(s, t) && BlocksIn(t).results == BlocksIn(s).results
  {
    hide BlockStep, LedgerStep, BlockScan, LedgerScan, InOrder, Agree, Prompted, LastText, Output, Known, Drawn,
        Control, Show;
    var t := Known(s.tools, id);
    var t' := t.(output := LastText(contents, t.output));
    ShowKeeps(s, id, t', Ready(status));
    var s1 := Show(s, id, t', Ready(status));
    if s1.tools[id].emitted && Done(status) {
      var s2 := s1.(tools := s1.tools - {id});
      MarkKeeps(s1, id, s1.tools[id]);
      AnswerKeeps(s2, id, Output(t'.output, raw), status == Failed);
    }
  }

  lemma ShowPlanKeeps(s: State, newID: string)
    requires Told(s)
    ensures Told(ShowPlan(s, newID)) && Quiet(s, ShowPlan(s, newID))
    ensures BlocksIn(ShowPlan(s, newID)).results == BlocksIn(s).results
  {
    hide BlockStep, LedgerStep, BlockScan, LedgerScan, InOrder, ShowTool, Agree, Prompted;
    var id := "plan_" + newID;
    ShowToolKeeps(s, id);
    AnswerKeeps(ShowTool(s, id), id, "Plan updated", false);
  }

  lemma NotifyKeeps(s: State, u: Update, newID: string)
    requires Told(s) && ':' !in newID
    ensures Told(Notify(s, u, newID)) && Quiet(s, Notify(s, u, newID))
    ensures BlocksIn(Notify(s, u, newID)).results == BlocksIn(s).results
  {
    hide BlockStep, LedgerStep, BlockScan, LedgerScan, InOrder, Chunk, ToolUpdate, ShowPlan, Drawn, Prompted;
    if s.loading && !u.Setting? {
    } else {
      match u
      case AgentChunk(t) => ChunkKeeps(s, Text, t, newID);
      case ThoughtChunk(t) => ChunkKeeps(s, Thinking, t, newID);
      case Tool(id, status, contents, raw) => ToolUpdateKeeps(s, id, status, contents, raw);
      case Plan => ShowPlanKeeps(s, newID);
      case Setting(reports) =>
        if reports && !s.ended {
          OtherSteps(BlocksIn(s), LedgerIn(s), "", "");
          SayOne(s, System(false));
          SayInOrder(s, [System(false)]);
        }
      case UserChunk =>
    }
  }

  // --- permission prompts -----------------------------------------------------------------

  // The permission table's steps keep each request settled at most once.
  lemma Registering(pending: map<string, Options>, inflight: map<string, string>, replies: map<string, Chan>,
                    req: string, o: Options)
    requires SettledOnce(pending, inflight, replies, false) && req !in replies
    ensures SettledOnce(pending[req := o], inflight, replies[req := Chan([], false)], false)
  {
  }

  lemma Taking(pending: map<string, Options>, inflight: map<string, string>, replies: map<string, Chan>, ended: bool,
               req: string, choice: string)
    requires SettledOnce(pending, inflight, replies, ended) && req in pending
    ensures SettledOnce(pending - {req}, inflight[req := choice], replies, ended)
  {
  }

  lemma Answering(pending: map<string, Options>, inflight: map<string, string>, replies: map<string, Chan>, ended: bool,
                  req: string, value: string)
    requires SettledOnce(pending, inflight, replies, ended) && (req in pending || req in inflight)
    ensures req in replies && Settled(replies[req]) == 0
    ensures replies[req].(sent := replies[req].sent + [value]) == Chan([value], false)
    ensures SettledOnce(pending - {req}, inflight - {req}, replies[req := Chan([value], false)], ended)
    ensures if req in pending then inflight - {req} == inflight else pending - {req} == pending
  {
  }

  lemma Exiting(pending: map<string, Options>, inflight: map<string, string>, replies: map<string, Chan>, ended: bool)
    requires SettledOnce(pending, inflight, replies, ended)
    ensures SettledOnce(map[], inflight, Close(replies, pending.Keys), true)
    ensures forall r :: r in pending ==> Close(replies, pending.Keys)[r] == Chan([], true)
  {
  }

  // A request is registered, shown, and only then waits.
  lemma RequestKeeps(s: State, req: string, tool: string, o: Options)
    requires Told(s) && req !in s.replies
    ensures Told(Request(s, req, tool, o)) && BlocksIn(Request(s, req, tool, o)).results == BlocksIn(s).results
  {
    hide BlockStep, LedgerStep, BlockScan, LedgerScan, InOrder, Agree, Drawn, Control, Known, Show;
    if !s.ended {
      var t := Known(s.tools, tool);
      ShowKeeps(s, tool, t, true);
      var s1 := Show(s, tool, t, true);
      AskKeeps(s1.(replies := s1.replies[req := Chan([], false)]), req, tool, o);
    }
  }

  lemma AskKeeps(s: State, req: string, tool: string, o: Options)
    requires Told(s) && !s.ended && req in s.replies && req !in LedgerIn(s).asked && tool in LedgerIn(s).used
    ensures var t := Say(s, [ControlRequest(req, tool)]);
            Told(t.(pending := t.pending[req := o])) && BlocksIn(t).results == BlocksIn(s).results
  {
    hide BlockStep, LedgerStep, BlockScan, LedgerScan, InOrder;
    OtherSteps(BlocksIn(s), LedgerIn(s), req, tool);
    SayOne(s, ControlRequest(req, tool));
    SayInOrder(s, [ControlRequest(req, tool)]);
  }

  lemma CancelOneKeeps(s: State, req: string)
    requires Inv(s) && req in s.pending
    ensures req in s.replies && Settled(s.replies[req]) == 0
    ensures Inv(CancelOne(s, req))
    ensures CancelOne(s, req).pending == s.pending - {req}
    ensures CancelOne(s, req).replies == s.replies[req := Chan([""], false)]
  {
    hide BlockStep, LedgerStep, BlockScan, LedgerScan, InOrder, SettledOnce, OneAtATime, Kept;
    Answering(s.pending, s.inflight, s.replies, s.ended, req, "");
    if !s.ended {
      OtherSteps(BlocksIn(s), LedgerIn(s), req, "");
      var s1 := SendReply(s, req, "");
      var s2 := s1.(pending := s1.pending - {req});
      SayOne(s2, ControlCancel(req));
      SayInOrder(s2, [ControlCancel(req)]);
    }
  }

  // --- prompts ------------------------------------------------------------------------------

  lemma Queueing(sends: seq<Prompt>, started: seq<Prompt>, queued: seq<Prompt>, dropped: seq<Prompt>, p: Prompt)
    requires Kept(sends, started, queued, dropped)
    ensures Kept(sends + [p], started, queued + [p], dropped)
    ensures queued == [] ==> Kept(sends + [p], started + [p], [], dropped)
  {
    SubsequenceSnoc(started + queued, sends, p);
    assert started + (queued + [p]) == (started + queued) + [p];
    if queued == [] {
      assert (started + [p]) + [] == (started + queued) + [p];
    }
  }

  lemma Starting(sends: seq<Prompt>, started: seq<Prompt>, queued: seq<Prompt>, dropped: seq<Prompt>)
    requires Kept(sends, started, queued, dropped) && queued != []
    ensures Kept(sends, started + [queued[0]], queued[1..], dropped)
  {
    assert queued == [queued[0]] + queued[1..];
    assert started + queued == (started + [queued[0]]) + queued[1..];
  }

  lemma Dropping(sends: seq<Prompt>, started: seq<Prompt>, queued: seq<Prompt>, dropped: seq<Prompt>)
    requires Kept(sends, started, queued, dropped)
    ensures Kept(sends, started, [], dropped + queued)
  {
    assert (started + queued)[..|started|] == started == started + [];
    SubsequencePrefix(started + queued, sends, |started|);
  }

  lemma SendKeeps(s: State, p: Prompt)
    requires Inv(s)
    ensures Inv(Send(s, p))
  {
    hide BlockScan, LedgerScan, Agree, Drawn, Prompted, InOrder, SettledOnce, Kept;
    Queueing(s.past.sends, s.past.started, s.queued, s.past.dropped, p);
  }

  // The result goes out when both blocks are complete.
  lemma EndTurnKeeps(s: State, o: Outcome)
    requires Told(s)
    ensures Told(EndTurn(s, o)) && Quiet(s, EndTurn(s, o))
    ensures !s.ended ==> BlocksIn(EndTurn(s, o)).results == BlocksIn(s).results + 1
  {
    hide BlockStep, LedgerStep, BlockScan, LedgerScan, InOrder, Prompted, Flush, ResultOf;
    FlushKeeps(s);
    if !s.ended {
      ResultStep(BlocksIn(Flush(s)), LedgerIn(s), o);
      SayOne(Flush(s), ResultOf(o));
      SayInOrder(Flush(s), [ResultOf(o)]);
    }
  }

  // The turn that ended was the only one, and the queue's first prompt takes its place.
  lemma Turning(callers: seq<Prompt>, prompting: bool, i: nat, queued: seq<Prompt>, started: seq<Prompt>)
    requires OneAtATime(callers, prompting, queued, started) && i < |callers|
    ensures prompting && |callers| == 1 && callers[..i] + callers[i + 1..] == []
    ensures queued == [] ==> OneAtATime([], false, queued, started)
    ensures queued != [] ==> OneAtATime([] + [queued[0]], prompting, queued[1..], started + [queued[0]])
  {
  }

  lemma NextPromptKeeps(s: State, i: nat, results: nat)
    requires Told(s) && OneResultEach(results, |s.callers|, |s.past.started|, s.ended)
    requires !s.ended ==> BlocksIn(s).results == results + 1
    requires SettledOnce(s.pending, s.inflight, s.replies, s.ended)
    requires OneAtATime(s.callers, s.prompting, s.queued, s.past.started)
    requires Kept(s.past.sends, s.past.started, s.queued, s.past.dropped)
    requires i < |s.callers|
    ensures |s.callers| == 1 && Inv(NextPrompt(s, i))
  {
    hide BlockScan, LedgerScan, Agree, Drawn, Prompted, InOrder, SettledOnce, Kept, OneAtATime;
    Turning(s.callers, s.prompting, i, s.queued, s.past.started);
    if s.queued != [] {
      Starting(s.past.sends, s.past.started, s.queued, s.past.dropped);
    }
  }

  lemma PromptReturnedKeeps(s: State, i: nat, o: Outcome)
    requires Inv(s) && i < |s.callers|
    ensures Inv(PromptReturned(s, i, o))
    ensures |s.callers| == 1
  {
    assert BlocksIn(s).Blocks?;
    hide BlocksIn, Told, Control, EndTurn, NextPrompt, SettledOnce, Kept, OneAtATime, OneResultEach;
    EndTurnKeeps(s, o);
    ControlParts(s, EndTurn(s, o));
    NextPromptKeeps(EndTurn(s, o), i, BlocksIn(s).results);
  }

  lemma CancelAllSnoc(s: State, order: seq<string>, req: string)
    ensures CancelAll(s, order + [req]) == CancelOne(CancelAll(s, order), req)
  {
    assert (order + [req])[..|order|] == order;
  }

  lemma CancelAllNone(s: State)
    ensures CancelAll(s, []) == s
  {
  }

  lemma {:induction false} CancelAllPending(s: State, order: seq<string>, r: string)
    ensures r in CancelAll(s, order).pending <==> r in s.pending && r !in order
    decreases |order|
  {
    if order != [] {
      var before, last := order[..|order| - 1], order[|order| - 1];
      assert order == before + [last];
      CancelAllPending(s, before, r);
    }
  }

  lemma {:induction false} CancelAllKeeps(s: State, order: seq<string>)
    requires Inv(s)
    requires forall r :: r in order ==> r in s.pending
    requires forall i, j :: 0 <= i < j < |order| ==> order[i] != order[j]
    ensures Inv(CancelAll(s, order))
    decreases |order|
  {
    CancelAllNone(s);
    hide Inv, CancelAll, CancelOne;
    if order != [] {
      var before, last := order[..|order| - 1], order[|order| - 1];
      assert order == before + [last];
      CancelAllSnoc(s, before, last);
      CancelAllPending(s, before, last);
      CancelAllKeeps(s, before);
      CancelOneKeeps(CancelAll(s, before), last);
    }
  }

  lemma DropKeeps(s: State)
    requires Inv(s)
    ensures Inv(DropQueue(s))
  {
    hide BlockScan, LedgerScan, Agree, Drawn, Prompted, InOrder, SettledOnce, Kept;
    Dropping(s.past.sends, s.past.started, s.queued, s.past.dropped);
  }

  lemma InterruptKeeps(s: State, order: seq<string>)
    requires Inv(s) && Lists(order, s.pending.Keys)
    ensures Inv(Interrupt(s, order)) && Interrupt(s, order).pending == map[] && Interrupt(s, order).queued == []
  {
    hide Inv, CancelAll;
    DropKeeps(s);
    CancelAllKeeps(DropQueue(s), order);
    forall r ensures r !in CancelAll(DropQueue(s), order).pending {
      CancelAllPending(DropQueue(s), order, r);
    }
    CancelAllLeaves(DropQueue(s), order);
  }

  lemma {:induction false} CancelAllLeaves(s: State, order: seq<string>)
    ensures CancelAll(s, order).queued == s.queued
    decreases |order|
  {
    if order != [] {
      CancelAllLeaves(s, order[..|order| - 1]);
    }
  }

  // --- every run --------------------------------------------------------------------------------

  datatype Step =
    | NotifyStep(u: Update, newID: string)
    | RequestStep(req: string, tool: string, o: Options)
    | RespondStep(req: string, allow: bool, updates: bool)
    | RespondSendStep(req: string)
    | InterruptStep(order: seq<string>)
    | SendStep(p: Prompt)
    | ReturnedStep(i: nat, out: Outcome)
    | ExitStep
    | TakeStep
    | DeliverStep
    | CloseStep
    | LoadingStep(on: bool)

  /** What may happen next. Ids are fresh, as the source's random ones; an interrupt walks what waits, in any order. */
  ghost predicate Enabled(s: State, step: Step) {
    match step
    case NotifyStep(_, newID) => ':' !in newID
    case RequestStep(req, _, _) => req !in s.replies
    case RespondSendStep(req) => req in s.inflight
    case InterruptStep(order) => Lists(order, s.pending.Keys)
    case ReturnedStep(i, _) => i < |s.callers|
    case TakeStep => s.out != [] && s.hand == []
    case DeliverStep => s.hand != []
    case CloseStep => s.ended && s.out == [] && s.hand == []
    case _ => true
  }

  ghost function Apply(s: State, step: Step): State
    requires Enabled(s, step)
  {
    match step
    case NotifyStep(u, newID) => Notify(s, u, newID)
    case RequestStep(req, tool, o) => Request(s, req, tool, o)
    case RespondStep(req, allow, updates) => Respond(s, req, allow, updates)
    case RespondSendStep(req) => RespondSend(s, req)
    case InterruptStep(order) => Interrupt(s, order)
    case SendStep(p) => Send(s, p)
    case ReturnedStep(i, o) => PromptReturned(s, i, o)
    case ExitStep => Exited(s)
    case TakeStep => PumpTake(s)
    case DeliverStep => PumpDeliver(s)
    case CloseStep => s.(closed := true)
    case LoadingStep(on) => s.(loading := on)
  }

  lemma RespondKeeps(s: State, req: string, allow: bool, updates: bool)
    requires Inv(s)
    ensures Inv(Respond(s, req, allow, updates))
  {
    hide BlockScan, LedgerScan, Agree, Drawn, InOrder, SettledOnce, OneAtATime, Kept, OneResultEach;
    if req in s.pending {
      Taking(s.pending, s.inflight, s.replies, s.ended, req, Choice(s.pending[req], allow, updates));
    }
  }

  lemma RespondSendKeeps(s: State, req: string)
    requires Inv(s) && req in s.inflight
    ensures req in s.replies && Settled(s.replies[req]) == 0
    ensures Inv(RespondSend(s, req)) && RespondSend(s, req).replies[req] == Chan([s.inflight[req]], false)
  {
    hide BlockScan, LedgerScan, Agree, Drawn, InOrder, SettledOnce, OneAtATime, Kept, OneResultEach;
    Answering(s.pending, s.inflight, s.replies, s.ended, req, s.inflight[req]);
  }

  lemma ExitedKeeps(s: State)
    requires Inv(s)
    ensures Inv(Exited(s))
  {
    hide BlockScan, LedgerScan, SettledOnce, OneAtATime, Kept;
    Exiting(s.pending, s.inflight, s.replies, s.ended);
  }

  // What waits has an open, empty reply channel.
  lemma WaitingIsOpen(s: State)
    requires Inv(s)
    ensures forall r :: r in s.pending ==> r in s.replies && s.replies[r] == Chan([], false)
  {
  }

  // A settled request no longer waits, and its answer is not on the way.
  lemma SettledIsDone(s: State, req: string)
    requires Inv(s) && req in s.replies && Settled(s.replies[req]) == 1
    ensures req !in s.pending && req !in s.inflight
  {
  }

  lemma PumpKeeps(s: State)
    requires Inv(s)
    ensures s.out != [] && s.hand == [] ==> Inv(PumpTake(s))
    ensures s.hand != [] ==> Inv(PumpDeliver(s))
    ensures s.ended && s.out == [] && s.hand == [] ==> Inv(s.(closed := true)) && s.past.delivered == s.past.emitted
    ensures Inv(s.(loading := true)) && Inv(s.(loading := false))
  {
    hide BlockScan, LedgerScan, Agree, Drawn, Prompted, SettledOnce, OneAtATime, Kept, OneResultEach;
    if s.out != [] && s.hand == [] {
      assert s.out == [s.out[0]] + s.out[1..];
    }
    if s.hand != [] {
      assert s.hand == [s.hand[0]] + s.hand[1..];
    }
  }

  lemma StepKeeps(s: State, step: Step)
    requires Inv(s) && Enabled(s, step)
    ensures Inv(Apply(s, step))
  {
    hide Inv, Notify, Request, Respond, RespondSend, Interrupt, Send, PromptReturned, Exited;
    PumpKeeps(s);
    match step {
      case NotifyStep(u, newID) => NotifyInv(s, u, newID);
      case RequestStep(req, tool, o) => RequestInv(s, req, tool, o);
      case RespondStep(req, allow, updates) => RespondKeeps(s, req, allow, updates);
      case RespondSendStep(req) => RespondSendKeeps(s, req);
      case InterruptStep(order) => InterruptKeeps(s, order);
      case SendStep(p) => SendKeeps(s, p);
      case ReturnedStep(i, o) => PromptReturnedKeeps(s, i, o);
      case ExitStep => ExitedKeeps(s);
      case _ =>
    }
  }

  lemma NotifyInv(s: State, u: Update, newID: string)
    requires Inv(s) && ':' !in newID
    ensures Inv(Notify(s, u, newID))
  {
    hide Told, SettledOnce, OneAtATime, Kept, OneResultEach, BlocksIn, Notify;
    NotifyKeeps(s, u, newID);
    ControlParts(s, Notify(s, u, newID));
  }

  lemma ControlParts(s: State, t: State)
    requires Quiet(s, t)
    ensures t.inflight == s.inflight && t.callers == s.callers && t.prompting == s.prompting && t.queued == s.queued
    ensures t.past.sends == s.past.sends && t.past.started == s.past.started && t.past.dropped == s.past.dropped
  {
    var a, b := Control(s), Control(t);
    assert a.inflight == s.inflight && b.inflight == t.inflight;
    assert a.past.sends == s.past.sends && b.past.sends == t.past.sends;
  }

  lemma RequestInv(s: State, req: string, tool: string, o: Options)
    requires Inv(s) && req !in s.replies
    ensures Inv(Request(s, req, tool, o))
  {
    RequestKeeps(s, req, tool, o);
    ShowKeeps(s, tool, Known(s.tools, tool), true);
    hide BlockScan, LedgerScan, Agree, Drawn, Prompted, InOrder, SettledOnce, OneAtATime, Kept, Show;
    if !s.ended {
      Registering(s.pending, s.inflight, s.replies, req, o);
    }
  }

  /** `run` is the states a connection goes through, from a new one on, taking `steps`. */
  ghost predicate IsRun(run: seq<State>, steps: seq<Step>) {
    && |run| == |steps| + 1
    && run[0] == Initial
    && (forall i :: 0 <= i < |steps| ==> Enabled(run[i], steps[i]) && run[i + 1] == Apply(run[i], steps[i]))
  }

  /** Whatever happens, in whatever order, every state of a connection meets the invariant. */
  lemma {:induction false} EveryRunIsSafe(run: seq<State>, steps: seq<Step>, k: nat)
    requires IsRun(run, steps) && k < |run|
    ensures Inv(run[k])
  {
    if k > 0 {
      EveryRunIsSafe(run, steps, k - 1);
      StepKeeps(run[k - 1], steps[k - 1]);
    } else {
      assert BlocksIn(Initial) == Blocks(Closed, "", "", 0);
    }
  }
}
