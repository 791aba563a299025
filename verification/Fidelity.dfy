/**
  A session reading a harness connection's stream: what it shows as being
  streamed is, at every boundary of every run, exactly the block the stream has
  open, and when the block's complete message comes, the session takes that
  entry, whose text is the message's.
 */
module Fidelity {
  import opened Wrappers
  import opened Messages
  import opened Protocol
  import opened SessionLog
  import opened SessionModel
  import opened SessionSafety
  import opened SessionRuns
  import CM = ConnModel
  import CS = ConnSafety

  /** The live text a session shows for the block being streamed. */
  function LiveText(b: BlockState): seq<Entry> {
    if b.Open? then [Entry(Key(b.id, "0"), b.kind, b.text)] else []
  }

  /** The session's live text is the open block, and it knows which message the block is in. */
  ghost predicate Follows(b: BlockState, streaming: seq<Entry>, msgID: string) {
    streaming == LiveText(b) && (!b.Closed? ==> msgID == b.id)
  }

  /** While what the process said keeps the stream protocol, the session follows it. */
  ghost predicate Following(s: State) {
    s.proc && BlockScan(s.past.heard).Blocks? ==> Follows(BlockScan(s.past.heard).open, s.live.streaming, s.live.msgID)
  }

  // --- one message -------------------------------------------------------------------

  lemma StreamText(s: State, m: Message, stale: bool)
    ensures var t := OnStream(s, m, stale);
            && t.live.msgID == (if m.MessageStart? then m.id else s.live.msgID)
            && (m.MessageStart? ==> t.live.streaming == s.live.streaming)
            && (m.BlockStart? && m.blockKind.Some? ==>
                t.live.streaming == s.live.streaming + [Entry(Key(s.live.msgID, m.index), m.blockKind.value, "")])
            && (m.Delta? && m.text != "" ==>
                t.live.streaming == Extend(s.live.streaming, Key(s.live.msgID, m.index), m.text))
            && t.past.heard == s.past.heard
  {
    hide Changed, BeginTurn, Extend;
  }

  lemma AssistantText(s: State, id: string, c: Content)
    ensures var t := OnAssistant(s, id, [c], NoError);
            && t.live.msgID == s.live.msgID && t.past.heard == s.past.heard
            && t.live.streaming == Left(s.live.streaming, id, c)
  {
    hide BeginTurn, OnBlock, Left;
    var s0 := if s.turn.active then s else BeginTurn(s);
    assert [c][..0] == [];
    assert OnBlocks(s0, id, []) == s0;
    assert OnBlocks(s0, id, [c]) == OnBlock(s0, id, c);
  }

  // The one entry is its message's, so its complete block takes it.
  lemma TakesItsOwn(id: string, kind: Kind, text: string)
    ensures TakeStream([Entry(Key(id, "0"), kind, text)], id, kind) == (Some(Key(id, "0")), [])
  {
    var e := Entry(Key(id, "0"), kind, text);
    assert Key(id, "0")[..|id + ":"|] == id + ":";
    assert [e][1..] == [];
  }

  // Which part of the handler says what streams.
  lemma HandledText(s: State, m: Message, order: seq<string>, stale: bool)
    ensures var t, s1 := HandleMessage(s, m, order, stale), s.(past := s.past.(heard := s.past.heard + [m]));
            if Streams(m) then t == OnStream(s1, m, stale)
            else if m.Assistant? then Silent(OnAssistant(s1, m.id, m.content, m.error), t)
            else if m.Result? then Silent(OnResult(s1, m.ok, m.contextFull, order, stale), t)
            else Silent(s1, t)
  {
    hide OnStream, OnAssistant, OnResult, OnPermission, Resolve, Changed, Emit, OnlyResolves, SameEvents;
  }

  lemma OthersStep(b: Blocks, m: Message)
    requires BlockStep(b, m).Blocks? && !Streams(m) && !m.Assistant? && !m.Result?
    ensures BlockStep(b, m) == b
  {
  }

  // Each message the protocol allows takes the live text where the stream's open block goes.
  lemma MessageFollows(s: State, m: Message, order: seq<string>, stale: bool, b: Blocks)
    requires b.Blocks? && Follows(b.open, s.live.streaming, s.live.msgID) && BlockStep(b, m).Blocks?
    ensures var t := HandleMessage(s, m, order, stale);
            Follows(BlockStep(b, m).open, t.live.streaming, t.live.msgID) && t.past.heard == s.past.heard + [m]
  {
    var s1 := s.(past := s.past.(heard := s.past.heard + [m]));
    assert s1.live.streaming == s.live.streaming && s1.live.msgID == s.live.msgID;
    HandledText(s, m, order, stale);
    hide OnStream, OnAssistant, OnResult, HandleMessage;
    if Streams(m) {
      StreamFollows(s1, m, stale, b);
    } else if m.Assistant? {
      hide BlockStep, LiveText;
      AssistantFollows(s1, m, b);
    } else if m.Result? {
      assert BlockStep(b, m).open == Closed;
    } else {
      OthersStep(b, m);
      hide BlockStep;
    }
  }

  lemma StreamFollows(s: State, m: Message, stale: bool, b: Blocks)
    requires Streams(m)
    requires b.Blocks? && Follows(b.open, s.live.streaming, s.live.msgID) && BlockStep(b, m).Blocks?
    ensures var t := OnStream(s, m, stale);
            Follows(BlockStep(b, m).open, t.live.streaming, t.live.msgID) && t.past.heard == s.past.heard
  {
    hide OnStream;
    StreamText(s, m, stale);
    if m.Delta? {
      assert s.live.streaming[1..] == [];
    }
  }

  lemma AssistantFollows(s: State, m: Message, b: Blocks)
    requires m.Assistant?
    requires b.Blocks? && Follows(b.open, s.live.streaming, s.live.msgID) && BlockStep(b, m).Blocks?
    ensures var t := OnAssistant(s, m.id, m.content, m.error);
            Follows(BlockStep(b, m).open, t.live.streaming, t.live.msgID) && t.past.heard == s.past.heard
  {
    hide OnAssistant, TakeStream;
    var c := m.content[0];
    assert m.content == [c];
    AssistantText(s, m.id, c);
    if !c.ToolBlock? {
      TakesItsOwn(m.id, b.open.kind, b.open.text);
    }
  }

  // --- every run -----------------------------------------------------------------------

  lemma StartFollows(s: State, t: State)
    requires Inv(s) && Following(s) && MayStart(s, t)
    ensures Following(t)
  {
    hide Listed, Recorded, Conserved;
  }

  lemma HearingFollows(s: State, m: Message, order: seq<string>, stale: bool)
    requires s.proc && Following(s)
    ensures Following(HandleMessage(s, m, order, stale))
  {
    var s1 := HandleMessage(s, m, order, stale);
    HandledText(s, m, order, stale);
    HeardGrows(s, m, order, stale);
    BlockScanSnoc(s.past.heard, m);
    hide HandleMessage, Follows;
    if BlockScan(s1.past.heard).Blocks? {
      MessageFollows(s, m, order, stale, BlockScan(s.past.heard));
    }
  }

  lemma HeardGrows(s: State, m: Message, order: seq<string>, stale: bool)
    ensures HandleMessage(s, m, order, stale).past.heard == s.past.heard + [m]
  {
    HandledText(s, m, order, stale);
    var s1 := s.(past := s.past.(heard := s.past.heard + [m]));
    StreamText(s1, m, stale);
    if m.Assistant? {
      AssistantHeard(s1, m.id, m.content, m.error);
    }
    hide HandleMessage, OnStream, OnAssistant, OnResult;
  }

  lemma AssistantHeard(s: State, id: string, content: seq<Content>, error: AssistantError)
    ensures OnAssistant(s, id, content, error).past.heard == s.past.heard
  {
    hide OnBlocks, BeginTurn, NoteError;
  }

  lemma StopFollows(s: State, end: Ending, start: Start)
    requires Inv(s) && s.proc && Ends(s, end)
    ensures Inv(StopProc(s, end)) && !StopProc(s, end).proc && Following(EnsureProc(StopProc(s, end), start))
    ensures Following(StopProc(s, end))
  {
    hide Inv, StopProc, Ends, EnsureProc, Follows;
    StopKeeps(s, end);
    StartFollows(StopProc(s, end), EnsureProc(StopProc(s, end), start));
  }

  lemma RestartFollows(s: State, end: Ending, e: Env)
    requires Inv(s) && Following(s) && (s.proc ==> Ends(s, end))
    ensures Following(Changed(Restart(s, end, e), e.stale))
  {
    hide Inv, StopProc, Ends, EnsureProc, Changed, Emit, Follows;
    if s.proc {
      StopFollows(s, end, e.start);
    } else {
      StartFollows(s, EnsureProc(s, e.start));
    }
  }

  lemma RewindFollows(s: State, w: Rewinding, end: Ending, e: Env)
    requires Inv(s) && Following(s)
    requires Restoring(s, w, e).proc ==> Ends(Restoring(s, w, e), end)
    ensures Following(Changed(Rewind(s, w, end, e), e.stale))
  {
    hide Inv, StopProc, Ends, EnsureProc, Changed, Emit, Follows;
    StartKeeps(s, e.start);
    StartFollows(s, EnsureProc(s, e.start));
    if Restoring(s, w, e).proc {
      StopFollows(Restoring(s, w, e), end, e.start);
    }
  }

  lemma ApplyFollows(s: State, a: Action, e: Env)
    requires Inv(s) && Following(s) && Enabled(s, a, e)
    ensures Following(Apply(s, a, e))
  {
    hide Inv, Following, UserSend, Changed, Interrupt, Restart, Respond, Rewind, MarkDone, ProcessEvent, ContinueTurn,
         RetryFired, IdleFired, HandleMessage, OnExit, Ends, Fits, Lists, Restoring;
    match a
    case MessageAction(m, order) => HearingFollows(s, m, order, e.stale);
    case RestartAction(end) => RestartFollows(s, end, e);
    case RewindAction(w, end) => RewindFollows(s, w, end, e);
    case ExitAction(order, err) => ExitFollows(s, order, err);
    case _ => StartFollows(s, Apply(s, a, e));
  }

  lemma ExitFollows(s: State, order: seq<string>, err: bool)
    requires Inv(s) && s.proc && Lists(order, s.asking.pending)
    ensures Following(OnExit(s, order, err))
  {
    hide Inv, OnExit, Lists;
    ExitKeeps(s, order, err);
  }

  /**
    At every boundary of every run: as long as what the running process said
    keeps the stream protocol, the session's live text is its open block: no
    entry, or the one with that block's key, kind and text so far.
   */
  lemma {:induction false} LiveTextIsTheOpenBlock(run: seq<State>, steps: seq<(Action, Env)>, k: nat)
    requires SessionRuns.IsRun(run, steps) && k < |run|
    ensures Following(run[k])
  {
    assert Following(run[0]);
    hide Following, Apply, Enabled, Inv;
    if k > 0 {
      LiveTextIsTheOpenBlock(run, steps, k - 1);
      SessionRuns.EveryRunIsSafe(run, steps, k - 1);
      ApplyFollows(run[k - 1], steps[k - 1].0, steps[k - 1].1);
    }
  }

  /**
    When the stream completes its open block, the session shows the message
    with the live entry's key and the live entry's text, and drops that entry.
   */
  lemma CompletingTakesTheLiveText(s: State, m: Message, order: seq<string>, stale: bool)
    requires Inv(s) && s.proc && Following(s) && BlockScan(s.past.heard + [m]).Blocks?
    requires m.Assistant? && forall c :: c in m.content ==> !c.ToolBlock?
    ensures var t := HandleMessage(s, m, order, stale);
            && |s.live.streaming| == 1 && t.live.streaming == []
            && var e := s.live.streaming[0];
               && m.content == [BlockOf(e.kind, e.text)]
               && t.past.log == s.past.log
                   + (if e.kind == Thinking && e.text == "" then [] else [Said(e.kind, e.text, Some(e.key))])
  {
    BlockScanSnoc(s.past.heard, m);
    var b := BlockScan(s.past.heard);
    CompletesTheOpen(b, m);
    MessageFollows(s, m, order, stale, b);
    TurnIsActive(s);
    hide Inv, BlockScan, BlockStep, HandleMessage;
    var e := s.live.streaming[0];
    TakesItsOwn(m.id, e.kind, e.text);
    CompletedAs(s, m, order, stale, e);
  }

  // A complete message is that of the open block.
  lemma CompletesTheOpen(b: Blocks, m: Message)
    requires BlockStep(b, m).Blocks? && m.Assistant? && forall c :: c in m.content ==> !c.ToolBlock?
    ensures b.Blocks? && b.open.Open? && m.id == b.open.id && m.error == NoError && BlockStep(b, m).open == Closed
    ensures m.content == [BlockOf(b.open.kind, b.open.text)]
  {
  }

  lemma CompletedAs(s: State, m: Message, order: seq<string>, stale: bool, e: Entry)
    requires s.turn.active && m.Assistant? && m == Assistant(m.id, [BlockOf(e.kind, e.text)], NoError)
    requires TakeStream(s.live.streaming, m.id, e.kind) == (Some(e.key), [])
    ensures HandleMessage(s, m, order, stale).past.log
            == s.past.log + (if e.kind == Thinking && e.text == "" then [] else [Said(e.kind, e.text, Some(e.key))])
  {
    var s1 := s.(past := s.past.(heard := s.past.heard + [m]));
    var c := BlockOf(e.kind, e.text);
    assert [c][..0] == [] && OnBlocks(s1, m.id, []) == s1;
    assert OnBlocks(s1, m.id, [c]) == OnBlock(s1, m.id, c);
    ShownAs(s1, m.id, e);
    hide OnBlock, OnBlocks, TakeStream, Silent, SameSignIn;
  }

  lemma TurnIsActive(s: State)
    requires Inv(s)
    ensures s.live.streaming != [] ==> s.turn.active
  {
    hide Listed, Recorded, Conserved;
  }

  lemma ShownAs(s: State, id: string, e: Entry)
    requires TakeStream(s.live.streaming, id, e.kind) == (Some(e.key), [])
    ensures OnBlock(s, id, BlockOf(e.kind, e.text)).past.log
            == s.past.log + (if e.kind == Thinking && e.text == "" then [] else [Said(e.kind, e.text, Some(e.key))])
  {
    hide TakeStream, ShowBlock, OnlyShows;
  }

  // --- composed with a harness connection ---------------------------------------------------

  lemma AcceptedPrefix(out: seq<Message>, n: nat)
    requires BlockScan(out).Blocks? && n <= |out|
    ensures BlockScan(out[..n]).Blocks?
  {
    if n < |out| {
      BlockScanAt(out, n);
    } else {
      assert out[..n] == out;
    }
  }

  /**
    Any run of a connection beside any run of a session whose process it is:
    whatever part of the connection's output the session has read, its live
    text is the block that part leaves open; and once it read all of it, that
    is what the connection's own buffers hold.
   */
  lemma SessionShowsTheConnection(crun: seq<CM.State>, csteps: seq<CS.Step>, i: nat,
                                  run: seq<State>, steps: seq<(Action, Env)>, k: nat)
    requires CS.IsRun(crun, csteps) && i < |crun|
    requires SessionRuns.IsRun(run, steps) && k < |run|
    requires run[k].proc && run[k].past.heard <= crun[i].past.emitted
    ensures BlockScan(run[k].past.heard).Blocks?
    ensures run[k].live.streaming == LiveText(BlockScan(run[k].past.heard).open)
    ensures run[k].past.heard == crun[i].past.emitted && !crun[i].ended ==>
              run[k].live.streaming == LiveText(CS.Buffered(crun[i].text, crun[i].thought))
  {
    CS.EveryRunIsSafe(crun, csteps, i);
    LiveTextIsTheOpenBlock(run, steps, k);
    var out := crun[i].past.emitted;
    assert out[..|run[k].past.heard|] == run[k].past.heard;
    AcceptedPrefix(out, |run[k].past.heard|);
  }
}
