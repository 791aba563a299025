/**
  From the agent's words to the record: what a session has logged of a kind
  since its process started, followed by the live text, is exactly what it has
  read of that kind; and once it has read all a connection wrote, that is every
  chunk the connection was sent.
 */
module Conservation {
  import opened Wrappers
  import opened Messages
  import opened Protocol
  import opened SessionLog
  import opened SessionModel
  import opened SessionSafety
  import opened SessionRuns
  import opened SessionLaws
  import opened Fidelity
  import CM = ConnModel
  import CS = ConnSafety
  import CR = ConnRuns

  /** The text an event shows of a kind, and all a record shows. */
  function SaidIn(e: Event, kind: Kind): string {
    if e.Said? && e.kind == kind then e.said else ""
  }

  function SaidOf(log: seq<Event>, kind: Kind): string {
    if log == [] then "" else SaidOf(log[..|log| - 1], kind) + SaidIn(log[|log| - 1], kind)
  }

  lemma SaidSnoc(log: seq<Event>, e: Event, kind: Kind)
    ensures SaidOf(log + [e], kind) == SaidOf(log, kind) + SaidIn(e, kind)
  {
    assert (log + [e])[..|log|] == log;
  }

  /** The last boundary at which the process had said nothing yet. */
  function Begun(run: seq<State>, k: nat): (j: nat)
    requires k < |run|
    ensures j <= k
  {
    if k == 0 || run[k].past.heard == [] then k else Begun(run, k - 1)
  }

  // --- what a step shows -----------------------------------------------------------------------

  /** What a session has shown of a kind. */
  function Shown(s: State, kind: Kind): string { SaidOf(s.past.log, kind) }

  lemma {:induction false} SaidConcat(a: seq<Event>, b: seq<Event>, kind: Kind)
    ensures SaidOf(a + b, kind) == SaidOf(a, kind) + SaidOf(b, kind)
    decreases |b|
  {
    if b == [] {
      assert a + b == a;
      NoText(SaidOf(a, kind));
    } else {
      var before, last := b[..|b| - 1], b[|b| - 1];
      assert a + b == (a + before) + [last];
      SaidConcat(a, before, kind);
      SaidSnoc(a + before, last, kind);
      Regroup(SaidOf(a, kind), SaidOf(before, kind), SaidIn(last, kind));
    }
  }

  lemma {:induction false} SaidAlike(a: seq<Event>, b: seq<Event>, kind: Kind)
    requires Alike(a, b)
    ensures SaidOf(a, kind) == SaidOf(b, kind)
    decreases |a|
  {
    if a != [] {
      SaidAlike(a[..|a| - 1], b[..|b| - 1], kind);
      assert Bare(a[|a| - 1]) == Bare(b[|b| - 1]);
    }
  }

  lemma {:induction false} NothingSaid(log: seq<Event>, kind: Kind)
    requires forall i :: 0 <= i < |log| ==> !log[i].Said?
    ensures SaidOf(log, kind) == ""
    decreases |log|
  {
    if log != [] {
      NothingSaid(log[..|log| - 1], kind);
    }
  }

  // A restarted process has said nothing yet.
  lemma RestartStarts(s: State, end: Ending, e: Env)
    requires Inv(s) && (s.proc ==> Ends(s, end))
    ensures var t := Changed(Restart(s, end, e), e.stale); t.proc ==> t.past.heard == []
  {
    hide Inv, StopProc, EnsureProc, Emit, Changed, Ends;
    if s.proc {
      StopKeeps(s, end);
    }
  }

  // A rewind that closes the process starts none; another one leaves it as it was.
  lemma RewindStops(s: State, w: Rewinding, end: Ending, e: Env)
    requires Inv(s) && (Restoring(s, w, e).proc ==> Ends(Restoring(s, w, e), end))
    ensures var t := Changed(Rewind(s, w, end, e), e.stale);
            t.proc && t.past.heard != [] ==> s.proc && t.past.heard == s.past.heard && t.past.log == s.past.log
  {
    hide Inv, StopProc, EnsureProc, Emit, Changed, Ends;
    StartKeeps(s, e.start);
    StartDoes(s, e.start);
    ChangedDoes(Rewind(s, w, end, e), e.stale);
    if Restoring(s, w, e).proc {
      StopKeeps(Restoring(s, w, e), end);
    }
  }

  /** A step that handles no message and leaves a process that has spoken shows nothing more. */
  lemma OthersShow(s: State, a: Action, e: Env, kind: Kind)
    requires Inv(s) && Enabled(s, a, e) && !a.MessageAction?
    requires Apply(s, a, e).proc && Apply(s, a, e).past.heard != []
    ensures s.proc && Apply(s, a, e).past.heard == s.past.heard && Shown(Apply(s, a, e), kind) == Shown(s, kind)
  {
    hide Inv, SaidOf, UserSend, Changed, Interrupt, Restart, Respond, Rewind, MarkDone, ProcessEvent, ContinueTurn,
         RetryFired, IdleFired, OnExit, Ends, Lists, Restoring, EffectOf;
    match a
    case RestartAction(end) => RestartStarts(s, end, e);
    case RewindAction(w, end) => RewindStops(s, w, end, e);
    case ExitAction(order, err) => ExitKeeps(s, order, err);
    case _ =>
      ActionsDo(s, a, e);
      ActionsShowNothing(s, a, e, kind);
      SaidConcat(s.past.log, EffectOf(s, a, e).log, kind);
      NoText(Shown(s, kind));
  }

  lemma ActionsShowNothing(s: State, a: Action, e: Env, kind: Kind)
    ensures SaidOf(EffectOf(s, a, e).log, kind) == ""
  {
    NothingSaid(EffectOf(s, a, e).log, kind);
  }

  lemma SaidOne(e: Event, kind: Kind)
    ensures SaidOf([e], kind) == SaidIn(e, kind)
  {
    assert [e][..0] == [];
    NoText(SaidIn(e, kind));
  }

  lemma BlockSays(c: Content, kind: Kind)
    ensures SaidOf(BlockShows(c), kind) == BlockText(Assistant("", [c], NoError), kind)
  {
    hide SaidOf;
    match c
    case TextBlock(t) => SaidOne(Said(Text, t, None), kind);
    case ThinkingBlock(t) =>
      SaidOne(Said(Thinking, t, None), kind);
      NothingSaid([], kind);
    case ToolBlock(tool) => SaidOne(ToolShown(tool), kind);
    case OtherBlock => NothingSaid([], kind);
  }

  lemma OneBlockShows(c: Content)
    ensures BlocksShow([c]) == BlockShows(c)
  {
    assert [c][..0] == [];
    assert BlocksShow([]) == [];
    hide BlockShows;
  }

  lemma NoEvents(log: seq<Event>)
    ensures log + [] == log
  {
  }

  // The events a complete message adds say its block's text.
  lemma BlockMessageSays(s: State, m: Message, order: seq<string>, kind: Kind)
    requires m.Assistant? && |m.content| == 1 && m.error == NoError
    ensures SaidOf(MessageShows(s, m, order), kind) == BlockText(m, kind)
  {
    hide SaidOf, BlocksShow, BlockShows, Begins;
    var begins, shows := Begins(s.turn), BlocksShow(m.content);
    BeginsSayNothing(s.turn, kind);
    SaidConcat(begins, shows, kind);
    OneBlockShows(m.content[0]);
    BlockSays(m.content[0], kind);
    assert m.content == [m.content[0]];
    NoText(BlockText(m, kind));
    NoEvents(begins + shows);
  }

  lemma BeginsSayNothing(turn: Turn, kind: Kind)
    ensures SaidOf(Begins(turn), kind) == ""
  {
    NothingSaid(Begins(turn), kind);
  }

  lemma MessagesSay(s: State, m: Message, order: seq<string>, kind: Kind)
    requires m.Assistant? ==> |m.content| == 1 && m.error == NoError
    ensures SaidOf(MessageShows(s, m, order), kind) == BlockText(m, kind)
  {
    hide SaidOf;
    if m.Assistant? {
      BlockMessageSays(s, m, order, kind);
    } else {
      OthersSayNothing(s, m, order);
      NothingSaid(MessageShows(s, m, order), kind);
    }
  }

  lemma OthersSayNothing(s: State, m: Message, order: seq<string>)
    requires !m.Assistant?
    ensures forall i :: 0 <= i < |MessageShows(s, m, order)| ==> !MessageShows(s, m, order)[i].Said?
  {
    CancelsSayNothing(order);
  }

  lemma {:induction false} CancelsSayNothing(order: seq<string>)
    ensures forall i :: 0 <= i < |Cancels(order)| ==> !Cancels(order)[i].Said?
  {
    if order != [] {
      CancelsSayNothing(order[..|order| - 1]);
    }
  }

  /** A message shows the text of the block it completes, and no other. */
  lemma MessageSays(s: State, m: Message, order: seq<string>, stale: bool, kind: Kind)
    requires m.Assistant? ==> |m.content| == 1 && m.error == NoError
    requires m.Result? ==> Lists(order, s.asking.pending)
    ensures Shown(HandleMessage(s, m, order, stale), kind) == Shown(s, kind) + BlockText(m, kind)
  {
    hide SaidOf, HandleMessage, SessionLaws.MessageShows, TurnAfter, Alike, BlockText, Lists;
    var t := HandleMessage(s, m, order, stale);
    MessagesDo(s, m, order, stale);
    var added := t.past.log[|s.past.log|..];
    assert t.past.log == s.past.log + added;
    SaidConcat(s.past.log, added, kind);
    SaidAlike(added, MessageShows(s, m, order), kind);
    MessagesSay(s, m, order, kind);
  }

  // --- every run -----------------------------------------------------------------------------

  /** What a step completes of a kind. */
  function StepText(a: Action, kind: Kind): string {
    if a.MessageAction? then BlockText(a.m, kind) else ""
  }

  lemma MessageStepShows(s: State, a: Action, e: Env, kind: Kind)
    requires a.MessageAction? && Enabled(s, a, e) && BlockScan(Apply(s, a, e).past.heard).Blocks?
    ensures s.proc && BlockScan(s.past.heard).Blocks?
    ensures Shown(Apply(s, a, e), kind) == Shown(s, kind) + BlockText(a.m, kind)
    ensures BlocksOf(Apply(s, a, e).past.heard, kind) == BlocksOf(s.past.heard, kind) + BlockText(a.m, kind)
  {
    HeardGrows(s, a.m, a.order, e.stale);
    BlocksSnoc(s.past.heard, a.m, kind);
    BlockScanSnoc(s.past.heard, a.m);
    hide HandleMessage, BlockScan, BlocksOf, Shown, BlockText, Fits;
    MessageSays(s, a.m, a.order, e.stale, kind);
  }

  lemma BlocksSnoc(heard: seq<Message>, m: Message, kind: Kind)
    ensures BlocksOf(heard + [m], kind) == BlocksOf(heard, kind) + BlockText(m, kind)
  {
    assert (heard + [m])[..|heard|] == heard;
  }

  lemma StepShows(s: State, a: Action, e: Env, kind: Kind)
    requires Inv(s) && Enabled(s, a, e)
    requires Apply(s, a, e).proc && Apply(s, a, e).past.heard != [] && BlockScan(Apply(s, a, e).past.heard).Blocks?
    ensures s.proc && BlockScan(s.past.heard).Blocks?
    ensures Shown(Apply(s, a, e), kind) == Shown(s, kind) + StepText(a, kind)
    ensures BlocksOf(Apply(s, a, e).past.heard, kind) == BlocksOf(s.past.heard, kind) + StepText(a, kind)
  {
    hide Inv, Apply, Enabled, Shown, BlockScan, BlocksOf, BlockText;
    if a.MessageAction? {
      MessageStepShows(s, a, e, kind);
    } else {
      OthersShow(s, a, e, kind);
    }
  }

  lemma Regroup(a: string, b: string, c: string)
    ensures (a + b) + c == a + (b + c)
  {
  }

  /**
    At every boundary of every run, as long as what the process says keeps the
    stream protocol: what is shown since it began is the blocks it completed.
   */
  lemma {:induction false} ShownIsComplete(run: seq<State>, steps: seq<(Action, Env)>, k: nat, kind: Kind)
    requires SessionRuns.IsRun(run, steps) && k < |run|
    requires run[k].proc && BlockScan(run[k].past.heard).Blocks?
    ensures Shown(run[k], kind) == Shown(run[Begun(run, k)], kind) + BlocksOf(run[k].past.heard, kind)
  {
    assert BlocksOf([], kind) == "" && run[0].past.heard == [];
    hide Inv, Apply, Enabled, Shown, BlockScan, BlocksOf, StepText;
    if run[k].past.heard == [] {
      assert Shown(run[k], kind) + "" == Shown(run[k], kind);
    } else {
      SessionRuns.EveryRunIsSafe(run, steps, k - 1);
      StepShows(run[k - 1], steps[k - 1].0, steps[k - 1].1, kind);
      ShownIsComplete(run, steps, k - 1, kind);
      Regroup(Shown(run[Begun(run, k - 1)], kind), BlocksOf(run[k - 1].past.heard, kind),
              StepText(steps[k - 1].0, kind));
    }
  }

  /** The live text of a kind. */
  function LiveOf(s: State, kind: Kind): string {
    if s.live.streaming != [] && s.live.streaming[0].kind == kind then s.live.streaming[0].text else ""
  }

  /**
    Any run of a connection beside any run of a session whose process it is.
    Since the process began, what is shown of a kind and then the live text are
    exactly the chunks the session has read; and once it has read all, they are
    every chunk the connection was sent, outside a reload, each once and in order.
   */
  lemma EverythingSaidIsShown(crun: seq<CM.State>, csteps: seq<CS.Step>, i: nat,
                              run: seq<State>, steps: seq<(Action, Env)>, k: nat, kind: Kind)
    requires CS.IsRun(crun, csteps) && i < |crun|
    requires SessionRuns.IsRun(run, steps) && k < |run|
    requires run[k].proc && run[k].past.heard <= crun[i].past.emitted
    ensures var before := Shown(run[Begun(run, k)], kind);
            && Shown(run[k], kind) + LiveOf(run[k], kind) == before + DeltasOf(run[k].past.heard, kind)
            && (run[k].past.heard == crun[i].past.emitted && !crun[i].ended ==>
                Shown(run[k], kind) + LiveOf(run[k], kind) == before + CR.ChunksIn(crun, csteps, i, kind))
  {
    SessionShowsTheConnection(crun, csteps, i, run, steps, k);
    var heard := run[k].past.heard;
    ShownIsComplete(run, steps, k, kind);
    BlocksConserveDeltas(heard, kind);
    assert LiveOf(run[k], kind) == OpenText(BlockScan(heard).open, kind);
    var before := Shown(run[Begun(run, k)], kind);
    hide Shown, LiveOf, BlocksOf, DeltasOf, BlockScan, OpenText, Begun, LiveText;
    Regroup(before, BlocksOf(heard, kind), LiveOf(run[k], kind));
    if heard == crun[i].past.emitted && !crun[i].ended {
      ReadAll(crun, csteps, i, kind);
    }
  }

  // What a connection wrote are the chunks it was sent.
  lemma ReadAll(crun: seq<CM.State>, csteps: seq<CS.Step>, i: nat, kind: Kind)
    requires CS.IsRun(crun, csteps) && i < |crun| && !crun[i].ended
    ensures DeltasOf(crun[i].past.emitted, kind) == CR.ChunksIn(crun, csteps, i, kind)
  {
    CS.EveryRunIsSafe(crun, csteps, i);
    CR.NoChunkIsLost(crun, csteps, i, kind);
    BlocksConserveDeltas(crun[i].past.emitted, kind);
    hide BlocksOf, DeltasOf, BlockScan;
  }
}
