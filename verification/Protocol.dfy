/**
  The output protocol of a harness connection, as two automata over its whole
  message stream (one for streamed blocks, one for tools and permission
  prompts), and what a stream they accept looks like position by position.
  Conn (Conn.dfy) keeps its stream accepted at every step.
 */
module Protocol {
  import opened Wrappers
  import opened Messages

  // --- blocks ----------------------------------------------------------------

  /** The block being streamed: none, announced by its message, or open with its text so far. */
  datatype BlockState = Closed | Named(id: string) | Open(id: string, kind: Kind, text: string)

  /** The stream so far: the block being streamed, all text and all thinking streamed, and the turn results. */
  datatype Blocks = Broken | Blocks(open: BlockState, said: string, thought: string, results: nat)

  function AddDelta(a: Blocks, t: string): Blocks
    requires a.Blocks? && a.open.Open?
  {
    var open' := a.open.(text := a.open.text + t);
    if a.open.kind == Text then a.(open := open', said := a.said + t) else a.(open := open', thought := a.thought + t)
  }

  function BlockStep(a: Blocks, m: Message): Blocks {
    if a.Broken? then Broken
    else if a.open.Named? then
      if m == BlockStart("0", Some(Text)) then a.(open := Open(a.open.id, Text, ""))
      else if m == BlockStart("0", Some(Thinking)) then a.(open := Open(a.open.id, Thinking, ""))
      else Broken
    else match m
      case MessageStart(id) => if a.open.Closed? && ':' !in id then a.(open := Named(id)) else Broken
      case Delta(i, k, t) => if i == "0" && t != "" && a.open.Open? && a.open.kind == k then AddDelta(a, t) else Broken
      case Assistant(id, content, e) =>
        if e != NoError || |content| != 1 then Broken
        else if content[0].ToolBlock? then if a.open.Closed? then a else Broken
        else if a.open.Open? && a.open.id == id && content[0] == BlockOf(a.open.kind, a.open.text)
        then a.(open := Closed) else Broken
      case Result(_, _, _) => if a.open.Closed? then a.(results := a.results + 1) else Broken
      case ToolResult(_, _, _) => a
      case ControlRequest(_, _) => a
      case ControlCancel(_) => a
      case System(_) => a
      case _ => Broken
  }

  function BlockScan(out: seq<Message>): Blocks {
    if out == [] then Blocks(Closed, "", "", 0) else BlockStep(BlockScan(out[..|out| - 1]), out[|out| - 1])
  }

  lemma BlockScanSnoc(out: seq<Message>, m: Message)
    ensures BlockScan(out + [m]) == BlockStep(BlockScan(out), m)
  {
    assert (out + [m])[..|out|] == out;
  }

  /** Accepted streams are prefix closed, and out[k] was accepted from the state before it. */
  lemma {:induction false} BlockScanAt(out: seq<Message>, k: nat)
    requires BlockScan(out).Blocks? && k < |out|
    ensures BlockScan(out[..k]).Blocks? && BlockStep(BlockScan(out[..k]), out[k]).Blocks?
    decreases |out|
  {
    if k < |out| - 1 {
      assert out[..|out| - 1][..k] == out[..k];
      BlockScanAt(out[..|out| - 1], k);
    }
  }

  /** Messages that may come while a block is open without touching it. */
  predicate Unrelated(m: Message) {
    m.ToolResult? || m.ControlRequest? || m.ControlCancel? || m.System?
  }

  /**
    `out` from position j on is one block's bracket: its start, its kind, then
    only its deltas (and unrelated messages).
   */
  ghost predicate Bracket(out: seq<Message>, j: nat, id: string, kind: Kind) {
    && j + 2 <= |out|
    && out[j] == MessageStart(id)
    && out[j + 1] == BlockStart("0", Some(kind))
    && (forall i :: j + 2 <= i < |out| ==> Unrelated(out[i]) || (out[i].Delta? && out[i].deltaKind == kind))
  }

  function Deltas(out: seq<Message>): string {
    if out == [] then ""
    else Deltas(out[..|out| - 1]) + (if out[|out| - 1].Delta? then out[|out| - 1].text else "")
  }

  lemma BracketSnoc(out: seq<Message>, m: Message, j: nat, id: string, kind: Kind)
    requires Bracket(out, j, id, kind)
    requires Unrelated(m) || (m.Delta? && m.deltaKind == kind)
    ensures Bracket(out + [m], j, id, kind)
    ensures Deltas((out + [m])[j + 2..]) == Deltas(out[j + 2..]) + (if m.Delta? then m.text else "")
  {
    var tail := (out + [m])[j + 2..];
    assert tail[..|tail| - 1] == out[j + 2..];
  }

  lemma NamedByTheLast(out: seq<Message>)
    requires BlockScan(out).Blocks? && BlockScan(out).open.Named?
    ensures out != [] && out[|out| - 1] == MessageStart(BlockScan(out).open.id)
  {
  }

  lemma AnOpenBlockGrows(a: Blocks, m: Message)
    requires BlockStep(a, m).Blocks? && BlockStep(a, m).open.Open? && !a.open.Named?
    ensures a.open.Open? && BlockStep(a, m).open == a.open.(text := a.open.text + (if m.Delta? then m.text else ""))
    ensures Unrelated(m) || (m.Delta? && m.deltaKind == a.open.kind)
  {
    assert a.open.Open? ==> a.open.text + "" == a.open.text;
  }

  /** While a block is open, the stream ends in its bracket, whose deltas joined are its text. */
  lemma {:induction false} OpenBlockIsItsBracket(out: seq<Message>) returns (j: nat)
    requires BlockScan(out).Blocks? && BlockScan(out).open.Open?
    ensures Bracket(out, j, BlockScan(out).open.id, BlockScan(out).open.kind)
    ensures Deltas(out[j + 2..]) == BlockScan(out).open.text
    decreases |out|
  {
    var n := |out| - 1;
    var before, m := out[..n], out[n];
    assert out == before + [m];
    if BlockScan(before).open.Named? {
      NamedByTheLast(before);
      j := n - 1;
      assert out[j + 2..] == [];
    } else {
      AnOpenBlockGrows(BlockScan(before), m);
      j := OpenBlockIsItsBracket(before);
      BracketSnoc(before, m, j, BlockScan(before).open.id, BlockScan(before).open.kind);
    }
  }

  /**
    Every completed block closes its own bracket: since its message start only
    its deltas went out (no tool use, no other block, no result), and its text
    is those deltas joined.
   */
  lemma EveryBlockIsWhole(out: seq<Message>, k: nat, kind: Kind, text: string) returns (j: nat)
    requires BlockScan(out).Blocks? && k < |out| && out[k].Assistant? && out[k].content == [BlockOf(kind, text)]
    ensures j + 2 <= k && Bracket(out[..k], j, out[k].id, kind) && Deltas(out[j + 2..k]) == text
  {
    BlockScanAt(out, k);
    j := OpenBlockIsItsBracket(out[..k]);
    assert out[..k][j + 2..] == out[j + 2..k];
  }

  function DeltaText(m: Message, kind: Kind): string {
    if m.Delta? && m.deltaKind == kind then m.text else ""
  }

  function DeltasOf(out: seq<Message>, kind: Kind): string {
    if out == [] then "" else DeltasOf(out[..|out| - 1], kind) + DeltaText(out[|out| - 1], kind)
  }

  function BlockText(m: Message, kind: Kind): string {
    if !m.Assistant? || |m.content| != 1 then ""
    else match m.content[0]
         case TextBlock(t) => if kind == Text then t else ""
         case ThinkingBlock(t) => if kind == Thinking then t else ""
         case _ => ""
  }

  function BlocksOf(out: seq<Message>, kind: Kind): string {
    if out == [] then "" else BlocksOf(out[..|out| - 1], kind) + BlockText(out[|out| - 1], kind)
  }

  function OpenText(b: BlockState, kind: Kind): string {
    if b.Open? && b.kind == kind then b.text else ""
  }

  function Streamed(a: Blocks, kind: Kind): string
    requires a.Blocks?
  {
    if kind == Text then a.said else a.thought
  }

  // One step moves text from the stream to the open block, or from the open block to the completed ones.
  lemma StepConserves(a: Blocks, m: Message, kind: Kind)
    requires BlockStep(a, m).Blocks?
    ensures Streamed(BlockStep(a, m), kind) == Streamed(a, kind) + DeltaText(m, kind)
    ensures BlockText(m, kind) + OpenText(BlockStep(a, m).open, kind) == OpenText(a.open, kind) + DeltaText(m, kind)
  {
    NoText(Streamed(a, kind));
    StepMoves(a, m, kind);
    hide OpenText, BlockText;
  }

  lemma StepMoves(a: Blocks, m: Message, kind: Kind)
    requires BlockStep(a, m).Blocks?
    ensures BlockText(m, kind) + OpenText(BlockStep(a, m).open, kind) == OpenText(a.open, kind) + DeltaText(m, kind)
  {
    assert a.Blocks?;
    hide BlockStep, BlockText, OpenText, DeltaText;
    NoText(OpenText(a.open, kind));
    NoText(OpenText(BlockStep(a, m).open, kind));
    if m.Delta? {
      ADeltaMoves(a, m, kind);
    } else {
      ABlockMoves(a, m, kind);
    }
  }

  lemma ADeltaMoves(a: Blocks, m: Message, kind: Kind)
    requires BlockStep(a, m).Blocks? && m.Delta?
    ensures BlockText(m, kind) == ""
    ensures OpenText(BlockStep(a, m).open, kind) == OpenText(a.open, kind) + DeltaText(m, kind)
  {
    NoText(OpenText(a.open, kind));
  }

  lemma ABlockMoves(a: Blocks, m: Message, kind: Kind)
    requires BlockStep(a, m).Blocks? && !m.Delta?
    ensures DeltaText(m, kind) == ""
    ensures (BlockText(m, kind) == "" && OpenText(BlockStep(a, m).open, kind) == OpenText(a.open, kind))
         || (BlockText(m, kind) == OpenText(a.open, kind) && OpenText(BlockStep(a, m).open, kind) == "")
  {
  }

  lemma NoText(t: string)
    ensures t + "" == t && "" + t == t
  {
  }

  lemma Regroup(done: string, block: string, open': string, open: string, delta: string)
    requires block + open' == open + delta
    ensures (done + block) + open' == (done + open) + delta
  {
    assert (done + block) + open' == done + (block + open');
    assert (done + open) + delta == done + (open + delta);
  }

  /**
    Per kind, the completed blocks and the open one join to exactly what was
    streamed: nothing lost, repeated or reordered.
   */
  lemma {:induction false} BlocksConserveDeltas(out: seq<Message>, kind: Kind)
    requires BlockScan(out).Blocks?
    ensures DeltasOf(out, kind) == Streamed(BlockScan(out), kind)
    ensures BlocksOf(out, kind) + OpenText(BlockScan(out).open, kind) == DeltasOf(out, kind)
    decreases |out|
  {
    if out != [] {
      var before, m := out[..|out| - 1], out[|out| - 1];
      BlocksConserveDeltas(before, kind);
      StepConserves(BlockScan(before), m, kind);
      Regroup(BlocksOf(before, kind), BlockText(m, kind), OpenText(BlockScan(out).open, kind),
              OpenText(BlockScan(before).open, kind), DeltaText(m, kind));
    }
  }

  /** A turn's result comes when no block is open, so every chunk before it is in a completed block. */
  lemma ResultsComeBetweenBlocks(out: seq<Message>, k: nat, kind: Kind)
    requires BlockScan(out).Blocks? && k < |out| && out[k].Result?
    ensures BlocksOf(out[..k], kind) == DeltasOf(out[..k], kind)
  {
    BlockScanAt(out, k);
    BlocksConserveDeltas(out[..k], kind);
  }

  function ResultsIn(out: seq<Message>): nat {
    if out == [] then 0 else ResultsIn(out[..|out| - 1]) + (if out[|out| - 1].Result? then 1 else 0)
  }

  lemma {:induction false} ResultsAreCounted(out: seq<Message>)
    requires BlockScan(out).Blocks?
    ensures BlockScan(out).results == ResultsIn(out)
    decreases |out|
  {
    if out != [] {
      ResultsAreCounted(out[..|out| - 1]);
    }
  }

  // --- tools and permissions ------------------------------------------------

  /** Tool uses without a result yet, tools that had a use, permission requests shown, and the ones withdrawn. */
  datatype Ledger =
    | Forged
    | Ledger(unmatched: multiset<string>, used: set<string>, asked: set<string>, canceled: set<string>)

  predicate IsUse(m: Message, u: string) {
    m.Assistant? && m.content == [ToolBlock(u)]
  }

  function LedgerStep(a: Ledger, m: Message): Ledger {
    if a.Forged? then Forged else
    match m
    case Assistant(_, content, _) =>
      if |content| == 1 && content[0].ToolBlock?
      then a.(unmatched := a.unmatched + multiset{content[0].tool}, used := a.used + {content[0].tool}) else a
    case ToolResult(u, _, _) => if u in a.unmatched then a.(unmatched := a.unmatched - multiset{u}) else Forged
    case ControlRequest(r, u) => if u in a.used && r !in a.asked then a.(asked := a.asked + {r}) else Forged
    case ControlCancel(r) => if r in a.asked && r !in a.canceled then a.(canceled := a.canceled + {r}) else Forged
    case _ => a
  }

  function LedgerScan(out: seq<Message>): Ledger {
    if out == [] then Ledger(multiset{}, {}, {}, {}) else LedgerStep(LedgerScan(out[..|out| - 1]), out[|out| - 1])
  }

  lemma LedgerScanSnoc(out: seq<Message>, m: Message)
    ensures LedgerScan(out + [m]) == LedgerStep(LedgerScan(out), m)
  {
    assert (out + [m])[..|out|] == out;
  }

  lemma {:induction false} LedgerScanAt(out: seq<Message>, k: nat)
    requires LedgerScan(out).Ledger? && k < |out|
    ensures LedgerScan(out[..k]).Ledger? && LedgerStep(LedgerScan(out[..k]), out[k]).Ledger?
    decreases |out|
  {
    if k < |out| - 1 {
      assert out[..|out| - 1][..k] == out[..k];
      LedgerScanAt(out[..|out| - 1], k);
    }
  }

  function Uses(out: seq<Message>, u: string): nat {
    if out == [] then 0 else Uses(out[..|out| - 1], u) + (if IsUse(out[|out| - 1], u) then 1 else 0)
  }

  function ToolResults(out: seq<Message>, u: string): nat {
    if out == [] then 0
    else ToolResults(out[..|out| - 1], u) + (if out[|out| - 1].ToolResult? && out[|out| - 1].tool == u then 1 else 0)
  }

  // One message changes the count of unanswered uses by the use or the result it is.
  lemma LedgerStepCounts(a: Ledger, m: Message, u: string)
    requires LedgerStep(a, m).Ledger?
    ensures LedgerStep(a, m).unmatched[u] ==
            a.unmatched[u] + (if IsUse(m, u) then 1 else 0) - (if m.ToolResult? && m.tool == u then 1 else 0)
    ensures u in LedgerStep(a, m).used <==> u in a.used || IsUse(m, u)
  {
    UseIs(m, u);
    hide IsUse;
    if m.ToolResult? {
      OneLess(a.unmatched, m.tool, u);
    } else if m.Assistant? && |m.content| == 1 && m.content[0].ToolBlock? {
      OneMore(a.unmatched, m.content[0].tool, u);
    }
  }

  lemma OneLess(b: multiset<string>, x: string, u: string)
    requires x in b
    ensures (b - multiset{x})[u] == b[u] - (if x == u then 1 else 0)
  {
  }

  lemma OneMore(b: multiset<string>, x: string, u: string)
    ensures (b + multiset{x})[u] == b[u] + (if x == u then 1 else 0)
  {
  }

  lemma UseIs(m: Message, u: string)
    ensures IsUse(m, u) <==> m.Assistant? && |m.content| == 1 && m.content[0] == ToolBlock(u)
  {
    if m.Assistant? && |m.content| == 1 {
      assert m.content == [m.content[0]];
    }
  }

  lemma {:induction false} UnmatchedIsTheDifference(out: seq<Message>, u: string)
    requires LedgerScan(out).Ledger?
    ensures LedgerScan(out).unmatched[u] == Uses(out, u) - ToolResults(out, u)
    ensures u in LedgerScan(out).used <==> Uses(out, u) > 0
    decreases |out|
  {
    assert out != [] ==> LedgerScan(out[..|out| - 1]).Ledger?;
    hide LedgerStep, IsUse;
    if out != [] {
      LedgerStepCounts(LedgerScan(out[..|out| - 1]), out[|out| - 1], u);
      UnmatchedIsTheDifference(out[..|out| - 1], u);
    }
  }

  lemma {:induction false} AUseWasEmitted(out: seq<Message>, u: string) returns (j: nat)
    requires Uses(out, u) > 0
    ensures j < |out| && IsUse(out[j], u)
    decreases |out|
  {
    if IsUse(out[|out| - 1], u) {
      j := |out| - 1;
    } else {
      j := AUseWasEmitted(out[..|out| - 1], u);
    }
  }

  /** Every tool result answers a tool use of its own: before it there are more uses of the tool than results. */
  lemma EveryResultHasItsUse(out: seq<Message>, k: nat)
    requires LedgerScan(out).Ledger? && k < |out| && out[k].ToolResult?
    ensures Uses(out[..k], out[k].tool) > ToolResults(out[..k], out[k].tool)
    ensures exists j :: 0 <= j < k && IsUse(out[j], out[k].tool)
  {
    LedgerScanAt(out, k);
    UnmatchedIsTheDifference(out[..k], out[k].tool);
    var j := AUseWasEmitted(out[..k], out[k].tool);
    assert out[j] == out[..k][j];
  }

  lemma LedgerStepAsks(a: Ledger, m: Message, r: string)
    requires LedgerStep(a, m).Ledger?
    ensures a.Ledger? && (r in LedgerStep(a, m).asked <==> r in a.asked || (m.ControlRequest? && m.req == r))
  {
  }

  ghost predicate Shows(out: seq<Message>, r: string) {
    exists j :: 0 <= j < |out| && out[j].ControlRequest? && out[j].req == r
  }

  lemma ShowsSnoc(out: seq<Message>, m: Message, r: string)
    ensures Shows(out + [m], r) <==> Shows(out, r) || (m.ControlRequest? && m.req == r)
  {
    var all := out + [m];
    if j :| 0 <= j < |out| && out[j].ControlRequest? && out[j].req == r {
      assert all[j] == out[j];
    }
    assert all[|out|] == m;
  }

  lemma {:induction false} AskedIsShown(out: seq<Message>, r: string)
    requires LedgerScan(out).Ledger?
    ensures r in LedgerScan(out).asked <==> Shows(out, r)
    decreases |out|
  {
    hide LedgerStep, Shows;
    if out == [] {
      assert !Shows(out, r) by { NothingShows(r); }
    } else {
      var before, m := out[..|out| - 1], out[|out| - 1];
      LedgerStepAsks(LedgerScan(before), m, r);
      AskedIsShown(before, r);
      ShowsSnoc(before, m, r);
      assert out == before + [m];
    }
  }

  lemma NothingShows(r: string)
    ensures !Shows([], r)
  {
  }

  lemma AskedWasEmitted(out: seq<Message>, r: string)
    requires LedgerScan(out).Ledger?
    ensures r in LedgerScan(out).asked <==> exists j :: 0 <= j < |out| && out[j].ControlRequest? && out[j].req == r
  {
    AskedIsShown(out, r);
    hide LedgerScan;
  }

  /** A permission prompt is only shown for a tool whose use was shown before, and never twice. */
  lemma EveryRequestFollowsItsUse(out: seq<Message>, k: nat)
    requires LedgerScan(out).Ledger? && k < |out| && out[k].ControlRequest?
    ensures exists j :: 0 <= j < k && IsUse(out[j], out[k].tool)
    ensures forall j :: 0 <= j < k && out[j].ControlRequest? ==> out[j].req != out[k].req
  {
    LedgerScanAt(out, k);
    UnmatchedIsTheDifference(out[..k], out[k].tool);
    var j := AUseWasEmitted(out[..k], out[k].tool);
    assert out[j] == out[..k][j];
    AskedWasEmitted(out[..k], out[k].req);
    assert forall j :: 0 <= j < k ==> out[j] == out[..k][j];
  }
}
