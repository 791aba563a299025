/**
  What a harness connection promises over whole runs, in terms of what went in
  and what came out: every chunk is in the output once, prompts run one at a
  time in order with one result each, every permission request settles exactly
  once, and everything is handed to the engine in order.
 */
module ConnRuns {
  import opened Wrappers
  import opened Messages
  import opened Protocol
  import opened ConnModel
  import opened ConnSafety

  // --- chunks -----------------------------------------------------------------

  /** The chunk of a kind a step brings, if the connection listens: not while it reloads, and not after the exit. */
  function ChunkIn(s: State, step: Step, kind: Kind): string {
    if s.loading || s.ended || !step.NotifyStep? then ""
    else match step.u
         case AgentChunk(t) => if kind == Text then t else ""
         case ThoughtChunk(t) => if kind == Thinking then t else ""
         case _ => ""
  }

  function ChunksIn(run: seq<State>, steps: seq<Step>, k: nat, kind: Kind): string
    requires k <= |steps| && k <= |run|
  {
    if k == 0 then "" else ChunksIn(run, steps, k - 1, kind) + ChunkIn(run[k - 1], steps[k - 1], kind)
  }

  function Heard(s: State, kind: Kind): string {
    if kind == Text then s.past.heardText else s.past.heardThought
  }

  lemma HeardChunk(s: State, of: Kind, chunk: string, newID: string, kind: Kind)
    ensures Heard(Chunk(s, of, chunk, newID), kind) == Heard(s, kind) + (if kind == of && !s.ended then chunk else "")
    ensures Chunk(s, of, chunk, newID).past.dropped == s.past.dropped
  {
    hide FlushOne, OpenBlock, Put;
    NoText(Heard(s, kind));
  }

  lemma HeardNotify(s: State, u: Update, newID: string, kind: Kind)
    ensures Heard(Notify(s, u, newID), kind) == Heard(s, kind) + ChunkIn(s, NotifyStep(u, newID), kind)
    ensures Notify(s, u, newID).past.dropped == s.past.dropped
  {
    hide Chunk, ToolUpdate, ShowPlan;
    NoText(Heard(s, kind));
    match u
    case AgentChunk(t) => HeardChunk(s, Text, t, newID, kind);
    case ThoughtChunk(t) => HeardChunk(s, Thinking, t, newID, kind);
    case _ =>
  }

  // Only chunks are remembered as heard, and only interrupts drop prompts.
  lemma HeardStep(s: State, step: Step, kind: Kind)
    requires Enabled(s, step)
    ensures Heard(Apply(s, step), kind) == Heard(s, kind) + ChunkIn(s, step, kind)
    ensures Apply(s, step).past.dropped == s.past.dropped + (if step.InterruptStep? then s.queued else [])
  {
    DroppedStep(s, step);
    hide Notify, Enabled, Heard;
    if step.NotifyStep? {
      HeardNotify(s, step.u, step.newID, kind);
    } else {
      NoText(Heard(s, kind));
      OthersHearNothing(s, step, kind);
      hide Apply;
    }
  }

  lemma OthersHearNothing(s: State, step: Step, kind: Kind)
    requires Enabled(s, step) && !step.NotifyStep?
    ensures Heard(Apply(s, step), kind) == Heard(s, kind)
  {
    hide Request, EndTurn, CancelAll;
  }

  lemma DroppedStep(s: State, step: Step)
    requires Enabled(s, step)
    ensures Apply(s, step).past.dropped == s.past.dropped + (if step.InterruptStep? then s.queued else [])
  {
    hide Notify, Request, EndTurn, CancelAll;
    assert s.past.dropped + [] == s.past.dropped;
    if step.NotifyStep? {
      HeardNotify(s, step.u, step.newID, Text);
    }
  }

  lemma NothingHeard(kind: Kind)
    ensures Heard(Initial, kind) == ""
  {
  }

  lemma {:induction false} HeardIsWhatCame(run: seq<State>, steps: seq<Step>, k: nat, kind: Kind)
    requires IsRun(run, steps) && k < |run|
    ensures Heard(run[k], kind) == ChunksIn(run, steps, k, kind)
  {
    hide Apply, Enabled, ChunkIn, Heard;
    if k == 0 {
      assert Heard(run[0], kind) == "" by { NothingHeard(kind); }
    } else {
      HeardIsWhatCame(run, steps, k - 1, kind);
      HeardStep(run[k - 1], steps[k - 1], kind);
    }
  }

  /**
    Until the agent exits, per kind: the completed blocks that went out,
    followed by the block still open, are exactly the chunks that came in.
   */
  lemma NoChunkIsLost(run: seq<State>, steps: seq<Step>, k: nat, kind: Kind)
    requires IsRun(run, steps) && k < |run| && !run[k].ended
    ensures BlocksOf(run[k].past.emitted, kind) + StreamOf(run[k], kind).text == ChunksIn(run, steps, k, kind)
    ensures run[k].text.id.None? || run[k].thought.id.None?
  {
    EveryRunIsSafe(run, steps, k);
    HeardIsWhatCame(run, steps, k, kind);
    BlocksConserveDeltas(run[k].past.emitted, kind);
  }

  // --- prompts ----------------------------------------------------------------

  /**
    At every point of every run: at most one prompt runs; the prompts begun,
    then those waiting, come in the order they were sent; every prompt sent was
    begun, waits, or was dropped by an interrupt; and until the agent exits
    every prompt begun has its one result, except the one running.
   */
  lemma PromptsAreSerial(run: seq<State>, steps: seq<Step>, k: nat)
    requires IsRun(run, steps) && k < |run|
    ensures var s := run[k];
            && |s.callers| <= 1 && (s.callers != [] <==> s.prompting)
            && (!s.prompting ==> s.queued == [])
            && Subsequence(s.past.started + s.queued, s.past.sends)
            && multiset(s.past.sends) == multiset(s.past.started) + multiset(s.queued) + multiset(s.past.dropped)
            && (!s.ended ==> ResultsIn(s.past.emitted) + |s.callers| == |s.past.started|)
  {
    EveryRunIsSafe(run, steps, k);
    ResultsAreCounted(run[k].past.emitted);
  }

  /**
    When a turn ends its result is the last thing out, with no block open and
    one result for each prompt begun; only then does the next prompt begin.
   */
  lemma ResultBeforeTheNextPrompt(s: State, i: nat, o: Outcome)
    requires Inv(s) && i < |s.callers| && !s.ended
    ensures var t := PromptReturned(s, i, o);
            && t.past.emitted == Flush(s).past.emitted + [ResultOf(o)]
            && BlockScan(t.past.emitted).Blocks? && BlockScan(t.past.emitted).open.Closed?
            && ResultsIn(t.past.emitted) == |s.past.started|
            && t.past.started == s.past.started + (if s.queued == [] then [] else [s.queued[0]])
  {
    hide Flush, ResultOf, BlockScan, LedgerScan, ResultsIn, Drawn, Prompted, SettledOnce, Kept, InOrder;
    PromptReturnedKeeps(s, i, o);
    EndTurnKeeps(s, o);
    FlushKeeps(s);
    ResultsAreCounted(EndTurn(s, o).past.emitted);
  }

  /** Prompts are dropped by interrupts alone, and then all that waited: Send reported success for each of them. */
  lemma OnlyInterruptsDrop(s: State, step: Step)
    requires Enabled(s, step)
    ensures Apply(s, step).past.dropped == s.past.dropped + (if step.InterruptStep? then s.queued else [])
  {
    HeardStep(s, step, Text);
  }

  /** A run in which one does: the prompt sent during a turn is dropped with it. */
  lemma AnInterruptDrops(p: Prompt, q: Prompt) returns (run: seq<State>, steps: seq<Step>)
    requires p != [] && q != []
    ensures IsRun(run, steps)
    ensures var s := run[|steps|]; s.past.sends == [p, q] && s.past.started == [p] && s.past.dropped == [q]
  {
    steps := [SendStep(p), SendStep(q), InterruptStep([])];
    var s1 := Apply(Initial, steps[0]);
    var s2 := Apply(s1, steps[1]);
    run := [Initial, s1, s2, Apply(s2, steps[2])];
  }

  // --- permissions --------------------------------------------------------------

  /**
    A request's waiter goes on when its channel has a value or is closed; the
    value "" and a closed channel mean cancelled.
   */
  function Answer(c: Chan): Option<string>
    requires Settled(c) > 0
  {
    if |c.sent| > 0 && c.sent[0] != "" then Some(c.sent[0]) else None
  }

  /**
    At every point of every run, every request so far has settled at most
    once, and exactly once unless it still waits or its answer is on the way.
    After the exit, once no answer is on the way, no request is left waiting.
   */
  lemma PermissionsSettleOnce(run: seq<State>, steps: seq<Step>, k: nat, req: string)
    requires IsRun(run, steps) && k < |run| && req in run[k].replies
    ensures Settled(run[k].replies[req]) <= 1
    ensures Settled(run[k].replies[req]) == 1 <==> req !in run[k].pending && req !in run[k].inflight
    ensures run[k].ended && run[k].inflight == map[] ==> Settled(run[k].replies[req]) == 1
  {
    EveryRunIsSafe(run, steps, k);
  }

  lemma {:induction false} CancelAllOnlyTheirs(s: State, order: seq<string>, req: string)
    requires req in s.replies && req !in order
    ensures req in CancelAll(s, order).replies && CancelAll(s, order).replies[req] == s.replies[req]
    decreases |order|
  {
    if order != [] {
      assert order == order[..|order| - 1] + [order[|order| - 1]];
      CancelAllOnlyTheirs(s, order[..|order| - 1], req);
    }
  }

  // What the agent says, a turn's end and another request leave a request's channel alone.
  lemma RequestKeepsTheChannel(s: State, r: string, tool: string, o: Options)
    ensures Request(s, r, tool, o).replies == if s.ended then s.replies else s.replies[r := Chan([], false)]
  {
    hide Show, Known, OnlySays;
  }

  lemma ReturnKeepsTheChannel(s: State, i: nat, o: Outcome)
    requires i < |s.callers|
    ensures PromptReturned(s, i, o).replies == s.replies
  {
    hide EndTurn, OnlySays;
  }

  // Answers to other requests, and an exit, leave a settled request's channel alone.
  lemma AnswersKeepTheChannel(s: State, r: string, req: string)
    requires Inv(s) && req in s.replies && Settled(s.replies[req]) == 1
    ensures r in s.inflight ==> RespondSend(s, r).replies == s.replies[r := RespondSend(s, r).replies[r]] && r != req
    ensures req in Exited(s).replies && Exited(s).replies[req] == s.replies[req]
  {
    hide Inv;
    SettledIsDone(s, req);
  }

  // The steps that answer, cancel or close requests.
  lemma SettledStays(s: State, step: Step, req: string)
    requires Inv(s) && Enabled(s, step) && req in s.replies && Settled(s.replies[req]) == 1
    requires step.RespondSendStep? || step.ExitStep? || step.InterruptStep?
    ensures req in Apply(s, step).replies && Apply(s, step).replies[req] == s.replies[req]
  {
    SettledIsDone(s, req);
    hide Inv, CancelAll, RespondSend, Exited;
    match step {
      case RespondSendStep(r) => AnswersKeepTheChannel(s, r, req);
      case InterruptStep(order) => CancelAllOnlyTheirs(DropQueue(s), order, req);
      case ExitStep => AnswersKeepTheChannel(s, req, req);
    }
  }

  // The steps of the agent's words, requests and turns.
  lemma SpeechKeepsTheChannel(s: State, step: Step, req: string)
    requires Inv(s) && Enabled(s, step) && req in s.replies
    requires step.NotifyStep? || step.RequestStep? || step.ReturnedStep?
    ensures req in Apply(s, step).replies && Apply(s, step).replies[req] == s.replies[req]
  {
    hide Inv, Notify, Request, PromptReturned, Respond, RespondSend, Interrupt, Send, Exited;
    match step {
      case NotifyStep(u, newID) =>
      case RequestStep(r, tool, o) => RequestKeepsTheChannel(s, r, tool, o);
      case ReturnedStep(i, o) => ReturnKeepsTheChannel(s, i, o);
    }
  }

  lemma QuietKeepsTheChannel(s: State, step: Step)
    requires Enabled(s, step)
    requires step.RespondStep? || step.SendStep? || step.TakeStep? || step.DeliverStep? || step.CloseStep?
        || step.LoadingStep?
    ensures Apply(s, step).replies == s.replies
  {
  }

  /** Once settled, a request's outcome never changes: nothing is sent on its channel again, and it is not closed. */
  lemma SettledForGood(s: State, step: Step, req: string)
    requires Inv(s) && Enabled(s, step) && req in s.replies && Settled(s.replies[req]) == 1
    ensures req in Apply(s, step).replies && Apply(s, step).replies[req] == s.replies[req]
  {
    hide Inv, Apply, Enabled;
    if step.RespondSendStep? || step.ExitStep? || step.InterruptStep? {
      SettledStays(s, step, req);
    } else if step.NotifyStep? || step.RequestStep? || step.ReturnedStep? {
      SpeechKeepsTheChannel(s, step, req);
    } else {
      QuietKeepsTheChannel(s, step);
    }
  }

  /**
    The user's answer is what the waiter gets, if it was taken before anything
    else settled the request: a denial the deny option, an approval the one for
    the session if there is one and the user wants it, or else the allow option.
   */
  lemma TheAnswerArrives(s: State, req: string, allow: bool, updates: bool)
    requires Inv(s) && req in s.pending
    ensures var o, t := s.pending[req], Respond(s, req, allow, updates);
            && Inv(t) && req in t.inflight
            && var c := RespondSend(t, req).replies[req];
               && Settled(c) == 1 && |c.sent| == 1
               && (!allow ==> c.sent[0] == o.deny)
               && (allow && updates && o.allowSession != "" ==> c.sent[0] == o.allowSession)
               && (allow && (!updates || o.allowSession == "") ==> c.sent[0] == o.allow)
               && Answer(c) == if c.sent[0] == "" then None else Some(c.sent[0])
  {
    RespondKeeps(s, req, allow, updates);
    RespondSendKeeps(Respond(s, req, allow, updates), req);
    hide Inv;
  }

  // --- delivery -------------------------------------------------------------------

  /** The engine has a prefix of what went out; when the stream is closed, after the exit, it has all of it. */
  lemma DeliveredInOrder(run: seq<State>, steps: seq<Step>, k: nat)
    requires IsRun(run, steps) && k < |run|
    ensures run[k].past.delivered <= run[k].past.emitted
    ensures run[k].closed ==> run[k].ended && run[k].past.delivered == run[k].past.emitted
  {
    EveryRunIsSafe(run, steps, k);
    hide BlockScan, LedgerScan, Agree, Drawn, Prompted, SettledOnce, OneAtATime, Kept;
  }

  /**
    The whole output of every run is one its reader can rely on: whole blocks,
    answered tools, prompts for shown tools.
   */
  lemma OutputIsWellFormed(run: seq<State>, steps: seq<Step>, k: nat)
    requires IsRun(run, steps) && k < |run|
    ensures BlockScan(run[k].past.emitted).Blocks? && LedgerScan(run[k].past.emitted).Ledger?
  {
    EveryRunIsSafe(run, steps, k);
  }
}
