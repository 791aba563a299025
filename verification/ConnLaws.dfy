/**
  What a harness connection's steps come to, in terms of what goes in and what
  goes out: which option an answer sends, what a tool's update, a plan, a
  request, an interrupt and a turn's end put into the output, which parts of a
  message reach the agent.
 */
module ConnLaws {
  import opened Wrappers
  import opened Messages
  import opened Protocol
  import opened ConnModel
  import opened ConnSafety
  import opened PermissionOptions

  // --- the user's answer ---------------------------------------------------------------------

  ghost predicate IsLast(opts: seq<PermissionOption>, i: int, kind: OptionKind) {
    0 <= i < |opts| && opts[i].kind == kind && forall j :: i < j < |opts| ==> opts[j].kind != kind
  }

  ghost predicate IsFirst(opts: seq<PermissionOption>, i: int, kind: OptionKind) {
    0 <= i < |opts| && opts[i].kind == kind && forall j :: 0 <= j < i ==> opts[j].kind != kind
  }

  ghost predicate LastOf(opts: seq<PermissionOption>, kind: OptionKind, id: string) {
    exists i :: IsLast(opts, i, kind) && opts[i].id == id
  }

  ghost predicate FirstOf(opts: seq<PermissionOption>, kind: OptionKind, id: string) {
    exists i :: IsFirst(opts, i, kind) && opts[i].id == id
  }

  /** What a denial sends: the last way to reject once, or else the first to reject always; nothing if there is none. */
  ghost predicate Denies(opts: seq<PermissionOption>, id: string) {
    if Has(opts, RejectOnce) then LastOf(opts, RejectOnce, id)
    else if Has(opts, RejectAlways) then FirstOf(opts, RejectAlways, id)
    else id == ""
  }

  /**
    What an approval sends: the last way to allow always, if the user wants that
    or there is no other; or else the last to allow once; nothing if neither is
    offered.
   */
  ghost predicate Allows(opts: seq<PermissionOption>, updates: bool, id: string) {
    if Has(opts, AllowAlways) && (updates || !Has(opts, AllowOnce)) then LastOf(opts, AllowAlways, id)
    else if Has(opts, AllowOnce) then LastOf(opts, AllowOnce, id)
    else id == ""
  }

  lemma {:induction false} LastIdIsLast(opts: seq<PermissionOption>, kind: OptionKind)
    ensures Has(opts, kind) ==> LastOf(opts, kind, LastId(opts, kind))
    ensures !Has(opts, kind) ==> LastId(opts, kind) == ""
  {
    if opts != [] {
      var n := |opts| - 1;
      var before := opts[..n];
      LastIdIsLast(before, kind);
      if opts[n].kind == kind {
        assert IsLast(opts, n, kind);
      } else if Has(before, kind) {
        var i :| IsLast(before, i, kind) && before[i].id == LastId(before, kind);
        assert IsLast(opts, i, kind);
      } else {
        forall i | 0 <= i < |opts| ensures opts[i].kind != kind {
          assert i < n ==> before[i] == opts[i];
        }
      }
    }
  }

  lemma {:induction false} FindFirst(opts: seq<PermissionOption>, kind: OptionKind) returns (i: nat)
    requires Has(opts, kind)
    ensures IsFirst(opts, i, kind)
  {
    var n := |opts| - 1;
    assert forall j :: 0 <= j < n ==> opts[..n][j] == opts[j];
    if Has(opts[..n], kind) {
      i := FindFirst(opts[..n], kind);
    } else {
      i := n;
      assert forall j :: 0 <= j < n ==> opts[..n][j].kind != kind;
    }
  }

  lemma {:induction false} FirstIdAt(opts: seq<PermissionOption>, kind: OptionKind, i: nat)
    requires IsFirst(opts, i, kind) && opts[i].id != ""
    ensures FirstId(opts, kind) == opts[i].id
  {
    var n := |opts| - 1;
    if i < n {
      FirstIdAt(opts[..n], kind, i);
    } else {
      IdsAreOffered(opts[..n], kind);
    }
  }

  lemma FirstIdIsFirst(opts: seq<PermissionOption>, kind: OptionKind)
    requires AllHaveIds(opts)
    ensures Has(opts, kind) ==> FirstOf(opts, kind, FirstId(opts, kind))
    ensures !Has(opts, kind) ==> FirstId(opts, kind) == ""
  {
    IdsAreOffered(opts, kind);
    hide FirstId, Has;
    if Has(opts, kind) {
      var i := FindFirst(opts, kind);
      FirstIdAt(opts, kind, i);
    }
  }

  // What each answer picks, of options with ids.
  lemma PicksAreRight(opts: seq<PermissionOption>, updates: bool)
    requires AllHaveIds(opts)
    ensures Denies(opts, Choice(Offered(opts), false, updates))
    ensures Allows(opts, updates, Choice(Offered(opts), true, updates))
  {
    LastIdIsLast(opts, RejectOnce);
    LastIdIsLast(opts, AllowOnce);
    LastIdIsLast(opts, AllowAlways);
    FirstIdIsFirst(opts, RejectAlways);
    SinceLastIs(opts, RejectOnce);
    IdsAreOffered(opts, RejectOnce);
    IdsAreOffered(opts, AllowOnce);
    IdsAreOffered(opts, AllowAlways);
    hide LastId, FirstId, SinceLast, LastOf, FirstOf, Has, AllHaveIds;
  }

  /** The request is still known; if it waits it always did, with the same options, and so with an answer on its way. */
  ghost predicate Stays(s: State, t: State, req: string) {
    && req in t.replies
    && (req in t.pending ==> req in s.pending && t.pending[req] == s.pending[req])
    && (req in t.inflight ==> req in s.inflight && t.inflight[req] == s.inflight[req])
  }

  lemma RequestStays(s: State, step: Step, req: string)
    requires Enabled(s, step) && req in s.replies && !(step.RespondStep? && step.req == req)
    ensures Stays(s, Apply(s, step), req)
  {
    hide Apply, Enabled, Stays;
    if step.NotifyStep? || step.RequestStep? || step.InterruptStep? || step.ReturnedStep? {
      SpeechStays(s, step, req);
    } else {
      OthersStay(s, step, req);
    }
  }

  lemma SpeechStays(s: State, step: Step, req: string)
    requires Enabled(s, step) && req in s.replies
    requires step.NotifyStep? || step.RequestStep? || step.InterruptStep? || step.ReturnedStep?
    ensures Stays(s, Apply(s, step), req)
  {
    hide Notify, EndTurn, Interrupt, Request, OnlySays;
    match step {
      case InterruptStep(order) => InterruptStays(s, order, req);
      case RequestStep(r, tool, o) => OtherRequestStays(s, r, tool, o, req);
      case _ =>
    }
  }

  lemma OthersStay(s: State, step: Step, req: string)
    requires Enabled(s, step) && req in s.replies && !(step.RespondStep? && step.req == req)
    requires !step.NotifyStep? && !step.RequestStep? && !step.InterruptStep? && !step.ReturnedStep?
    ensures Stays(s, Apply(s, step), req)
  {
    hide Respond, RespondSend, Exited, Send, PumpTake, PumpDeliver, OnlySays;
    match step {
      case RespondStep(r, allow, updates) => AnswerStays(s, r, allow, updates, req);
      case RespondSendStep(r) => AnswerStays(s, r, true, true, req);
      case ExitStep => ExitStays(s, req);
      case _ =>
    }
  }

  lemma AnswerStays(s: State, r: string, allow: bool, updates: bool, req: string)
    requires req in s.replies
    ensures r != req ==> Stays(s, Respond(s, r, allow, updates), req)
    ensures r in s.inflight ==> Stays(s, RespondSend(s, r), req)
  {
    hide Choice, OnlySays;
  }

  lemma ExitStays(s: State, req: string)
    requires req in s.replies
    ensures Stays(s, Exited(s), req)
  {
  }

  lemma OtherRequestStays(s: State, r: string, tool: string, o: Options, req: string)
    requires req in s.replies && r != req
    ensures Stays(s, Request(s, r, tool, o), req)
  {
    hide Show, Known, OnlySays;
  }

  lemma InterruptStays(s: State, order: seq<string>, req: string)
    requires req in s.replies
    ensures Stays(s, Interrupt(s, order), req)
  {
    hide CancelAll;
    CancelAllStays(DropQueue(s), order, req);
  }

  lemma {:induction false} CancelAllStays(s: State, order: seq<string>, req: string)
    requires req in s.replies
    ensures Stays(s, CancelAll(s, order), req)
    decreases |order|
  {
    hide OnlySays;
    if order != [] {
      CancelAllStays(s, order[..|order| - 1], req);
    }
  }

  /** What is known of a request in state k, given the one that made it. */
  ghost predicate AsMade(s: State, req: string, o: Options) {
    req in s.replies && (req in s.pending ==> s.pending[req] == o)
  }

  lemma MadeStep(s: State, step: Step, req: string, o: Options)
    requires Enabled(s, step) && AsMade(s, req, o)
    ensures AsMade(Apply(s, step), req, o)
  {
    hide Notify, EndTurn, Interrupt, Request, OnlySays;
    if !(step.RespondStep? && step.req == req) {
      RequestStays(s, step, req);
      hide Apply;
    }
  }

  lemma {:induction false} MadeStays(run: seq<State>, steps: seq<Step>, i: nat, j: nat, req: string, o: Options)
    requires IsRun(run, steps) && i <= j < |run| && AsMade(run[i], req, o)
    ensures AsMade(run[j], req, o)
    decreases j
  {
    hide Apply, Enabled, AsMade;
    if i < j {
      MadeStays(run, steps, i, j - 1, req, o);
      MadeStep(run[j - 1], steps[j - 1], req, o);
    }
  }

  /** An answer, once chosen, can only be sent as it was chosen. */
  ghost predicate AsChosen(s: State, req: string, id: string) {
    req in s.replies && req !in s.pending && (req in s.inflight ==> s.inflight[req] == id)
  }

  lemma ChosenStep(s: State, step: Step, req: string, id: string)
    requires Enabled(s, step) && AsChosen(s, req, id)
    ensures AsChosen(Apply(s, step), req, id)
  {
    hide Notify, EndTurn, Interrupt, Request, OnlySays;
    if !(step.RespondStep? && step.req == req) {
      RequestStays(s, step, req);
      hide Apply;
    }
  }

  lemma {:induction false} ChosenStays(run: seq<State>, steps: seq<Step>, i: nat, j: nat, req: string, id: string)
    requires IsRun(run, steps) && i <= j < |run| && AsChosen(run[i], req, id)
    ensures AsChosen(run[j], req, id)
    decreases j
  {
    hide Apply, Enabled, AsChosen;
    if i < j {
      ChosenStays(run, steps, i, j - 1, req, id);
      ChosenStep(run[j - 1], steps[j - 1], req, id);
    }
  }

  /**
    The user's answer is what the agent gets, in every run: if request, answer
    and the answer's sending are steps i, j and k, with whatever between them,
    the request's channel then holds one id, which is one the agent offered for
    that answer.
   */
  lemma TheUsersAnswerIsSent(run: seq<State>, steps: seq<Step>, i: nat, j: nat, k: nat,
                             req: string, tool: string, opts: seq<PermissionOption>, allow: bool, updates: bool)
    requires IsRun(run, steps) && i < j < k < |steps| && AllHaveIds(opts)
    requires steps[i] == RequestStep(req, tool, Offered(opts)) && !run[i].ended
    requires steps[j] == RespondStep(req, allow, updates) && req in run[j].pending
    requires steps[k] == RespondSendStep(req)
    ensures req in run[k + 1].replies && |run[k + 1].replies[req].sent| == 1
    ensures allow ==> Allows(opts, updates, run[k + 1].replies[req].sent[0])
    ensures !allow ==> Denies(opts, run[k + 1].replies[req].sent[0])
  {
    var o := Offered(opts);
    var id := Choice(o, allow, updates);
    RequestIsMade(run[i], req, tool, o);
    MadeStays(run, steps, i + 1, j, req, o);
    assert AsChosen(run[j + 1], req, id);
    ChosenStays(run, steps, j + 1, k, req, id);
    EveryRunIsSafe(run, steps, k);
    RespondSendKeeps(run[k], req);
    PicksAreRight(opts, updates);
    hide Inv, Allows, Denies, AllHaveIds, Offered, Choice;
  }

  lemma RequestIsMade(s: State, req: string, tool: string, o: Options)
    requires !s.ended
    ensures AsMade(Request(s, req, tool, o), req, o)
  {
    hide Show, Known, OnlySays;
  }

  // --- tool calls ----------------------------------------------------------------------------

  ghost predicate HasText(contents: seq<ToolContent>, i: int) {
    0 <= i < |contents| && contents[i].Content? && contents[i].text != ""
  }

  /** The last text of some contents, or what was there before if they bring none. */
  ghost predicate LastOfTexts(contents: seq<ToolContent>, before: string, text: string) {
    if exists i :: HasText(contents, i)
    then exists i :: HasText(contents, i) && contents[i].text == text && forall j :: i < j ==> !HasText(contents, j)
    else text == before
  }

  lemma {:induction false} LastTextIsLast(contents: seq<ToolContent>, before: string)
    ensures LastOfTexts(contents, before, LastText(contents, before))
  {
    if contents != [] {
      var n := |contents| - 1;
      LastTextIsLast(contents[..n], before);
      if HasText(contents, n) {
        assert forall j :: n < j ==> !HasText(contents, j);
      } else {
        assert forall i :: HasText(contents, i) <==> HasText(contents[..n], i);
        if exists i :: HasText(contents[..n], i) {
          var i :| HasText(contents[..n], i) && contents[..n][i].text == LastText(contents[..n], before)
                   && forall j :: i < j ==> !HasText(contents[..n], j);
          assert HasText(contents, i) && contents[i].text == LastText(contents, before);
        }
      }
    }
  }

  /** The call was shown before. */
  predicate WasShown(s: State, id: string) { id in s.tools && s.tools[id].emitted }

  /** The text a call's updates brought before. */
  function TextSoFar(s: State, id: string): string { if id in s.tools then s.tools[id].output else "" }

  /**
    An update shows the call once it runs, unless it was shown; when it is done
    it is answered, as failed exactly when it failed, with the last text that
    its updates brought or else its raw output, and is a new call afterwards.
   */
  lemma ToolsAreShownAndAnswered(s: State, id: string, status: ToolStatus, contents: seq<ToolContent>,
                                 raw: Option<string>, newID: string) returns (text: string)
    requires !s.ended && !s.loading
    ensures LastOfTexts(contents, TextSoFar(s, id), text)
    ensures var t := Notify(s, Tool(id, status, contents, raw), newID);
            var shows := (status == InProgress || status == Finished || status == Failed) && !WasShown(s, id);
            var answers := status == Finished || status == Failed;
            && t.past.emitted == (if shows then Flush(s).past.emitted + [ToolUse(id)] else s.past.emitted)
                 + (if answers then [ToolResult(id, if text != "" then text else raw.GetOr(""), status == Failed)]
                     else [])
            && (answers ==> id !in t.tools)
            && (!answers ==> TextSoFar(t, id) == text && (WasShown(t, id) <==> WasShown(s, id) || shows))
            && forall other :: other != id ==>
                 TextSoFar(t, other) == TextSoFar(s, other) && WasShown(t, other) == WasShown(s, other)
  {
    hide LastText, Flush, Show, Answer, SameRequests, OnlySays;
    text := LastText(contents, TextSoFar(s, id));
    LastTextIsLast(contents, TextSoFar(s, id));
    var call := Known(s.tools, id).(output := text);
    ShowsOnce(s, id, call, Ready(status));
    AnswersWhenDone(Show(s, id, call, Ready(status)), id, status, raw);
  }

  lemma ShowsOnce(s: State, id: string, call: ToolCall, now: bool)
    requires !s.ended
    ensures var t := Show(s, id, call, now);
            && t.past.emitted
                == (if now && !call.emitted then Flush(s).past.emitted + [ToolUse(id)] else s.past.emitted)
            && t.tools == s.tools[id := call.(emitted := call.emitted || now)] && !t.ended
  {
    hide Flush;
  }

  lemma AnswersWhenDone(s: State, id: string, status: ToolStatus, raw: Option<string>)
    requires id in s.tools && !s.ended && (Done(status) ==> s.tools[id].emitted)
    ensures var t := Answer(s, id, status, raw);
            && t.past.emitted == s.past.emitted
                 + (if Done(status) then [ToolResult(id, Output(s.tools[id].output, raw), status == Failed)] else [])
            && t.tools == if Done(status) then s.tools - {id} else s.tools
  {
    assert s.past.emitted + [] == s.past.emitted;
  }

  /** A plan is a tool use and its result. */
  lemma PlansAreShown(s: State, newID: string)
    requires !s.ended && !s.loading
    ensures var t := Notify(s, Plan, newID);
            && t.past.emitted == Flush(s).past.emitted
                 + [ToolUse("plan_" + newID), ToolResult("plan_" + newID, "Plan updated", false)]
            && t.tools == s.tools
  {
    hide Flush;
  }

  /** Settings that report something are told, at any time; while a session is reloaded nothing else is. */
  lemma OnlySettingsDuringAReload(s: State, u: Update, newID: string)
    requires !s.ended
    ensures u.Setting? ==>
              Notify(s, u, newID).past.emitted == s.past.emitted + (if u.reports then [System(false)] else [])
    ensures s.loading && !u.Setting? ==> Notify(s, u, newID) == s
  {
    assert s.past.emitted + [] == s.past.emitted;
  }

  /** Once the agent exited nothing more goes out, and it stays so. */
  lemma NothingAfterTheExit(s: State, step: Step)
    requires Enabled(s, step)
    ensures s.ended || step.ExitStep? ==> Apply(s, step).ended && Apply(s, step).past.emitted == s.past.emitted
  {
    hide Apply, Enabled;
    if s.ended {
      if step.NotifyStep? || step.ReturnedStep? || step.InterruptStep? {
        SilentSpeech(s, step);
      } else {
        SilentOthers(s, step);
      }
    } else if step.ExitStep? {
      SilentExit(s);
    }
  }

  lemma SilentExit(s: State)
    ensures Apply(s, ExitStep).ended && Apply(s, ExitStep).past.emitted == s.past.emitted
  {
  }

  lemma SilentSpeech(s: State, step: Step)
    requires Enabled(s, step) && s.ended && (step.NotifyStep? || step.ReturnedStep? || step.InterruptStep?)
    ensures Apply(s, step).ended && Apply(s, step).past.emitted == s.past.emitted
  {
    hide Notify, EndTurn, CancelAll, SameRequests;
  }

  lemma SilentOthers(s: State, step: Step)
    requires Enabled(s, step) && s.ended && !step.NotifyStep? && !step.ReturnedStep? && !step.InterruptStep?
    ensures Apply(s, step).ended && Apply(s, step).past.emitted == s.past.emitted
  {
    hide OnlySays, SameRequests;
  }

  // --- requests, interrupts and turns ----------------------------------------------------------

  /** A request is shown, right after its tool if that was not shown yet, and waits; after the exit it is not. */
  lemma RequestsAreShown(s: State, req: string, tool: string, o: Options)
    ensures s.ended ==> Request(s, req, tool, o) == s
    ensures !s.ended ==>
              var t := Request(s, req, tool, o);
              && t.past.emitted
                  == (if WasShown(s, tool) then s.past.emitted else Flush(s).past.emitted + [ToolUse(tool)])
                   + [ControlRequest(req, tool)]
              && t.pending == s.pending[req := o] && t.replies == s.replies[req := Chan([], false)]
              && WasShown(t, tool) && TextSoFar(t, tool) == TextSoFar(s, tool)
  {
    hide Flush;
  }

  function Withdrawn(order: seq<string>): seq<Message> {
    if order == [] then [] else Withdrawn(order[..|order| - 1]) + [ControlCancel(order[|order| - 1])]
  }

  /** An interrupt withdraws every waiting request, once each, and answers each with a cancellation. */
  lemma InterruptsWithdraw(s: State, order: seq<string>)
    requires Inv(s) && Lists(order, s.pending.Keys)
    ensures var t := Interrupt(s, order);
            && t.pending == map[] && t.queued == []
            && t.past.emitted == s.past.emitted + (if s.ended then [] else Withdrawn(order))
            && (forall r :: r in s.pending ==> r in t.replies && t.replies[r].sent == [""])
  {
    DropKeeps(s);
    CancelAllLeaves(DropQueue(s), order);
    CancelAllWithdraws(DropQueue(s), order);
    forall r | r in s.pending ensures r in Interrupt(s, order).replies && Interrupt(s, order).replies[r].sent == [""] {
      CancelAllAnswers(DropQueue(s), order, r);
    }
    forall r ensures r !in Interrupt(s, order).pending {
      CancelAllPending(DropQueue(s), order, r);
    }
    hide Inv, CancelAll, Lists;
    assert Interrupt(s, order).pending == map[];
  }

  lemma {:induction false} CancelAllWithdraws(s: State, order: seq<string>)
    ensures CancelAll(s, order).past.emitted == s.past.emitted + (if s.ended then [] else Withdrawn(order))
    decreases |order|
  {
    if order == [] {
      assert s.past.emitted + [] == s.past.emitted;
    } else {
      CancelAllWithdraws(s, order[..|order| - 1]);
    }
  }

  lemma {:induction false} CancelAllAnswers(s: State, order: seq<string>, r: string)
    requires Inv(s) && r in s.pending && r in order
    requires forall x :: x in order ==> x in s.pending
    requires forall i, j :: 0 <= i < j < |order| ==> order[i] != order[j]
    ensures r in CancelAll(s, order).replies && CancelAll(s, order).replies[r].sent == [""]
    decreases |order|
  {
    hide Inv, CancelAll, CancelOne;
    var before, last := order[..|order| - 1], order[|order| - 1];
    assert order == before + [last];
    CancelAllSnoc(s, before, last);
    CancelAllKeeps(s, before);
    CancelAllPending(s, before, last);
    CancelOneKeeps(CancelAll(s, before), last);
    if r != last {
      CancelAllAnswers(s, before, r);
    }
  }

  /**
    A turn ends with one result: a success unless the call failed or the agent
    ran out of its limits or declined, which it then says. Its tools are
    forgotten.
   */
  lemma TurnsEndWithTheirResult(s: State, i: nat, o: Outcome) returns (result: Message)
    requires !s.ended && i < |s.callers|
    ensures PromptReturned(s, i, o).past.emitted == Flush(s).past.emitted + [result]
    ensures PromptReturned(s, i, o).tools == map[]
    ensures result.Result? && !result.contextFull
    ensures result.ok <==> o.Stopped? && o.reason != "max_tokens" && o.reason != "max_turn_requests"
                           && o.reason != "refusal"
    ensures o.CallError? ==> result.resultText == o.text
    ensures o.Stopped? ==> (result.ok <==> result.resultText == "")
  {
    hide Flush, SameRequests;
    result := ResultOf(o);
  }

  // --- prompts -------------------------------------------------------------------------------

  /** A part reaches the agent: text that is not empty, or a picture with its data, if the agent takes pictures. */
  predicate Reaches(p: Part, canImage: bool) {
    match p
    case TextPart(t) => t != ""
    case ImagePart(data) => canImage && data.Some?
    case OtherPart => false
  }

  /** A prompt is the parts that reach the agent, in their order: nothing else, and none left out. */
  lemma {:induction false} PromptsCarryTheirParts(content: seq<Part>, canImage: bool)
    ensures forall p :: p in Accepted(content, canImage) <==> p in content && Reaches(p, canImage)
    ensures Subsequence(Accepted(content, canImage), content)
    ensures (forall p :: p in content ==> Reaches(p, canImage)) ==> Accepted(content, canImage) == content
    decreases |content|
  {
    if content != [] {
      var before, last := content[..|content| - 1], content[|content| - 1];
      assert content == before + [last];
      PromptsCarryTheirParts(before, canImage);
      SubsequenceSnoc(Accepted(before, canImage), before, last);
      assert Accepted(before, canImage) + [] == Accepted(before, canImage);
      if forall p :: p in content ==> Reaches(p, canImage) {
        assert last in content && forall p :: p in before ==> p in content;
      }
    }
  }

  /** A prompt runs at once or waits behind the others, exactly as a turn runs or not; an empty one does nothing. */
  lemma PromptsRunOrWait(s: State, p: Prompt)
    requires Inv(s)
    ensures p == [] ==> Send(s, p) == s
    ensures p != [] && s.callers == [] ==> Send(s, p).callers == [p] && Send(s, p).queued == []
    ensures p != [] && s.callers != [] ==> Send(s, p).callers == s.callers && Send(s, p).queued == s.queued + [p]
  {
    hide Told, SettledOnce, Kept, OneResultEach;
  }
}
