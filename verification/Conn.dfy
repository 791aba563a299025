/**
  The harness connection as the source writes it: an object whose methods
  update its fields. Each method is one critical section of its mutex, or one
  step of a goroutine outside it, and computes the function of ConnModel.dfy
  of the same name; so any interleaving of calls is a run of ConnSafety.dfy.
 */
module Harness {
  import opened Wrappers
  import opened Messages
  import opened ConnModel
  import opened ConnSafety
  import opened PermissionOptions

  /**
    The kinds' last options win, except that reject_always only fills an empty
    deny; allow falls back to allow for the session.
   */
  method ReadOptions(opts: seq<PermissionOption>) returns (o: Options)
    ensures o == Offered(opts)
    ensures o.allowSession == LastId(opts, AllowAlways)
    ensures o.allow == Or(LastId(opts, AllowOnce), o.allowSession)
    ensures o.deny == Or(LastId(opts, RejectOnce), FirstId(SinceLast(opts, RejectOnce), RejectAlways))
    ensures AllHaveIds(opts) ==>
              && (o.deny != "" <==> Has(opts, RejectOnce) || Has(opts, RejectAlways))
              && (o.allow != "" <==> Has(opts, AllowOnce) || Has(opts, AllowAlways))
              && (o.allowSession != "" <==> Has(opts, AllowAlways))
    ensures o.deny == ""
        || PermissionOption(RejectOnce, o.deny) in opts || PermissionOption(RejectAlways, o.deny) in opts
    ensures o.allow == ""
        || PermissionOption(AllowOnce, o.allow) in opts || PermissionOption(AllowAlways, o.allow) in opts
    ensures o.allowSession == "" || PermissionOption(AllowAlways, o.allowSession) in opts
  {
    o := Options("", "", "");
    for k := 0 to |opts|
      invariant o.allowSession == LastId(opts[..k], AllowAlways) && o.allow == LastId(opts[..k], AllowOnce)
      invariant o.deny == DenyId(opts[..k])
    {
      OneMoreOption(opts, k, AllowOnce);
      OneMoreOption(opts, k, AllowAlways);
      DenyOneMore(opts, k);
      hide LastId, DenyId, FirstId, SinceLast;
      match opts[k].kind {
        case AllowOnce => o := o.(allow := opts[k].id);
        case AllowAlways => o := o.(allowSession := opts[k].id);
        case RejectOnce => o := o.(deny := opts[k].id);
        case RejectAlways =>
          if o.deny == "" {
            o := o.(deny := opts[k].id);
          }
        case UnknownKind =>
      }
    }
    assert opts[..|opts|] == opts;
    DenyIsOffered(opts);
    IdsAreOffered(opts, AllowOnce);
    IdsAreOffered(opts, AllowAlways);
    hide LastId, FirstId, SinceLast, Has, AllHaveIds;
    if o.allow == "" {
      o := o.(allow := o.allowSession);
    }
  }

  lemma CloseNone(replies: map<string, Chan>)
    ensures Close(replies, {}) == replies
  {
  }

  lemma CloseOneMore(replies: map<string, Chan>, done: set<string>, r: string)
    requires r in replies && r !in done
    ensures r in Close(replies, done) && Close(replies, done)[r] == replies[r]
    ensures Close(replies, done + {r}) == Close(replies, done)[r := replies[r].(closed := true)]
  {
  }

  class Conn {
    const canImage: bool
    var out: seq<Message>
    var ended: bool
    var loading: bool
    var prompting: bool
    var queued: seq<Prompt>
    var tools: map<string, ToolCall>
    var text: Stream
    var thought: Stream
    var pending: map<string, Options>
    var replies: map<string, Chan>
    var hand: seq<Message>
    var closed: bool
    var callers: seq<Prompt>
    var inflight: map<string, string>
    ghost var past: History

    ghost function View(): State
      reads this
    {
      State(out, ended, loading, prompting, queued, tools, text, thought, pending, replies, hand, closed, callers,
          inflight, past)
    }

    constructor (canImage: bool)
      ensures View() == Initial && this.canImage == canImage
    {
      this.canImage := canImage;
      out, ended, loading, prompting, queued, tools := [], false, false, false, [], map[];
      text, thought, pending, replies, hand, closed := NoStream, NoStream, map[], map[], [], false;
      callers, inflight, past := [], map[], History([], [], "", "", [], [], []);
    }

    // --- the message stream ---------------------------------------------------

    /** Queues a message for the engine; after the exit nothing more goes out. */
    method EmitLocked(m: Message)
      modifies this
      ensures View() == Say(old(View()), [m])
    {
      if ended {
        return;
      }
      out := out + [m];
      past := past.(emitted := past.emitted + [m]);
    }

    method Set(kind: Kind, st: Stream)
      modifies this
      ensures View() == Put(old(View()), kind, st)
    {
      if kind == Text {
        text := st;
      } else {
        thought := st;
      }
    }

    method FlushOneLocked(kind: Kind)
      modifies this
      ensures View() == FlushOne(old(View()), kind)
    {
      var st := if kind == Text then text else thought;
      if st.id.None? {
        return;
      }
      EmitLocked(Assistant(st.id.value, [BlockOf(kind, st.text)], NoError));
      Set(kind, NoStream);
    }

    method FlushLocked()
      modifies this
      ensures View() == Flush(old(View()))
    {
      FlushOneLocked(Thinking);
      FlushOneLocked(Text);
    }

    method StreamLocked(kind: Kind, chunk: string, newID: string)
      modifies this
      ensures View() == Chunk(old(View()), kind, chunk, newID)
    {
      hide FlushOne, OpenBlock, Append;
      if chunk == "" {
        return;
      }
      FlushOneLocked(if kind == Text then Thinking else Text);
      var st := if kind == Text then text else thought;
      if st.id.None? {
        OpenLocked(kind, newID);
      }
      AppendLocked(kind, chunk);
    }

    method OpenLocked(kind: Kind, newID: string)
      modifies this
      ensures View() == OpenBlock(old(View()), kind, newID)
    {
      SayTwo(View(), MessageStart(newID), BlockStart("0", Some(kind)));
      EmitLocked(MessageStart(newID));
      EmitLocked(BlockStart("0", Some(kind)));
      Set(kind, Stream(Some(newID), ""));
    }

    method AppendLocked(kind: Kind, chunk: string)
      modifies this
      ensures View() == Append(old(View()), kind, chunk)
    {
      var st := if kind == Text then text else thought;
      EmitLocked(Delta("0", kind, chunk));
      Set(kind, st.(text := st.text + chunk));
      if !ended {
        past := if kind == Text then past.(heardText := past.heardText + chunk)
                else past.(heardThought := past.heardThought + chunk);
      }
    }

    // --- tool calls -------------------------------------------------------------

    method EmitToolLocked(id: string)
      modifies this
      ensures View() == ShowTool(old(View()), id)
    {
      hide Flush;
      FlushLocked();
      EmitLocked(ToolUse(id));
    }

    /** The last text of an update's contents replaces the call's output. */
    method ReadContents(contents: seq<ToolContent>, before: string) returns (output: string)
      ensures output == LastText(contents, before)
    {
      output := before;
      for i := 0 to |contents|
        invariant output == LastText(contents[..i], before)
      {
        if contents[i].Content? && contents[i].text != "" {
          output := contents[i].text;
        }
        assert contents[..i + 1][..i] == contents[..i];
      }
      assert contents[..|contents|] == contents;
    }

    // Shows a call the first time it is ready, and remembers it.
    method ShowLocked(id: string, t: ToolCall, now: bool)
      modifies this
      ensures View() == Show(old(View()), id, t, now)
      ensures id in tools
    {
      hide ShowTool;
      if now && !t.emitted {
        EmitToolLocked(id);
      }
      tools := tools[id := t.(emitted := t.emitted || now)];
    }

    method ToolLocked(id: string, status: ToolStatus, contents: seq<ToolContent>, raw: Option<string>)
      modifies this
      ensures View() == ToolUpdate(old(View()), id, status, contents, raw)
    {
      hide Show, LastText, Answer, OnlySays;
      var t := if id in tools then tools[id] else ToolCall(false, "");
      var output := ReadContents(contents, t.output);
      t := t.(output := output);
      ShowLocked(id, t, Ready(status));
      AnswerLocked(id, status, raw);
    }

    method AnswerLocked(id: string, status: ToolStatus, raw: Option<string>)
      requires id in tools
      modifies this
      ensures View() == Answer(old(View()), id, status, raw)
    {
      var t := tools[id];
      if t.emitted && Done(status) {
        tools := tools - {id};
        EmitLocked(ToolResult(id, if t.output == "" then raw.GetOr("") else t.output, status == Failed));
      }
    }

    method PlanLocked(newID: string)
      modifies this
      ensures View() == ShowPlan(old(View()), newID)
    {
      hide ShowTool;
      EmitToolLocked("plan_" + newID);
      EmitLocked(ToolResult("plan_" + newID, "Plan updated", false));
    }

    /** What the agent says. newID is the fresh id a new message gets. */
    method OnNotify(u: Update, newID: string)
      modifies this
      ensures View() == Notify(old(View()), u, newID)
    {
      hide Chunk, ToolUpdate, ShowPlan;
      if loading && !u.Setting? {
        return;
      }
      match u {
        case AgentChunk(t) => StreamLocked(Text, t, newID);
        case ThoughtChunk(t) => StreamLocked(Thinking, t, newID);
        case Tool(id, status, contents, raw) => ToolLocked(id, status, contents, raw);
        case Plan => PlanLocked(newID);
        case Setting(reports) =>
          if reports {
            EmitLocked(System(false));
          }
        case UserChunk =>
      }
    }

    // --- permission prompts -----------------------------------------------------

    method OnRequest(req: string, tool: string, o: Options)
      modifies this
      ensures View() == Request(old(View()), req, tool, o)
    {
      hide Show;
      if ended {
        return;
      }
      var t := if tool in tools then tools[tool] else ToolCall(false, "");
      ShowLocked(tool, t, true);
      replies := replies[req := Chan([], false)];
      pending := pending[req := o];
      EmitLocked(ControlRequest(req, tool));
    }

    /** Answers a prompt, unless someone else took it: the locked half. */
    method Respond(req: string, allow: bool, updates: bool) returns (found: bool)
      modifies this
      ensures View() == ConnModel.Respond(old(View()), req, allow, updates)
      ensures found == (req in old(pending))
    {
      found := req in pending;
      if found {
        inflight := inflight[req := Choice(pending[req], allow, updates)];
        pending := pending - {req};
      }
    }

    /** Sends on a request's reply channel of capacity one: it would block on a full one and panic on a closed one. */
    method SendReply(req: string, value: string)
      requires req in replies && Settled(replies[req]) == 0
      modifies this
      ensures View() == ConnModel.SendReply(old(View()), req, value)
    {
      replies := replies[req := replies[req].(sent := replies[req].sent + [value])];
    }

    /** Closes a request's reply channel: it would panic on a closed one. */
    method CloseReply(req: string)
      requires req in replies && !replies[req].closed
      modifies this
      ensures View() == old(View()).(replies := old(replies)[req := old(replies)[req].(closed := true)])
    {
      replies := replies[req := replies[req].(closed := true)];
    }

    /** The other half, after the unlock. */
    method RespondSend(req: string)
      requires Inv(View()) && req in inflight
      modifies this
      ensures View() == ConnModel.RespondSend(old(View()), req)
      ensures Inv(View())
    {
      hide Inv, ConnModel.RespondSend;
      RespondSendKeeps(View(), req);
      SendHeld(req);
    }

    method SendHeld(req: string)
      requires req in inflight && req in replies && Settled(replies[req]) == 0
      modifies this
      ensures View() == ConnModel.RespondSend(old(View()), req)
    {
      var choice := inflight[req];
      inflight := inflight - {req};
      SendReply(req, choice);
    }

    /** Cancels the turn. The runtime walks the waiting requests in some order. */
    method Interrupt() returns (ghost order: seq<string>)
      requires Inv(View())
      modifies this
      ensures Lists(order, old(pending).Keys)
      ensures View() == ConnModel.Interrupt(old(View()), order)
      ensures Inv(View())
    {
      DropKeeps(View());
      hide Inv, CancelAll;
      past := past.(dropped := past.dropped + queued);
      queued := [];
      order := CancelPending();
    }

    method CancelPending() returns (ghost order: seq<string>)
      requires Inv(View())
      modifies this
      ensures Lists(order, old(pending).Keys)
      ensures View() == CancelAll(old(View()), order) && Inv(View())
    {
      hide Inv, CancelAll, CancelOne;
      order := [];
      CancelAllNone(View());
      while pending != map[]
        invariant Inv(View())
        invariant View() == CancelAll(old(View()), order)
        invariant forall r :: r in old(pending) <==> r in pending || r in order
        invariant forall r :: r in order ==> r !in pending
        invariant forall i, j :: 0 <= i < j < |order| ==> order[i] != order[j]
        decreases |pending|
      {
        var id :| id in pending;
        CancelOneKeeps(View(), id);
        CancelAllSnoc(old(View()), order, id);
        CancelRequest(id);
        order := order + [id];
      }
    }

    method CancelRequest(id: string)
      requires id in replies && Settled(replies[id]) == 0
      modifies this
      ensures View() == CancelOne(old(View()), id)
    {
      SendReply(id, "");
      pending := pending - {id};
      EmitLocked(ControlCancel(id));
    }

    // --- prompts ----------------------------------------------------------------

    /** The parts of a message the agent can take. */
    method Blocks(content: seq<Part>) returns (p: Prompt)
      ensures p == Accepted(content, canImage)
    {
      p := [];
      for i := 0 to |content|
        invariant p == Accepted(content[..i], canImage)
      {
        if Accepts(content[i], canImage) {
          p := p + [content[i]];
        }
        assert content[..i + 1][..i] == content[..i];
      }
      assert content[..|content|] == content;
    }

    method Send(content: seq<Part>)
      modifies this
      ensures View() == ConnModel.Send(old(View()), Accepted(content, canImage))
    {
      hide Accepted;
      var p := Blocks(content);
      if p == [] {
        return;
      }
      past := past.(sends := past.sends + [p]);
      if prompting {
        queued := queued + [p];
        return;
      }
      prompting := true;
      Start(p);
    }

    // A goroutine calls the agent.
    method Start(p: Prompt)
      modifies this
      ensures View() == old(View()).(callers := old(callers) + [p],
                                     past := old(past).(started := old(past).started + [p]))
    {
      callers := callers + [p];
      past := past.(started := past.started + [p]);
    }

    /** The call of caller i's goroutine returned. */
    method PromptReturned(i: nat, o: Outcome)
      requires i < |callers|
      modifies this
      ensures View() == ConnModel.PromptReturned(old(View()), i, o)
    {
      hide EndTurn, NextPrompt, OnlySays;
      EndTurnLocked(o);
      NextStarts(i);
    }

    method NextStarts(i: nat)
      requires i < |callers|
      modifies this
      ensures View() == NextPrompt(old(View()), i)
    {
      callers := callers[..i] + callers[i + 1..];
      if |queued| > 0 {
        var next := queued[0];
        queued := queued[1..];
        Start(next);
      } else {
        prompting := false;
      }
    }

    method EndTurnLocked(o: Outcome)
      modifies this
      ensures View() == EndTurn(old(View()), o)
    {
      hide Flush, ResultOf;
      FlushLocked();
      EmitLocked(ResultOf(o));
      tools := map[];
    }

    // --- the exit and the pump --------------------------------------------------

    method AgentExited()
      requires Inv(View())
      modifies this
      ensures View() == Exited(old(View()))
      ensures Inv(View())
    {
      ExitedKeeps(View());
      WaitingIsOpen(View());
      hide Inv, Close;
      ended := true;
      CloseReplies();
      pending := map[];
    }

    // Closes the reply channel of every waiting request.
    method CloseReplies()
      requires forall r :: r in pending ==> r in replies && replies[r] == Chan([], false)
      modifies this
      ensures View() == old(View()).(replies := Close(old(replies), old(pending).Keys))
    {
      hide Close;
      var left := pending.Keys;
      CloseNone(replies);
      assert old(pending).Keys - left == {};
      while left != {}
        invariant left <= old(pending).Keys
        invariant View() == old(View()).(replies := Close(old(replies), old(pending).Keys - left))
      {
        var r :| r in left;
        CloseOneMore(old(replies), old(pending).Keys - left, r);
        assert old(pending).Keys - left + {r} == old(pending).Keys - (left - {r});
        CloseReply(r);
        left := left - {r};
      }
      assert old(pending).Keys - left == old(pending).Keys;
    }

    method PumpTake()
      requires out != []
      modifies this
      ensures View() == ConnModel.PumpTake(old(View()))
    {
      hand := hand + [out[0]];
      out := out[1..];
    }

    method PumpDeliver() returns (m: Message)
      requires hand != []
      modifies this
      ensures View() == ConnModel.PumpDeliver(old(View())) && m == old(hand)[0]
    {
      m := hand[0];
      hand := hand[1..];
      past := past.(delivered := past.delivered + [m]);
    }

    /** The pump closes the stream: everything the agent said was handed over. */
    method PumpClose()
      requires Inv(View()) && ended && out == [] && hand == []
      modifies this
      ensures View() == old(View()).(closed := true) && Inv(View())
      ensures past.delivered == past.emitted
    {
      PumpKeeps(View());
      closed := true;
    }

    method SetLoading(on: bool)
      modifies this
      ensures View() == old(View()).(loading := on)
    {
      loading := on;
    }
  }
}
