/**
  What every handler of a session keeps, and so what holds at every handler
  boundary of every run: prompts, process messages and exits, process events,
  retry and idle timers, restarts and rewinds, in any order.
 */
module SessionSafety {
  import opened Wrappers
  import opened Messages
  import opened SessionLog
  import opened SessionModel

  // --- the invariant ---------------------------------------------------------------

  /** Clients see each waiting request once, and no other. */
  ghost predicate Listed(pending: map<string, string>, shown: seq<string>) {
    && (forall r :: r in pending <==> r in shown)
    && (forall i, j :: 0 <= i < j < |shown| ==> shown[i] != shown[j])
  }

  /** The record keeps its protocol, and says what the fields say. */
  ghost predicate Recorded(log: seq<Event>, turnActive: bool, pending: map<string, string>, doneAfterTurn: bool) {
    var a := Scan(log);
    && a.Turns?
    && a.active == turnActive
    && (forall r :: r in a.open <==> r in pending)
    && a.wanted == doneAfterTurn && !a.earned
  }

  /** The process events the messages sent so far carried. */
  function Carried(sent: seq<Sent>): seq<string> {
    if sent == [] then [] else Carried(sent[..|sent| - 1]) + sent[|sent| - 1].carries
  }

  /** Every process event given is held or was carried once, and the held ones are in order. */
  ghost predicate Conserved(given: seq<string>, held: seq<string>, sent: seq<Sent>) {
    && multiset(given) == multiset(held) + multiset(Carried(sent))
    && Subsequence(held, given)
  }

  ghost predicate Sound(s: State) {
    && (s.turn.doneAfter ==> s.turn.active)
    && (s.signIn.refreshRetry.Some? ==> !s.turn.active)
    && (s.asking.pending != map[] ==> s.turn.active)
    && (s.live.streaming != [] ==> s.turn.active)
    && (s.turn.interrupted ==> s.turn.active)
    && (s.turn.active && s.signIn.refreshBusy ==> s.signIn.refreshRetries < MAX_REFRESH_RETRIES)
    && Listed(s.asking.pending, s.asking.shown)
    && Recorded(s.past.log, s.turn.active, s.asking.pending, s.turn.doneAfter)
    && Conserved(s.past.given, s.held, s.past.sent)
  }

  /** A turn and a closing have their process, and no handler used a missing one. */
  ghost predicate Alive(s: State) {
    !s.past.crashed && (s.turn.active ==> s.proc) && (s.stopping ==> s.proc)
  }

  /** Between handlers the status is exact: it says what waits or runs. */
  ghost predicate Exact(s: State) {
    && (s.proc ==> s.status == Busy(s.asking.pending, s.turn.active))
    && (!s.proc ==> s.status in {Stopped, Failed})
    && (s.idle ==> s.status == Idle)
  }

  /** The status can be made exact. */
  ghost predicate Settling(s: State) {
    && s.status != Starting
    && (!s.proc ==> s.status in {Stopped, Failed})
  }

  ghost predicate Ready(s: State) { Sound(s) && Alive(s) && Settling(s) }

  ghost predicate Inv(s: State) {
    Ready(s) && Exact(s) && (s.turn.recapping ==> s.turn.active)
  }

  // --- the record ---------------------------------------------------------------------

  predicate Neutral(e: Event) {
    e.Notice? || e.Rewound? || e.ProcessHeard? || e.Said? || e.ToolShown? || e.ToolAnswered?
  }

  lemma Recording(log: seq<Event>, active: bool, pending: map<string, string>, done: bool, e: Event)
    requires Recorded(log, active, pending, done)
    ensures Neutral(e) ==> Recorded(log + [e], active, pending, done)
    ensures e.TurnStarted? && !active ==> Recorded(log + [e], true, pending, done)
    ensures e.TurnEnded? && pending == map[] && !(done && e.result == Completed) ==>
              Recorded(log + [e], false, pending, false)
    ensures e.Prompted? && active ==> Recorded(log + [e], active, pending, false)
    ensures e.DoneWanted? && active ==> Recorded(log + [e], active, pending, true)
    ensures e == Done(false) && !active ==> Recorded(log + [e], active, pending, done)
  {
    ScanSnoc(log, e);
    if pending == map[] {
      assert forall r :: r !in Scan(log).open;
      assert Scan(log).open == {};
    }
  }

  lemma RecordEnd(log: seq<Event>, active: bool, pending: map<string, string>, done: bool, result: TurnResult,
                  why: Reason)
    requires Recorded(log, active, pending, done) && pending == map[]
    ensures !(done && result == Completed) ==> Recorded(log + [TurnEnded(result, why)], false, pending, false)
    ensures done && result == Completed ==>
              Recorded(log + [TurnEnded(result, why)] + [Done(true)], false, pending, false)
  {
    ScanSnoc(log, TurnEnded(result, why));
    ScanSnoc(log + [TurnEnded(result, why)], Done(true));
    assert Scan(log).open == {};
  }

  lemma RecordRequest(log: seq<Event>, active: bool, pending: map<string, string>, done: bool, req: string,
                      tool: string, d: Decision)
    requires Recorded(log, active, pending, done)
    ensures req in pending ==> Recorded(log + [Outcome(req, d)], active, pending - {req}, done)
    ensures active && Asks(log, req) == 0 ==> Recorded(log + [Asked(req)], active, pending[req := tool], done)
  {
    ScanSnoc(log, Outcome(req, d));
    ScanSnoc(log, Asked(req));
    OpenIsUnanswered(log, req);
  }

  lemma AsksSnoc(log: seq<Event>, e: Event, req: string)
    ensures Asks(log + [e], req) == Asks(log, req) + (if e == Asked(req) then 1 else 0)
  {
    assert (log + [e])[..|log|] == log;
  }

  // --- the requests clients see ----------------------------------------------------------

  lemma {:induction false} WithoutOne(xs: seq<string>, x: string)
    requires forall i, j :: 0 <= i < j < |xs| ==> xs[i] != xs[j]
    ensures forall y :: y in Without(xs, x) <==> y in xs && y != x
    ensures forall i, j :: 0 <= i < j < |Without(xs, x)| ==> Without(xs, x)[i] != Without(xs, x)[j]
  {
    if xs != [] {
      assert xs == [xs[0]] + xs[1..];
      if xs[0] != x {
        WithoutOne(xs[1..], x);
        var w := Without(xs[1..], x);
        assert Without(xs, x) == [xs[0]] + w;
        assert xs[0] !in xs[1..] by {
          assert forall j :: 0 <= j < |xs| - 1 ==> xs[1..][j] == xs[j + 1];
        }
        assert forall j :: 0 <= j < |w| ==> w[j] in w && w[j] != xs[0];
      } else {
        assert forall j :: 0 <= j < |xs| - 1 ==> xs[1..][j] == xs[j + 1];
      }
    }
  }

  lemma Listing(pending: map<string, string>, shown: seq<string>, req: string, tool: string)
    requires Listed(pending, shown)
    ensures Listed(pending - {req}, Without(shown, req))
    ensures req !in pending ==> Listed(pending[req := tool], shown + [req])
  {
    WithoutOne(shown, req);
  }

  // --- process events ----------------------------------------------------------------------

  lemma CarriedSnoc(sent: seq<Sent>, x: Sent)
    ensures Carried(sent + [x]) == Carried(sent) + x.carries
  {
    assert (sent + [x])[..|sent|] == sent;
  }

  lemma Holding(given: seq<string>, held: seq<string>, sent: seq<Sent>, p: string)
    requires Conserved(given, held, sent)
    ensures Conserved(given + [p], held + [p], sent)
  {
    SubsequenceSnoc(held, given, p);
  }

  lemma Carrying(given: seq<string>, held: seq<string>, sent: seq<Sent>, what: What, p: string)
    requires Conserved(given, held, sent)
    ensures Conserved(given, held, sent + [Sent(what, [])])
    ensures Conserved(given, [], sent + [Sent(what, held)])
    ensures Conserved(given + [p], held, sent + [Sent(what, [p])])
  {
    CarriedSnoc(sent, Sent(what, []));
    CarriedSnoc(sent, Sent(what, held));
    CarriedSnoc(sent, Sent(what, [p]));
    SubsequenceSnoc(held, given, p);
    assert Carried(sent) + [] == Carried(sent);
  }

  // --- the parts of handlers ------------------------------------------------------------------

  lemma ChangedKeeps(s: State, stale: bool)
    requires Ready(s)
    ensures Ready(Changed(s, stale)) && Exact(Changed(s, stale))
    ensures (s.turn.recapping ==> s.turn.active) ==> Inv(Changed(s, stale))
    ensures var t := Changed(s, stale);
            && t.turn.active == s.turn.active && t.proc == s.proc && t.turn.recapping == s.turn.recapping
            && t.held == s.held && t.signIn.refreshRetry == s.signIn.refreshRetry
            && t.asking.pending == s.asking.pending
            && t.past == s.past
  {
    hide Listed, Recorded, Conserved;
  }

  lemma EmitKeeps(s: State, e: Event)
    requires Sound(s) && Neutral(e)
    ensures Sound(Emit(s, e)) && (Ready(s) ==> Ready(Emit(s, e)))
  {
    hide Listed, Recorded, Conserved;
    Recording(s.past.log, s.turn.active, s.asking.pending, s.turn.doneAfter, e);
  }

  lemma BeginTurnKeeps(s: State)
    requires Ready(s) && s.proc && !s.turn.active
    ensures var t := BeginTurn(s);
            && Ready(t) && t.turn.active && t.proc && t.held == s.held && t.turn.recapping == s.turn.recapping
            && t.past == s.past.(log := s.past.log + [TurnStarted]) && t.asking.pending == s.asking.pending
            && t.turn.doneAfter == s.turn.doneAfter
  {
    hide Listed, Recorded, Conserved;
    Recording(s.past.log, false, s.asking.pending, s.turn.doneAfter, TurnStarted);
  }

  lemma PromptedKeeps(s: State, text: string)
    requires Ready(s) && s.turn.active
    ensures var t := Emit(s.(turn := s.turn.(doneAfter := false)), Prompted(text));
            && Ready(t) && t.turn.active && t.proc && t.held == s.held && t.turn.recapping == s.turn.recapping
  {
    hide Listed, Recorded, Conserved;
    Recording(s.past.log, true, s.asking.pending, s.turn.doneAfter, Prompted(text));
  }

  // The process takes nothing, or a message with or without all that is held.
  lemma PostKeeps(s: State, what: What)
    requires Ready(s) && s.proc
    ensures Call(s) == s
    ensures Ready(Post(s, Sent(what, []))) && Ready(Post(s, Sent(what, s.held)).(held := []))
    ensures Inv(s) ==> Inv(Post(s, Sent(what, []))) && Inv(Post(s, Sent(what, s.held)).(held := []))
  {
    hide Listed, Recorded, Conserved, Silent;
    Carrying(s.past.given, s.held, s.past.sent, what, "");
  }

  lemma ResolveKeeps(s: State, req: string, d: Decision)
    requires Sound(s)
    ensures Sound(Resolve(s, req, d)) && (Ready(s) ==> Ready(Resolve(s, req, d)))
  {
    hide Listed, Recorded, Conserved;
    if req in s.asking.pending {
      Listing(s.asking.pending, s.asking.shown, req, "");
      RecordRequest(s.past.log, s.turn.active, s.asking.pending, s.turn.doneAfter, req, "", d);
    }
  }

  lemma ResolvedPending(s: State, req: string, d: Decision)
    ensures forall r :: r in Resolve(s, req, d).asking.pending <==> r in s.asking.pending && r != req
  {
  }

  lemma {:induction false} ResolveAllKeeps(s: State, order: seq<string>)
    requires Sound(s)
    ensures Sound(ResolveAll(s, order))
    ensures forall r :: r in ResolveAll(s, order).asking.pending <==> r in s.asking.pending && r !in order
    decreases |order|
  {
    if order != [] {
      hide Sound, Resolve;
      var before, last := order[..|order| - 1], order[|order| - 1];
      assert order == before + [last];
      ResolveAllKeeps(s, before);
      ResolveKeeps(ResolveAll(s, before), last, Canceled);
      ResolvedPending(ResolveAll(s, before), last, Canceled);
    }
  }

  /** What a turn's end leaves as it was. */
  ghost predicate OnlyEnds(s: State, t: State) {
    t == s.(turn := Turn(false, false, false, false), live := s.live.(streaming := []),
            asking := Asking(map[], t.asking.shown), past := s.past.(log := t.past.log))
  }

  // A turn's end leaves no request waiting and no block streaming.
  lemma EndTurnKeeps(s: State, order: seq<string>, result: TurnResult, why: Reason)
    requires Sound(s) && Lists(order, s.asking.pending)
    ensures Sound(EndTurn(s, order, result, why)) && OnlyEnds(s, EndTurn(s, order, result, why))
  {
    EndTurnSound(s, order, result, why);
    EndTurnOnly(s, order, result, why);
    hide Sound, EndTurn, OnlyEnds, Lists;
  }

  lemma EndTurnOnly(s: State, order: seq<string>, result: TurnResult, why: Reason)
    requires Sound(s) && Lists(order, s.asking.pending)
    ensures OnlyEnds(s, EndTurn(s, order, result, why))
  {
    hide Sound, ResolveAll;
    ResolveAllKeeps(s, order);
    assert ResolveAll(s, order).asking.pending == map[];
  }

  lemma FinishSound(s: State, result: TurnResult, why: Reason)
    requires Sound(s) && s.asking.pending == map[]
    ensures Sound(Finish(s, result, why))
  {
    hide Listed, Recorded, Conserved;
    RecordEnd(s.past.log, s.turn.active, s.asking.pending, s.turn.doneAfter, result, why);
  }

  lemma EndTurnSound(s: State, order: seq<string>, result: TurnResult, why: Reason)
    requires Sound(s) && Lists(order, s.asking.pending)
    ensures Sound(EndTurn(s, order, result, why))
  {
    hide Sound, ResolveAll, Finish;
    ResolveAllKeeps(s, order);
    assert ResolveAll(s, order).asking.pending == map[];
    FinishSound(ResolveAll(s, order), result, why);
  }

  lemma EnsureProcKeeps(s: State, start: Start)
    requires Ready(s) && (s.idle ==> s.status == Idle)
    ensures var t := EnsureProc(s, start);
            && Ready(t) && t.turn.active == s.turn.active && t.held == s.held && t.turn.recapping == s.turn.recapping
            && t.signIn.refreshRetry == s.signIn.refreshRetry && (!t.proc ==> Exact(t))
            && t.past == s.past.(heard := t.past.heard)
            && (Exact(s) ==> Exact(t))
            && (s.proc ==> t == s)
  {
    hide Listed, Recorded, Conserved;
  }

  // --- handlers -----------------------------------------------------------------------------

  lemma JoinedKeeps(s: State, text: string, recap: bool, stale: bool)
    requires Ready(s) && s.proc && (recap ==> !s.turn.active)
    ensures Inv(Joined(s, text, recap, stale))
  {
    hide Ready, Exact, Changed, BeginTurn, Emit, Inv;
    var s1 := if !s.turn.active then BeginTurn(s) else s.(turn := s.turn.(doneAfter := false));
    if !s.turn.active {
      BeginTurnKeeps(s);
      NotWanted(s);
      PromptedKeeps(BeginTurn(s), text);
    } else {
      PromptedKeeps(s, text);
    }
    ChangedKeeps(Emit(s1, Prompted(text)), stale);
  }

  lemma SendToKeeps(s: State, text: string, recap: bool, e: Env)
    requires Ready(s) && s.proc && (recap ==> !s.turn.active)
    ensures Inv(SendTo(s, text, recap, e))
  {
    hide Ready, Exact, Joined, Call, Post;
    JoinedKeeps(s, text, recap, e.stale);
    var s1 := Joined(s, text, recap, e.stale);
    assert Ready(s1);
    hide Inv;
    PostKeeps(s1, UserText(text));
  }

  // A new turn is not one whose thread is to be done.
  lemma NotWanted(s: State)
    requires Ready(s) && !s.turn.active
    ensures BeginTurn(s).(turn := BeginTurn(s).turn.(doneAfter := false)) == BeginTurn(s)
  {
  }

  lemma RecapOnly(s: State, recap: bool)
    requires Inv(s)
    ensures Ready(s.(turn := s.turn.(recapping := recap))) && (s.idle ==> s.status == Idle)
  {
    hide Listed, Recorded, Conserved;
  }

  // The process is there, if it starts, to take a prompt that is a recap or not.
  lemma PreparedKeeps(s: State, recap: bool, start: Start)
    requires Inv(s)
    ensures var t := EnsureProc(s.(turn := s.turn.(recapping := recap)), start);
            Ready(t) && (!t.proc ==> Exact(t)) && t.turn.recapping == recap && t.turn.active == s.turn.active
  {
    hide Ready, Exact, EnsureProc;
    RecapOnly(s, recap);
    EnsureProcKeeps(s.(turn := s.turn.(recapping := recap)), start);
  }

  lemma SendKeeps(s: State, text: string, files: nat, resolves: bool, readable: bool, e: Env)
    requires Inv(s)
    ensures Inv(Changed(Send(s, text, files, resolves, readable, e), e.stale))
    ensures files == 0 ==> Inv(Send(s, text, files, resolves, readable, e))
  {
    hide Ready, Exact, Inv, Prompt, EnsureProc, Changed;
    var recap := !s.turn.active && text == RECAP && files == 0;
    PreparedKeeps(s, recap, e.start);
    InterruptKeeps(s, true, e.stale);
    if (text != "" || files != 0) && resolves {
      var t := EnsureProc(s.(turn := s.turn.(recapping := recap)), e.start);
      PromptKeeps(t, text, files > 0 && !readable, recap, e);
    }
  }

  lemma PromptKeeps(s: State, text: string, unreadable: bool, recap: bool, e: Env)
    requires Ready(s) && (!s.proc ==> Exact(s)) && s.turn.recapping == recap
    requires recap ==> !s.turn.active && !unreadable
    ensures Inv(Changed(Prompt(s, text, unreadable, recap, e), e.stale))
    ensures !unreadable ==> Inv(Prompt(s, text, unreadable, recap, e))
  {
    hide Ready, Exact, SendTo, Changed;
    if !s.proc {
      StillReady(s);
    } else if !unreadable {
      SendToKeeps(s, text, recap, e);
    }
    ChangedKeeps(Prompt(s, text, unreadable, recap, e), e.stale);
  }

  lemma StillReady(s: State)
    requires Ready(s) && Exact(s)
    ensures Inv(s.(turn := s.turn.(recapping := false)))
  {
    hide Listed, Recorded, Conserved;
  }

  lemma UserSendKeeps(s: State, text: string, files: nat, resolves: bool, readable: bool, e: Env)
    requires Inv(s)
    ensures Inv(UserSend(s, text, files, resolves, readable, e))
  {
    assert Inv(s.(signIn := s.signIn.(refreshRetries := 0))) by { hide Listed, Recorded, Conserved; }
    hide Inv, Send, Changed;
    SendKeeps(s.(signIn := s.signIn.(refreshRetries := 0)), text, files, resolves, readable, e);
  }

  // A process event is held, or sent by itself.
  lemma GivenKeeps(s: State, prompt: string, how: Hearing)
    requires Inv(s)
    ensures Inv(Given(s, prompt, how).(held := Given(s, prompt, how).held + [prompt]))
    ensures s.proc ==> Inv(Post(Given(s, prompt, how), Sent(News, [prompt])))
    ensures s.proc ==> Call(Given(s, prompt, how)) == Given(s, prompt, how)
    ensures Given(s, prompt, how).turn.active == s.turn.active
  {
    hide Listed, Recorded, Conserved;
    Recording(s.past.log, s.turn.active, s.asking.pending, s.turn.doneAfter, ProcessHeard(how));
    Holding(s.past.given, s.held, s.past.sent, prompt);
    Carrying(s.past.given, s.held, s.past.sent, News, prompt);
  }

  lemma ProcessEventKeeps(s: State, prompt: string, wake: bool, e: Env)
    requires Inv(s)
    ensures Inv(ProcessEvent(s, prompt, wake, e))
  {
    hide Ready, Exact, Wake, Post, Call, Changed, Given, Silent, MayStart;
    var how := HearsHow(s, wake);
    GivenKeeps(s, prompt, how);
    var s1 := Given(s, prompt, how);
    var s2 := s1.(held := s1.held + [prompt]);
    if how == Wakes {
      TurnsHaveProcesses(s);
      WakeKeeps(s2, e);
    } else if how == InTurn && e.sendOk {
      ChangedKeeps(Post(s1, Sent(News, [prompt])), e.stale);
    } else {
      ChangedKeeps(s2, e.stale);
    }
  }

  lemma TurnsHaveProcesses(s: State)
    requires Inv(s)
    ensures (s.turn.active ==> s.proc) && (s.idle ==> s.status == Idle)
    ensures s.signIn.refreshRetry.Some? ==> !s.turn.active
  {
    hide Listed, Recorded, Conserved;
  }

  lemma WakeKeeps(s: State, e: Env)
    requires Inv(s) && !s.turn.active
    ensures Inv(Changed(Wake(s, e), e.stale))
  {
    hide Ready, Exact, EnsureProc, BeginTurn, Post, Emit, Call, Changed;
    TurnsHaveProcesses(s);
    EnsureProcKeeps(s, e.start);
    var s1 := EnsureProc(s, e.start);
    if s1.proc {
      BeginTurnKeeps(s1);
      PostKeeps(BeginTurn(s1), News);
      var t := BeginTurn(s1);
      assert Wake(s, e) == if e.sendOk then Post(t, Sent(News, t.held)).(held := []) else t;
    } else {
      EmitReady(s1);
    }
    ChangedKeeps(Wake(s, e), e.stale);
  }

  lemma EmitReady(s: State)
    requires Ready(s)
    ensures Ready(Emit(s, Notice)) && Emit(s, Notice).turn.recapping == s.turn.recapping
        && Emit(s, Notice).turn.active == s.turn.active
    ensures Emit(s, Notice).proc == s.proc && (Exact(s) ==> Exact(Emit(s, Notice)))
  {
    hide Listed, Recorded, Conserved;
    EmitKeeps(s, Notice);
  }

  lemma ResumeKeeps(s: State, e: Env)
    requires Ready(s) && s.proc
    ensures Ready(Resume(s, e)) && Resume(s, e).turn.recapping == s.turn.recapping
        && Resume(s, e).turn.active == s.turn.active
  {
    hide Ready;
    PostKeeps(s, Continue);
  }

  lemma ContinueTurnKeeps(s: State, e: Env)
    requires Inv(s)
    ensures Inv(ContinueTurn(s, e))
  {
    hide Ready, Exact, EnsureProc, BeginTurn, Resume, Emit, Changed;
    TurnsHaveProcesses(s);
    EnsureProcKeeps(s, e.start);
    var s1 := EnsureProc(s, e.start);
    if !s1.proc {
      EmitReady(s1);
      ChangedKeeps(Emit(s1, Notice), e.stale);
    } else {
      if !s1.turn.active {
        BeginTurnKeeps(s1);
      }
      var s2 := if s1.turn.active then s1 else BeginTurn(s1);
      EmitReady(s2);
      ResumeKeeps(Emit(s2, Notice), e);
      ChangedKeeps(Resume(Emit(s2, Notice), e), e.stale);
    }
  }

  lemma DisarmedKeeps(s: State)
    requires Inv(s)
    ensures Inv(s.(signIn := s.signIn.(refreshRetry := None)))
  {
    hide Listed, Recorded, Conserved;
  }

  lemma ContinuedKeeps(s: State, e: Env)
    requires Inv(s) && !s.turn.active
    ensures Inv(Continued(s, e))
  {
    hide Ready, Exact, EnsureProc, BeginTurn, Resume, Emit, Changed;
    TurnsHaveProcesses(s);
    EnsureProcKeeps(s, e.start);
    var s1 := EnsureProc(s, e.start);
    if s1.proc {
      BeginTurnKeeps(s1);
      ResumeKeeps(BeginTurn(s1), e);
      ChangedKeeps(Resume(BeginTurn(s1), e), e.stale);
    } else {
      EmitReady(s1);
      ChangedKeeps(Emit(s1, Notice), e.stale);
    }
  }

  lemma RetryFiredKeeps(s: State, t: Timer, e: Env)
    requires Inv(s)
    ensures Inv(RetryFired(s, t, e))
  {
    if s.signIn.refreshRetry == Some(t) {
      hide Inv, Send, Continued;
      TurnsHaveProcesses(s);
      DisarmedKeeps(s);
      var s1 := s.(signIn := s.signIn.(refreshRetry := None));
      if t.recap {
        SendKeeps(s1, RECAP, 0, true, true, e);
      } else {
        ContinuedKeeps(s1, e);
      }
    }
  }

  lemma MarkDoneKeeps(s: State)
    requires Inv(s)
    ensures Inv(MarkDone(s))
  {
    hide Listed, Recorded, Conserved;
    Recording(s.past.log, s.turn.active, s.asking.pending, s.turn.doneAfter,
              if s.turn.active then DoneWanted else Done(false));
  }

  lemma IdleFiredKeeps(s: State)
    requires Inv(s)
    ensures Inv(IdleFired(s))
  {
    hide Listed, Recorded, Conserved;
  }

  lemma InterruptKeeps(s: State, taken: bool, stale: bool)
    requires Inv(s)
    ensures Inv(Interrupt(s, taken)) && Inv(Changed(Interrupt(s, taken), stale)) && Inv(Changed(s, stale))
  {
    assert Inv(Interrupt(s, taken)) by { hide Listed, Recorded, Conserved; }
    hide Ready, Exact, Changed, Interrupt;
    ChangedKeeps(s, stale);
    ChangedKeeps(Interrupt(s, taken), stale);
  }

  lemma RespondKeeps(s: State, req: string, choice: Option<Choice>, taken: bool, stale: bool)
    requires Inv(s)
    ensures Inv(Changed(Respond(s, req, choice, taken), stale))
  {
    hide Exact, Changed, Sound, Resolve;
    if req in s.asking.pending && choice.Some? {
      WaitingHasProcess(s, req);
      ResolveKeeps(s, req, Chosen(choice.value));
      ResolvedPending(s, req, Chosen(choice.value));
    }
    ChangedKeeps(Respond(s, req, choice, taken), stale);
  }

  lemma WaitingHasProcess(s: State, req: string)
    requires Inv(s) && req in s.asking.pending
    ensures s.turn.active && s.proc
  {
    hide Listed, Recorded, Conserved;
  }

  // --- the process's messages -----------------------------------------------------------------

  // What streams is of no concern to anything else.
  lemma StreamingKeeps(s: State, streaming: seq<Entry>, msgID: string)
    requires s.turn.active
    ensures Inv(s) ==> Inv(s.(live := s.live.(streaming := streaming))) && Inv(s.(live := s.live.(msgID := msgID)))
    ensures Sound(s) ==> Sound(s.(live := s.live.(streaming := streaming)))
  {
    hide Listed, Recorded, Conserved;
  }

  lemma StreamKeeps(s: State, m: Message, stale: bool)
    requires Inv(s) && s.proc
    ensures Inv(OnStream(s, m, stale))
  {
    hide Ready, Exact, Changed, BeginTurn, Extend, Silent, SameEvents;
    var s1 := if s.turn.active then s else Changed(BeginTurn(s), stale);
    if !s.turn.active {
      BeginTurnKeeps(s);
      ChangedKeeps(BeginTurn(s), stale);
    }
    hide Inv;
    StreamingKeeps(s1, OnStream(s, m, stale).live.streaming, OnStream(s, m, stale).live.msgID);
  }

  lemma ShowBlockKeeps(s: State, id: string, kind: Kind, said: string, visible: bool)
    requires Sound(s) && s.turn.active
    ensures Sound(ShowBlock(s, id, kind, said, visible))
  {
    hide Sound, TakeStream, Emit;
    var (key, rest) := TakeStream(s.live.streaming, id, kind);
    StreamingKeeps(s, rest, "");
    EmitKeeps(s.(live := s.live.(streaming := rest)), Said(kind, said, key));
  }

  lemma OnBlockKeeps(s: State, id: string, c: Content)
    requires Sound(s) && s.turn.active
    ensures Sound(OnBlock(s, id, c))
  {
    hide Sound, ShowBlock, Emit;
    match c
    case TextBlock(said) => ShowBlockKeeps(s, id, Text, said, true);
    case ThinkingBlock(said) => ShowBlockKeeps(s, id, Thinking, said, said != "");
    case ToolBlock(tool) => EmitKeeps(s, ToolShown(tool));
    case OtherBlock =>
  }

  lemma {:induction false} OnBlocksKeeps(s: State, id: string, content: seq<Content>)
    requires Sound(s) && s.turn.active
    ensures Sound(OnBlocks(s, id, content))
    decreases |content|
  {
    hide Sound, OnBlock;
    if content != [] {
      var n := |content| - 1;
      OnBlocksKeeps(s, id, content[..n]);
      OnBlockKeeps(OnBlocks(s, id, content[..n]), id, content[n]);
    }
  }

  lemma NoteErrorKeeps(s: State, error: AssistantError)
    requires Ready(s)
    ensures Ready(NoteError(s, error))
  {
    hide Listed, Recorded, Conserved;
    if error.SignedOut? {
      if error.contended && s.signIn.refreshRetries < MAX_REFRESH_RETRIES {
        assert Ready(s.(signIn := s.signIn.(refreshBusy := true)));
      } else {
        assert Ready(s.(signIn := s.signIn.(authFailed := true)));
      }
    }
  }

  lemma AssistantKeeps(s: State, id: string, content: seq<Content>, error: AssistantError, stale: bool)
    requires Inv(s) && s.proc
    ensures Inv(Changed(OnAssistant(s, id, content, error), stale))
  {
    hide Sound, OnBlocks, Emit, BeginTurn, NoteError, Changed, Exact;
    if !s.turn.active {
      BeginTurnKeeps(s);
    }
    var s0 := if s.turn.active then s else BeginTurn(s);
    var s1 := NoteError(s0, error);
    NoteErrorKeeps(s0, error);
    OnBlocksKeeps(s1, id, content);
    var s2 := OnBlocks(s1, id, content);
    EmitReady(s2);
    ChangedKeeps(OnAssistant(s, id, content, error), stale);
  }

  lemma ScheduleRetryKeeps(s: State, recap: bool, stale: bool)
    requires Ready(s) && !s.turn.active && !s.turn.recapping
    ensures Ready(ScheduleRetry(s, recap, stale)) && !ScheduleRetry(s, recap, stale).turn.recapping
  {
    hide Ready, Exact, Emit, Changed;
    var s0 := s.(signIn := s.signIn.(refreshRetries := s.signIn.refreshRetries + 1));
    RetryReady(s, s0.signIn);
    EmitReady(s0);
    ChangedKeeps(Emit(s0, Notice), stale);
    var s1 := Changed(Emit(s0, Notice), stale);
    RetryReady(s1, SignIn(s1.signIn.authFailed, s1.signIn.refreshBusy, s1.signIn.refreshRetries,
                          Some(Timer(s1.signIn.timers, recap)), s1.signIn.timers + 1));
  }

  // Between turns the sign-in does not matter.
  lemma RetryReady(s: State, signIn: SignIn)
    requires Ready(s) && !s.turn.active
    ensures Ready(s.(signIn := signIn))
  {
    hide Listed, Recorded, Conserved;
  }

  lemma EndedIsReady(s: State, t: State)
    requires Ready(s) && s.proc && Sound(t) && OnlyEnds(s, t)
    ensures Ready(t)
  {
    hide Sound;
  }

  lemma ResultKeeps(s: State, ok: bool, contextFull: bool, order: seq<string>, stale: bool)
    requires Inv(s) && s.proc && Lists(order, s.asking.pending)
    ensures Inv(Changed(OnResult(s, ok, contextFull, order, stale), stale))
  {
    var result := ResultOf(s, ok);
    var why := if result == Errored then ReasonOf(s, contextFull) else Plain;
    var s1 := if result == Completed && !s.foreign then s.(signIn := s.signIn.(refreshRetries := 0)) else s;
    assert Ready(s1) && Sound(s1) by { hide Listed, Recorded, Conserved; }
    hide Ready, Sound, Exact, EndTurn, ScheduleRetry, ResultOf, ReasonOf, Changed, Lists;
    EndTurnKeeps(s1, order, result, why);
    var s2 := EndTurn(s1, order, result, why);
    EndedIsReady(s1, s2);
    if why == RefreshBusy {
      ScheduleRetryKeeps(s2, s.turn.recapping, stale);
    }
    ChangedKeeps(OnResult(s, ok, contextFull, order, stale), stale);
  }

  lemma FreshIsNew(s: State, req: string)
    requires Sound(s) && Asks(s.past.log, req) == 0
    ensures req !in s.asking.pending
  {
    OpenIsUnanswered(s.past.log, req);
  }

  lemma AskedKeeps(s: State, req: string, tool: string)
    requires Ready(s) && s.turn.active && Asks(s.past.log, req) == 0
    ensures var t := Emit(s.(asking := Asking(s.asking.pending[req := tool], s.asking.shown + [req])), Asked(req));
            Ready(t) && t.turn.active
  {
    FreshIsNew(s, req);
    hide Listed, Recorded, Conserved;
    Listing(s.asking.pending, s.asking.shown, req, tool);
    RecordRequest(s.past.log, true, s.asking.pending, s.turn.doneAfter, req, tool, Canceled);
  }

  lemma PermissionKeeps(s: State, req: string, tool: string, stale: bool)
    requires Inv(s) && s.proc && Asks(s.past.log, req) == 0
    ensures Inv(Changed(OnPermission(s, req, tool), stale))
  {
    hide Ready, Exact, Changed, BeginTurn, Emit, Asks;
    if !s.turn.active {
      BeginTurnKeeps(s);
      AsksSnoc(s.past.log, TurnStarted, req);
    }
    AskedKeeps(if s.turn.active then s else BeginTurn(s), req, tool);
    ChangedKeeps(OnPermission(s, req, tool), stale);
  }

  /** What a message's handler relies on: request ids are fresh, and a result walks what waits in some order. */
  ghost predicate Fits(s: State, m: Message, order: seq<string>) {
    && (m.ControlRequest? ==> Asks(s.past.log, m.req) == 0)
    && (m.Result? ==> Lists(order, s.asking.pending))
  }

  lemma OtherMessageKeeps(s: State, m: Message, stale: bool)
    requires Inv(s)
    ensures m.ToolResult? ==> Inv(Changed(Emit(s, ToolAnswered(m.tool)), stale))
    ensures m.ControlCancel? ==> Inv(Changed(Resolve(s, m.req, Canceled), stale))
    ensures m.System? ==> Inv(Changed(if m.logs then Emit(s, Notice) else s, stale))
  {
    hide Exact, Sound, Changed, Resolve;
    ChangedKeeps(s, stale);
    EmitKeeps(s, Notice);
    ChangedKeeps(Emit(s, Notice), stale);
    if m.ToolResult? {
      EmitKeeps(s, ToolAnswered(m.tool));
      ChangedKeeps(Emit(s, ToolAnswered(m.tool)), stale);
    }
    if m.ControlCancel? {
      ResolveKeeps(s, m.req, Canceled);
      ResolvedPending(s, m.req, Canceled);
      ChangedKeeps(Resolve(s, m.req, Canceled), stale);
    }
  }

  lemma HeardKeeps(s: State, heard: seq<Message>)
    requires Inv(s)
    ensures Inv(s.(past := s.past.(heard := heard)))
  {
    hide Listed, Recorded, Conserved;
  }

  lemma MessageKeeps(s: State, m: Message, order: seq<string>, stale: bool)
    requires Inv(s) && s.proc && Fits(s, m, order)
    ensures Inv(HandleMessage(s, m, order, stale))
  {
    var s1 := s.(past := s.past.(heard := s.past.heard + [m]));
    HeardKeeps(s, s.past.heard + [m]);
    assert s1.past.log == s.past.log && s1.asking.pending == s.asking.pending && s1.proc == s.proc;
    hide Inv, OnStream, OnAssistant, OnResult, OnPermission, Changed, Asks, Lists, Emit, Resolve;
    if Streams(m) {
      StreamKeeps(s1, m, stale);
    } else {
      match m
      case Assistant(id, content, error) => AssistantKeeps(s1, id, content, error, stale);
      case Result(ok, full, _) => ResultKeeps(s1, ok, full, order, stale);
      case ControlRequest(req, tool) => PermissionKeeps(s1, req, tool, stale);
      case _ => OtherMessageKeeps(s1, m, stale);
    }
  }

  lemma ExitKeeps(s: State, order: seq<string>, err: bool)
    requires Inv(s) && s.proc && Lists(order, s.asking.pending)
    ensures var t := OnExit(s, order, err);
            Inv(t) && !t.proc && !t.turn.active && t.live.streaming == []
  {
    hide Listed, Recorded, Conserved, EndTurn, Lists, Changed;
    var expected := s.stopping || s.turn.interrupted;
    var s2 := s.(proc := false);
    if s.turn.active {
      EndTurnKeeps(s2, order, if expected then Interrupted else Errored, Plain);
    }
    var s3 := if s.turn.active then EndTurn(s2, order, if expected then Interrupted else Errored, Plain) else s2;
    var s4 := s3.(status := if err && !expected then Failed else Stopped, stopping := false,
                  turn := s3.turn.(interrupted := false));
    assert OnExit(s, order, err) == Changed(s4, false);
    ChangedKeeps(s4, false);
    ChangedKeepsText(s4, false);
  }

  lemma ChangedKeepsText(s: State, stale: bool)
    ensures Changed(s, stale).live.streaming == s.live.streaming && Changed(s, stale).live.msgID == s.live.msgID
  {
  }
}
