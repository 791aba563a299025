/**
  How often a session tries again after it lost the race to renew the sign-in.
  What is bounded is not the count the session keeps but the retries it makes:
  a retry's timer that fires and begins a turn.
 */
module SessionRetries {
  import opened Wrappers
  import opened Messages
  import opened SessionLog
  import opened SessionModel
  import opened SessionSafety
  import opened SessionRuns

  // --- retries that were made ----------------------------------------------------------------

  /** The step makes a retry: an armed timer fires, and begins a turn. */
  predicate Retries(s: State, a: Action, e: Env) {
    a.RetryAction? && !s.turn.active && Apply(s, a, e).turn.active
  }

  /** A user's prompt becomes part of a turn: it is not empty, its files are there, and a process runs. */
  predicate Taken(s: State, a: Action, e: Env) {
    && a.SendAction? && (a.text != "" || a.files > 0) && a.resolves
    && (s.proc || e.start.Up?) && (a.files == 0 || a.readable)
  }

  /** The messages a step handles, a closing process's last ones included. */
  function Inputs(s: State, a: Action, e: Env): seq<Input> {
    match a
    case MessageAction(m, order) => [Input(m, order, e.stale)]
    case RestartAction(end) => if s.proc then end.last else []
    case RewindAction(w, end) => if Stops(s, w, e) then end.last else []
    case _ => []
  }

  /** ... and the state it handles them from. */
  function Before(s: State, a: Action, e: Env): State {
    match a
    case RestartAction(_) => CloseProc(s)
    case RewindAction(w, _) => CloseProc(Restoring(s, w, e))
    case _ => s
  }

  /** A rewind gets as far as closing a process. */
  predicate Stops(s: State, w: Rewinding, e: Env) {
    && !s.foreign && !s.turn.active && w.found
    && Restoring(s, w, e).proc && (w.files ==> w.restores)
  }

  /** A result completes a turn. */
  predicate Completes(s: State, m: Message) {
    m.Result? && m.ok && s.turn.active && !s.turn.interrupted
  }

  /** How many retries were made in a row: since a turn completed or a prompt of the user's was taken. */
  function Row(run: seq<State>, steps: seq<(Action, Env)>, k: nat): nat
    requires k <= |steps| && k <= |run|
  {
    if k == 0 then 0 else NextRow(Row(run, steps, k - 1), run[k - 1], steps[k - 1].0, steps[k - 1].1)
  }

  function NextRow(r: nat, s: State, a: Action, e: Env): nat {
    if Retries(s, a, e) then r + 1
    else if Taken(s, a, e) then 0
    else RowAfterAll(r, Before(s, a, e), Inputs(s, a, e))
  }

  function RowAfterAll(r: nat, s: State, last: seq<Input>): nat
    decreases |last|
  {
    if last == [] then r
    else RowAfter(RowAfterAll(r, s, last[..|last| - 1]), Drain(s, last[..|last| - 1]), last[|last| - 1].m)
  }

  function RowAfter(r: nat, s: State, m: Message): nat {
    if Completes(s, m) then 0 else r
  }

  // --- the count is reset too early ----------------------------------------------------------

  /** Retries were made, or one is armed. */
  predicate Retrying(r: nat, s: State) { r > 0 || s.signIn.refreshRetry.Some? }

  /** A completed result comes while no turn runs: it resets the count. */
  predicate StrayCompletion(s: State, m: Message) { m.Result? && m.ok && !s.turn.active && !s.foreign }

  ghost predicate ResetAmong(r: nat, s: State, last: seq<Input>)
    decreases |last|
  {
    last != [] &&
    var before := last[..|last| - 1];
    ResetAmong(r, s, before) ||
    (StrayCompletion(Drain(s, before), last[|last| - 1].m) && Retrying(RowAfterAll(r, s, before), Drain(s, before)))
  }

  /**
    The count is reset though retries go on: by a prompt that is not taken (it
    is empty, its files are not there, or no process starts), or by a completed
    result while no turn runs.
   */
  ghost predicate ResetsEarly(r: nat, s: State, a: Action, e: Env) {
    (a.SendAction? && !Taken(s, a, e) && Retrying(r, s)) || ResetAmong(r, Before(s, a, e), Inputs(s, a, e))
  }

  // --- the most retries there can be ---------------------------------------------------------

  function Rest(count: nat): nat { if count < MAX_REFRESH_RETRIES then MAX_REFRESH_RETRIES - count else 0 }

  /** The retries made in a row, and those that can still follow. */
  function Most(r: nat, s: State): nat {
    if s.signIn.refreshRetry.Some? then r + 1 + Rest(s.signIn.refreshRetries)
    else if s.signIn.refreshBusy && !s.signIn.authFailed then r + Max(1, Rest(s.signIn.refreshRetries))
    else r + Rest(s.signIn.refreshRetries)
  }

  function Max(a: nat, b: nat): nat { if a > b then a else b }

  /** A bound on them that no step passes, but for the early resets. */
  predicate Within(n: nat, r: nat, s: State) { MAX_REFRESH_RETRIES <= n && Most(r, s) <= n }

  // Nothing that keeps the sign-in, or begins a turn with it, makes more retries possible.
  lemma SameIsWithin(n: nat, r: nat, s: State, t: State)
    requires Within(n, r, s) && SameSignIn(s, t)
    ensures Within(n, r, t)
  {
  }

  // --- what a result does to the sign-in -----------------------------------------------------

  /** The results that are retried: errors of a turn that lost the sign-in race, and nothing worse. */
  predicate Retried(s: State, ok: bool, contextFull: bool) {
    !ok && !s.turn.interrupted && s.signIn.refreshBusy && !s.signIn.authFailed && !contextFull
  }

  lemma RetryIsCounted(s: State, ok: bool, contextFull: bool, order: seq<string>, stale: bool)
    ensures var t, x := OnResult(s, ok, contextFull, order, stale).signIn, s.signIn;
            t == if Retried(s, ok, contextFull)
                 then x.(refreshRetries := x.refreshRetries + 1,
                         refreshRetry := Some(Timer(x.timers, s.turn.recapping)), timers := x.timers + 1)
                 else if !s.turn.interrupted && ok && !s.foreign then x.(refreshRetries := 0)
                 else x
  {
    hide EndTurn;
  }

  /**
    What a message of the agent's does to the sign-in: a race lost with retries
    left is remembered as that, any other sign-in failure as final, and nothing
    else is. A turn it begins starts with a clean sign-in.
   */
  lemma SignInErrorsAreNoted(s: State, id: string, content: seq<Content>, error: AssistantError)
    ensures var t, x := OnAssistant(s, id, content, error).signIn, s.signIn;
            var lost, refused := error.SignedOut? && error.contended && x.refreshRetries < 3, error.SignedOut?;
            && t.refreshBusy == (lost || (s.turn.active && x.refreshBusy))
            && t.authFailed == ((refused && !lost) || (s.turn.active && x.authFailed))
            && t.refreshRetries == x.refreshRetries && t.timers == x.timers
            && t.refreshRetry == (if s.turn.active then x.refreshRetry else None)
  {
    BeginsClean(s);
    hide OnAssistant, BeginTurn, Silent, SameEvents;
  }

  lemma BeginsClean(s: State)
    ensures !s.turn.active ==> BeginTurn(s).signIn == Renewed(s.signIn)
  {
    hide Emit;
  }

  /**
    Exactly those results arm a retry, and it counts one more. The count stays
    within its bound exactly when the result ends a turn or the count was below
    the bound: a second result, while no turn runs, is counted too.
   */
  lemma RetriesAreCounted(s: State, ok: bool, contextFull: bool, order: seq<string>, stale: bool)
    requires Inv(s) && Lists(order, s.asking.pending) && Retried(s, ok, contextFull)
    ensures var t := OnResult(s, ok, contextFull, order, stale);
            && t.signIn.refreshRetry == Some(Timer(s.signIn.timers, s.turn.recapping)) && !t.turn.active
            && t.signIn.refreshRetries == s.signIn.refreshRetries + 1
            && (t.signIn.refreshRetries <= MAX_REFRESH_RETRIES
                <==> s.turn.active || s.signIn.refreshRetries < MAX_REFRESH_RETRIES)
  {
    BusyIsBounded(s);
    assert Sound(s) by { hide Listed, Recorded, Conserved; }
    hide Inv, Sound, EndTurn, Lists, Changed, Emit;
    EndTurnKeeps(s, order, Errored, RefreshBusy);
  }

  lemma BusyIsBounded(s: State)
    requires Inv(s)
    ensures s.turn.active && s.signIn.refreshBusy ==> s.signIn.refreshRetries < MAX_REFRESH_RETRIES
  {
    hide Listed, Recorded, Conserved;
  }

  lemma OthersAreNotRetried(s: State, ok: bool, contextFull: bool, order: seq<string>, stale: bool)
    requires !Retried(s, ok, contextFull)
    ensures OnResult(s, ok, contextFull, order, stale).signIn.refreshRetry == s.signIn.refreshRetry
  {
    RetryIsCounted(s, ok, contextFull, order, stale);
    hide OnResult;
  }

  // --- messages ------------------------------------------------------------------------------

  lemma ResultWithin(n: nat, r: nat, s: State, m: Message, order: seq<string>, stale: bool)
    requires Inv(s) && m.Result? && Lists(order, s.asking.pending) && Within(n, r, s)
    requires StrayCompletion(s, m) ==> !Retrying(r, s)
    ensures Within(n, RowAfter(r, s, m), OnResult(s, m.ok, m.contextFull, order, stale))
  {
    RetryIsCounted(s, m.ok, m.contextFull, order, stale);
    BusyIsBounded(s);
    TurnsHaveProcesses(s);
    if s.turn.interrupted {
      StoppedIsActive(s);
    }
    hide Inv, OnResult, Lists;
  }

  lemma AssistantWithin(n: nat, r: nat, s: State, id: string, content: seq<Content>, error: AssistantError)
    requires Within(n, r, s) && (s.turn.active ==> s.signIn.refreshRetry.None?)
    ensures Within(n, r, OnAssistant(s, id, content, error))
  {
    hide OnAssistant, Emit;
  }

  // Which part of a message's handler says what becomes of the sign-in.
  lemma HandledSignIn(s: State, m: Message, order: seq<string>, stale: bool)
    ensures var t, s1 := HandleMessage(s, m, order, stale), s.(past := s.past.(heard := s.past.heard + [m]));
            if m.Result? then t.signIn == OnResult(s1, m.ok, m.contextFull, order, stale).signIn
            else if m.Assistant? then SameSignIn(OnAssistant(s1, m.id, m.content, m.error), t)
            else SameSignIn(s1, t)
  {
    hide OnStream, OnAssistant, OnResult, OnPermission, Resolve, Emit, OnlyResolves, SameEvents;
  }

  // What the retries depend on.
  lemma SameRetries(n: nat, r: nat, s: State, t: State, m: Message)
    requires t.signIn == s.signIn && t.turn == s.turn && t.foreign == s.foreign
    ensures Within(n, r, t) == Within(n, r, s) && RowAfter(r, t, m) == RowAfter(r, s, m)
    ensures StrayCompletion(t, m) == StrayCompletion(s, m) && Retrying(r, t) == Retrying(r, s)
  {
  }

  lemma MessageWithin(n: nat, r: nat, s: State, m: Message, order: seq<string>, stale: bool)
    requires Inv(s) && Fits(s, m, order) && Within(n, r, s)
    requires StrayCompletion(s, m) ==> !Retrying(r, s)
    ensures Within(n, RowAfter(r, s, m), HandleMessage(s, m, order, stale))
  {
    hide Inv, Lists, HandleMessage, OnAssistant, OnResult, SameSignIn, Within, StrayCompletion, Retrying;
    var s1 := s.(past := s.past.(heard := s.past.heard + [m]));
    SameRetries(n, r, s, s1, m);
    HeardKeeps(s, s1.past.heard);
    TurnsHaveProcesses(s);
    HandledSignIn(s, m, order, stale);
    var t := HandleMessage(s, m, order, stale);
    if m.Result? {
      ResultWithin(n, r, s1, m, order, stale);
      SignInWithin(n, RowAfter(r, s, m), OnResult(s1, m.ok, m.contextFull, order, stale), t);
    } else if m.Assistant? {
      AssistantWithin(n, r, s1, m.id, m.content, m.error);
      SameIsWithin(n, r, OnAssistant(s1, m.id, m.content, m.error), t);
    } else {
      SameIsWithin(n, r, s1, t);
    }
  }

  lemma SignInWithin(n: nat, r: nat, s: State, t: State)
    requires Within(n, r, s) && t.signIn == s.signIn
    ensures Within(n, r, t)
  {
  }

  lemma {:induction false} DrainWithin(n: nat, r: nat, s: State, last: seq<Input>)
    requires Inv(s) && s.proc && FitsAll(s, last) && Within(n, r, s) && !ResetAmong(r, s, last)
    ensures Within(n, RowAfterAll(r, s, last), Drain(s, last))
    decreases |last|
  {
    if last != [] {
      hide Inv, HandleMessage, Fits, StrayCompletion, Retrying, Within, RowAfter;
      var before, i := last[..|last| - 1], last[|last| - 1];
      DrainKeeps(s, before);
      DrainWithin(n, r, s, before);
      MessageWithin(n, RowAfterAll(r, s, before), Drain(s, before), i.m, i.order, i.stale);
    }
  }

  lemma StopWithin(n: nat, r: nat, s: State, end: Ending)
    requires Inv(s) && s.proc && Ends(s, end) && Within(n, r, s) && !ResetAmong(r, CloseProc(s), end.last)
    ensures Within(n, RowAfterAll(r, CloseProc(s), end.last), StopProc(s, end))
  {
    hide Inv, Drain, OnExit, FitsAll, Lists, ResetAmong, RowAfterAll, Within, CloseProc;
    EndsAre(s, end);
    ClosingKeeps(s);
    SameIsWithin(n, r, s, CloseProc(s));
    DrainWithin(n, r, CloseProc(s), end.last);
    SameIsWithin(n, RowAfterAll(r, CloseProc(s), end.last), Drain(CloseProc(s), end.last), StopProc(s, end));
  }

  // --- steps ---------------------------------------------------------------------------------

  // A prompt that is taken leaves a turn running; one that is not only resets the count.
  lemma Prompting(s: State, text: string, files: nat, resolves: bool, readable: bool, e: Env)
    requires Inv(s)
    ensures var t, a := UserSend(s, text, files, resolves, readable, e), SendAction(text, files, resolves, readable);
            && (Taken(s, a, e) ==> t.turn.active)
            && (!Taken(s, a, e) ==> t.signIn == s.signIn.(refreshRetries := 0))
  {
    hide Inv, EnsureProc, SendTo;
  }

  // A retry that is made is the armed one, and begins with nothing known of the sign-in.
  lemma RetryBegins(s: State, timer: Timer, e: Env)
    ensures var t := RetryFired(s, timer, e);
            Retries(s, RetryAction(timer), e) ==>
              s.signIn.refreshRetry == Some(timer) && t.signIn == Renewed(s.signIn)
  {
    hide Send, Continued;
  }

  lemma SendWithin(n: nat, r: nat, s: State, a: Action, e: Env)
    requires Inv(s) && Within(n, r, s) && a.SendAction? && (Taken(s, a, e) || !Retrying(r, s))
    ensures Within(n, NextRow(r, s, a, e), Apply(s, a, e))
  {
    var t := Apply(s, a, e);
    Prompting(s, a.text, a.files, a.resolves, a.readable, e);
    ApplyKeeps(s, a, e);
    TurnsHaveProcesses(s);
    TurnsHaveProcesses(t);
    hide Inv, UserSend, Taken;
  }

  lemma RetryWithin(n: nat, r: nat, s: State, a: Action, e: Env)
    requires Within(n, r, s) && a.RetryAction?
    ensures Within(n, NextRow(r, s, a, e), Apply(s, a, e))
  {
    var t := RetryFired(s, a.t, e);
    RetryBegins(s, a.t, e);
    hide RetryFired;
    if !Retries(s, a, e) && t != s {
      SameIsWithin(n, r, s.(signIn := s.signIn.(refreshRetry := None)), t);
    }
  }

  lemma RestartWithin(n: nat, r: nat, s: State, end: Ending, e: Env)
    requires Inv(s) && (s.proc ==> Ends(s, end)) && Within(n, r, s)
    requires s.proc ==> !ResetAmong(r, CloseProc(s), end.last)
    ensures Within(n, if s.proc then RowAfterAll(r, CloseProc(s), end.last) else r,
                   Changed(Restart(s, end, e), e.stale))
  {
    hide Inv, Within, ResetAmong, RowAfterAll, Ends, StopProc, EnsureProc, CloseProc, Changed, Emit;
    var s1 := if s.proc then StopProc(s, end) else s;
    var r1 := if s.proc then RowAfterAll(r, CloseProc(s), end.last) else r;
    if s.proc {
      StopWithin(n, r, s, end);
    }
    var s2 := EnsureProc(s1, e.start);
    SameIsWithin(n, r1, s1, s2);
    SameIsWithin(n, r1, s2, Restart(s, end, e));
    SameIsWithin(n, r1, Restart(s, end, e), Changed(Restart(s, end, e), e.stale));
  }

  lemma RewindWithin(n: nat, r: nat, s: State, w: Rewinding, end: Ending, e: Env)
    requires Inv(s) && (Restoring(s, w, e).proc ==> Ends(Restoring(s, w, e), end)) && Within(n, r, s)
    requires Stops(s, w, e) ==> !ResetAmong(r, CloseProc(Restoring(s, w, e)), end.last)
    ensures Within(n, if Stops(s, w, e) then RowAfterAll(r, CloseProc(Restoring(s, w, e)), end.last) else r,
                   Changed(Rewind(s, w, end, e), e.stale))
  {
    hide Inv, Within, ResetAmong, RowAfterAll, Ends, StopProc, EnsureProc, CloseProc, Changed, Emit;
    StartKeeps(s, e.start);
    var s1 := Restoring(s, w, e);
    SameIsWithin(n, r, s, s1);
    var r1 := if Stops(s, w, e) then RowAfterAll(r, CloseProc(s1), end.last) else r;
    var s2 := if Stops(s, w, e) then StopProc(s1, end) else if s.foreign || s.turn.active || !w.found then s else s1;
    if Stops(s, w, e) {
      StopWithin(n, r, s1, end);
    }
    SameIsWithin(n, r1, s2, Rewind(s, w, end, e));
    SameIsWithin(n, r1, Rewind(s, w, end, e), Changed(Rewind(s, w, end, e), e.stale));
  }

  lemma HandledWithin(n: nat, r: nat, s: State, m: Message, order: seq<string>, e: Env)
    requires Inv(s) && Fits(s, m, order) && Within(n, r, s)
    requires !ResetsEarly(r, s, MessageAction(m, order), e)
    ensures Within(n, NextRow(r, s, MessageAction(m, order), e), HandleMessage(s, m, order, e.stale))
  {
    var i := Input(m, order, e.stale);
    assert [i][..0] == [] && Drain(s, []) == s && RowAfterAll(r, s, []) == r;
    hide Inv, Fits, HandleMessage, Within, StrayCompletion, Retrying, RowAfter;
    assert RowAfterAll(r, s, [i]) == RowAfter(r, s, m);
    assert ResetAmong(r, s, [i]) <==> StrayCompletion(s, m) && Retrying(r, s);
    MessageWithin(n, r, s, m, order, e.stale);
  }

  /** Every step but an early reset keeps what is possible within any bound of three or more. */
  lemma StepWithin(n: nat, r: nat, s: State, a: Action, e: Env)
    requires Inv(s) && Enabled(s, a, e) && Within(n, r, s) && !ResetsEarly(r, s, a, e)
    ensures Within(n, NextRow(r, s, a, e), Apply(s, a, e))
  {
    match a
    case SendAction(_, _, _, _) => SendWithin(n, r, s, a, e);
    case RetryAction(_) => RetryWithin(n, r, s, a, e);
    case MessageAction(m, order) => HandledWithin(n, r, s, m, order, e);
    case RestartAction(end) => ReStarted(n, r, s, end, e);
    case RewindAction(w, end) => ReWound(n, r, s, w, end, e);
    case _ => OtherWithin(n, r, s, a, e);
  }

  lemma ReStarted(n: nat, r: nat, s: State, end: Ending, e: Env)
    requires Inv(s) && (s.proc ==> Ends(s, end)) && Within(n, r, s) && !ResetsEarly(r, s, RestartAction(end), e)
    ensures Within(n, NextRow(r, s, RestartAction(end), e), Apply(s, RestartAction(end), e))
  {
    hide Inv, Within, ResetAmong, Ends, Changed, Restart, CloseProc;
    RestartWithin(n, r, s, end, e);
  }

  lemma ReWound(n: nat, r: nat, s: State, w: Rewinding, end: Ending, e: Env)
    requires Inv(s) && (Restoring(s, w, e).proc ==> Ends(Restoring(s, w, e), end)) && Within(n, r, s)
    requires !ResetsEarly(r, s, RewindAction(w, end), e)
    ensures Within(n, NextRow(r, s, RewindAction(w, end), e), Apply(s, RewindAction(w, end), e))
  {
    hide Inv, Within, ResetAmong, Ends, Changed, Rewind, CloseProc, Stops, Restoring;
    RewindWithin(n, r, s, w, end, e);
  }

  lemma OtherWithin(n: nat, r: nat, s: State, a: Action, e: Env)
    requires Within(n, r, s) && !a.SendAction? && !a.RetryAction? && !a.MessageAction?
    requires !a.RestartAction? && !a.RewindAction?
    ensures Within(n, NextRow(r, s, a, e), Apply(s, a, e))
  {
    hide Within, Changed, Interrupt, Respond, MarkDone, ProcessEvent, ContinueTurn, IdleFired, OnExit;
    SameIsWithin(n, r, s, Apply(s, a, e));
  }

  /**
    In every run in which the count is not reset early, a turn is retried at
    most three times in a row, whatever else begins and ends turns between.
   */
  lemma {:induction false} RetriesAreBounded(run: seq<State>, steps: seq<(Action, Env)>, k: nat)
    requires IsRun(run, steps) && k < |run|
    requires forall i :: 0 <= i < k ==> !ResetsEarly(Row(run, steps, i), run[i], steps[i].0, steps[i].1)
    ensures Row(run, steps, k) <= MAX_REFRESH_RETRIES
    ensures Within(MAX_REFRESH_RETRIES, Row(run, steps, k), run[k])
  {
    assert Within(MAX_REFRESH_RETRIES, 0, Initial(false)) && Within(MAX_REFRESH_RETRIES, 0, Initial(true));
    RowAt(run, steps, k);
    hide Inv, Apply, Enabled, ResetsEarly, NextRow, Row, Initial;
    if k > 0 {
      RetriesAreBounded(run, steps, k - 1);
      SessionRuns.EveryRunIsSafe(run, steps, k - 1);
      StepWithin(MAX_REFRESH_RETRIES, Row(run, steps, k - 1), run[k - 1], steps[k - 1].0, steps[k - 1].1);
    }
  }

  lemma RowAt(run: seq<State>, steps: seq<(Action, Env)>, k: nat)
    requires k <= |steps| && k <= |run|
    ensures Row(run, steps, k) == if k == 0 then 0
            else NextRow(Row(run, steps, k - 1), run[k - 1], steps[k - 1].0, steps[k - 1].1)
  {
  }

  // --- more retries than that ------------------------------------------------------------------

  /** `more` can follow, without an early reset. */
  ghost predicate Follows(r: nat, s: State, more: seq<(Action, Env)>)
    decreases |more|
  {
    more == [] ||
    var (a, e) := more[0];
    Enabled(s, a, e) && !ResetsEarly(r, s, a, e) && Follows(NextRow(r, s, a, e), Apply(s, a, e), more[1..])
  }

  function RowOf(r: nat, s: State, more: seq<(Action, Env)>): nat
    decreases |more|
  {
    if more == [] then r
    else RowOf(NextRow(r, s, more[0].0, more[0].1), Apply(s, more[0].0, more[0].1), more[1..])
  }

  lemma First(r: nat, s: State, a: Action, more: seq<(Action, Env)>)
    requires Enabled(s, a, Willing) && !ResetsEarly(r, s, a, Willing)
    requires Follows(NextRow(r, s, a, Willing), Apply(s, a, Willing), more)
    ensures Follows(r, s, [(a, Willing)] + more)
    ensures RowOf(r, s, [(a, Willing)] + more) == RowOf(NextRow(r, s, a, Willing), Apply(s, a, Willing), more)
  {
    hide Enabled, ResetsEarly, NextRow, Apply;
    assert ([(a, Willing)] + more)[1..] == more;
  }

  const LostRace: Action := MessageAction(Assistant("m", [], SignedOut(true)), [])

  function Failure(order: seq<string>): Action { MessageAction(Result(false, false, ""), order) }

  // A step of one message that is no completed result makes no retry and resets nothing.
  lemma PlainMessage(r: nat, s: State, m: Message, order: seq<string>)
    requires !(m.Result? && m.ok)
    ensures var a := MessageAction(m, order);
            NextRow(r, s, a, Willing) == r && !ResetsEarly(r, s, a, Willing)
  {
    var i := Input(m, order, false);
    assert [i][..0] == [] && RowAfterAll(r, s, []) == r && Inputs(s, MessageAction(m, order), Willing) == [i];
    hide HandleMessage, Retrying;
    assert ResetAmong(r, s, [i]) <==> StrayCompletion(Drain(s, []), m) && Retrying(r, Drain(s, []));
  }

  /** A turn runs, and nothing is known of its sign-in, nor does anything wait. */
  ghost predicate Working(s: State) {
    && Inv(s) && s.turn.active && !s.turn.interrupted && s.asking.pending == map[]
    && !s.signIn.refreshBusy && !s.signIn.authFailed
  }

  /** The sign-in race was lost: a result that fails is retried. */
  ghost predicate Losing(s: State) {
    Inv(s) && s.proc && !s.turn.interrupted && s.signIn.refreshBusy && !s.signIn.authFailed
  }

  lemma LosesTheRace(r: nat, s: State)
    requires Working(s) && s.signIn.refreshRetries < MAX_REFRESH_RETRIES
    ensures Enabled(s, LostRace, Willing) && !ResetsEarly(r, s, LostRace, Willing)
    ensures NextRow(r, s, LostRace, Willing) == r
    ensures var t := Apply(s, LostRace, Willing);
            && Losing(t) && t.turn == s.turn && t.asking == s.asking
            && t.signIn.refreshRetries == s.signIn.refreshRetries && t.past.log == s.past.log + [Notice]
  {
    PlainMessage(r, s, LostRace.m, []);
    TurnsHaveProcesses(s);
    MessageKeeps(s, LostRace.m, [], false);
    Noted(s.(past := s.past.(heard := s.past.heard + [LostRace.m])));
    hide Inv, OnAssistant, ResetsEarly, NextRow;
  }

  lemma Noted(s: State)
    requires s.turn.active && s.signIn.refreshRetries < MAX_REFRESH_RETRIES
    ensures OnAssistant(s, "m", [], SignedOut(true))
         == Emit(s.(signIn := s.signIn.(refreshBusy := true)), Notice)
  {
    hide Emit;
  }

  lemma FailureArms(r: nat, s: State, order: seq<string>)
    requires Losing(s) && Lists(order, s.asking.pending)
    ensures Enabled(s, Failure(order), Willing) && !ResetsEarly(r, s, Failure(order), Willing)
    ensures NextRow(r, s, Failure(order), Willing) == r
    ensures var t := Apply(s, Failure(order), Willing);
            && Losing(t) && t.signIn.refreshRetry == Some(Timer(s.signIn.timers, s.turn.recapping))
            && t.signIn.refreshRetries == s.signIn.refreshRetries + 1
  {
    var m := Failure(order).m;
    PlainMessage(r, s, m, order);
    MessageKeeps(s, m, order, false);
    FailsSoon(s, order);
    var t := HandleMessage(s, m, order, false);
    TurnsHaveProcesses(t);
    if t.turn.interrupted {
      StoppedIsActive(t);
    }
    hide Inv, HandleMessage, ResetsEarly, NextRow, Lists;
  }

  lemma FailsSoon(s: State, order: seq<string>)
    requires !s.turn.interrupted && s.signIn.refreshBusy && !s.signIn.authFailed
    ensures var t := HandleMessage(s, Failure(order).m, order, false);
            && t.signIn.refreshRetry == Some(Timer(s.signIn.timers, s.turn.recapping))
            && t.signIn.refreshRetries == s.signIn.refreshRetries + 1
            && t.signIn.refreshBusy && !t.signIn.authFailed
  {
    var s1 := s.(past := s.past.(heard := s.past.heard + [Failure(order).m]));
    RetryIsCounted(s1, false, false, order, false);
    HandledSignIn(s, Failure(order).m, order, false);
    hide HandleMessage, OnResult;
  }

  lemma MakesTheRetry(r: nat, s: State)
    requires Inv(s) && s.signIn.refreshRetry.Some?
    ensures var a := RetryAction(s.signIn.refreshRetry.value);
            && Enabled(s, a, Willing) && !ResetsEarly(r, s, a, Willing) && NextRow(r, s, a, Willing) == r + 1
            && Working(Apply(s, a, Willing))
            && Apply(s, a, Willing).signIn.refreshRetries == s.signIn.refreshRetries
  {
    hide Inv, RetryFired, NextRow, ResetsEarly;
    var a := RetryAction(s.signIn.refreshRetry.value);
    TurnsHaveProcesses(s);
    NothingWaits(s);
    RetryFiredKeeps(s, a.t, Willing);
    RetryWorks(s);
    BegunIsCounted(r, s, a);
  }

  lemma BegunIsCounted(r: nat, s: State, a: Action)
    requires a.RetryAction? && !s.turn.active && Apply(s, a, Willing).turn.active
    ensures NextRow(r, s, a, Willing) == r + 1 && !ResetsEarly(r, s, a, Willing)
  {
    hide Apply;
  }

  lemma RetryWorks(s: State)
    requires s.signIn.refreshRetry.Some? && !s.turn.active
    ensures var t := RetryFired(s, s.signIn.refreshRetry.value, Willing);
            && t.turn.active && !t.turn.interrupted && t.asking.pending == s.asking.pending
            && t.signIn == Renewed(s.signIn)
            && (!s.signIn.refreshRetry.value.recap ==>
                t.past.log == s.past.log + [TurnStarted] && t.turn.recapping == s.turn.recapping)
  {
    hide EnsureProc, Emit, Changed, SendTo, Resume, BeginTurn, SameSignIn, Silent, MayStart, SameEvents;
    var timer := s.signIn.refreshRetry.value;
    var s0 := s.(signIn := s.signIn.(refreshRetry := None));
    var s1 := if timer.recap then s0.(turn := s0.turn.(recapping := true)) else s0;
    StartsUp(s1);
    var s2 := EnsureProc(s1, Up);
    if timer.recap {
      assert RetryFired(s, timer, Willing) == SendTo(s2, RECAP, true, Willing);
      RecapBegins(s2);
    } else {
      assert RetryFired(s, timer, Willing) == Changed(Resume(BeginTurn(s2), Willing), false);
      GoesOn(s2);
    }
  }

  lemma StartsUp(s: State)
    ensures var t := EnsureProc(s, Up);
            t.proc && t.turn == s.turn && t.signIn == s.signIn && t.asking == s.asking && t.past.log == s.past.log
  {
  }

  lemma RecapBegins(s: State)
    requires s.proc && !s.turn.active
    ensures var t := SendTo(s, RECAP, true, Willing);
            && t.turn.active && !t.turn.interrupted && t.asking == s.asking && t.signIn == Renewed(s.signIn)
  {
    hide SameSignIn, Silent, MayStart, SameEvents;
  }

  lemma GoesOn(s: State)
    requires s.proc && !s.turn.active
    ensures var t := Changed(Resume(BeginTurn(s), Willing), false);
            && t.turn.active && !t.turn.interrupted && t.asking == s.asking && t.signIn == Renewed(s.signIn)
            && t.past.log == s.past.log + [TurnStarted] && t.turn.recapping == s.turn.recapping
  {
    hide SameSignIn, Silent, MayStart, SameEvents;
  }

  lemma {:induction false} Rounds(r: nat, s: State) returns (more: seq<(Action, Env)>)
    requires Working(s)
    ensures Follows(r, s, more) && RowOf(r, s, more) == r + Rest(s.signIn.refreshRetries)
    decreases Rest(s.signIn.refreshRetries), 1
  {
    hide Apply, Enabled, ResetsEarly, NextRow, Follows, RowOf;
    if Rest(s.signIn.refreshRetries) == 0 {
      more := Nothing(r, s);
    } else {
      LosesTheRace(r, s);
      var s1 := Apply(s, LostRace, Willing);
      FailureArms(r, s1, []);
      more := FromArmed(r, Apply(s1, Failure([]), Willing));
      First(r, s1, Failure([]), more);
      First(r, s, LostRace, [(Failure([]), Willing)] + more);
      more := [(LostRace, Willing)] + ([(Failure([]), Willing)] + more);
    }
  }

  lemma Nothing(r: nat, s: State) returns (more: seq<(Action, Env)>)
    ensures Follows(r, s, more) && RowOf(r, s, more) == r
  {
    more := [];
  }

  // The armed retry, and all that can follow it.
  lemma {:induction false} FromArmed(r: nat, s: State) returns (more: seq<(Action, Env)>)
    requires Inv(s) && s.signIn.refreshRetry.Some?
    ensures Follows(r, s, more) && RowOf(r, s, more) == r + 1 + Rest(s.signIn.refreshRetries)
    decreases Rest(s.signIn.refreshRetries), 2
  {
    hide Inv, Apply, Enabled, ResetsEarly, NextRow, Follows, RowOf;
    MakesTheRetry(r, s);
    var a := RetryAction(s.signIn.refreshRetry.value);
    more := Rounds(r + 1, Apply(s, a, Willing));
    First(r, s, a, more);
    more := [(a, Willing)] + more;
  }

  // An exit, a process event, and starting a process that does not run: no message, no prompt, no retry.
  lemma PlainStep(r: nat, s: State, a: Action)
    requires a.ExitAction? || a.EventAction? || (a.RestartAction? && !s.proc)
    ensures NextRow(r, s, a, Willing) == r && !ResetsEarly(r, s, a, Willing)
  {
  }

  lemma {:induction false} Listable(pending: map<string, string>) returns (order: seq<string>)
    ensures Lists(order, pending)
    decreases pending.Keys
  {
    if pending == map[] {
      order := [];
    } else {
      var r :| r in pending;
      var rest := Listable(pending - {r});
      order := rest + [r];
      assert forall x :: x in order <==> x in rest || x == r;
    }
  }

  lemma Woken(s: State)
    requires Inv(s) && !s.turn.active
    ensures var t := ProcessEvent(s, "", true, Willing);
            Working(t) && t.signIn.refreshRetries == s.signIn.refreshRetries
  {
    ProcessEventKeeps(s, "", true, Willing);
    NothingWaits(s);
    WokenTurn(s);
    hide Inv, ProcessEvent;
  }

  lemma WokenTurn(s: State)
    requires !s.turn.active
    ensures var t := ProcessEvent(s, "", true, Willing);
            t.turn.active && !t.turn.interrupted && t.asking == s.asking
  {
    var s1 := Given(s, "", Wakes);
    assert s1.asking == s.asking && s1.turn == s.turn;
    hide Given, EnsureProc, SameSignIn, Silent, MayStart, SameEvents;
    StartsUp(s1.(held := s1.held + [""]));
  }

  // A process event wakes the agent, and the turn it begins loses the race as often as it may.
  lemma FromIdle(r: nat, s: State) returns (more: seq<(Action, Env)>)
    requires Inv(s) && !s.turn.active
    ensures Follows(r, s, more) && RowOf(r, s, more) == r + Rest(s.signIn.refreshRetries)
  {
    hide Inv, Working, ProcessEvent, Follows, RowOf, ResetsEarly, NextRow;
    var a := EventAction("", true);
    PlainStep(r, s, a);
    Woken(s);
    more := Rounds(r, ProcessEvent(s, "", true, Willing));
    First(r, s, a, more);
    more := [(a, Willing)] + more;
  }

  // With no retry armed: a turn that runs is cut off, and another is begun.
  lemma FromAnywhere(r: nat, s: State) returns (more: seq<(Action, Env)>)
    requires Inv(s) && s.signIn.refreshRetry.None?
    ensures Follows(r, s, more) && RowOf(r, s, more) == r + Rest(s.signIn.refreshRetries)
  {
    hide Inv, OnExit, Follows, RowOf, ResetsEarly, NextRow;
    if s.turn.active {
      var order := Listable(s.asking.pending);
      TurnsHaveProcesses(s);
      ExitKeeps(s, order, false);
      var a := ExitAction(order, false);
      PlainStep(r, s, a);
      more := FromIdle(r, OnExit(s, order, false));
      First(r, s, a, more);
      more := [(a, Willing)] + more;
    } else {
      more := FromIdle(r, s);
    }
  }

  // Between turns the result of one that lost the race may still come, once a process runs.
  lemma FromLosing(r: nat, s: State) returns (more: seq<(Action, Env)>)
    requires Losing(s)
    ensures Follows(r, s, more) && RowOf(r, s, more) > r
  {
    var order := Listable(s.asking.pending);
    FailureArms(r, s, order);
    var a := Failure(order);
    hide Inv, Losing, Apply, Enabled, Follows, RowOf, ResetsEarly, NextRow, Lists;
    more := FromArmed(r, Apply(s, a, Willing));
    First(r, s, a, more);
    more := [(a, Willing)] + more;
  }

  // A turn the user stopped ends first.
  lemma StoppedEnds(r: nat, s: State, order: seq<string>)
    requires Inv(s) && s.turn.interrupted && Lists(order, s.asking.pending)
    ensures var a := Failure(order);
            && Enabled(s, a, Willing) && !ResetsEarly(r, s, a, Willing) && NextRow(r, s, a, Willing) == r
            && Inv(Apply(s, a, Willing)) && Apply(s, a, Willing).proc && !Apply(s, a, Willing).turn.interrupted
            && Apply(s, a, Willing).signIn == s.signIn
  {
    var m := Failure(order).m;
    StoppedIsActive(s);
    TurnsHaveProcesses(s);
    PlainMessage(r, s, m, order);
    MessageKeeps(s, m, order, false);
    StopsSoon(s, order);
    hide Inv, HandleMessage, ResetsEarly, NextRow, Lists;
  }

  lemma StopsSoon(s: State, order: seq<string>)
    requires s.turn.interrupted
    ensures var t := HandleMessage(s, Failure(order).m, order, false);
            !t.turn.interrupted && t.signIn == s.signIn
  {
    var s1 := s.(past := s.past.(heard := s.past.heard + [Failure(order).m]));
    HandledSignIn(s, Failure(order).m, order, false);
    RetryIsCounted(s1, false, false, order, false);
    NotStopped(s1, order);
    assert HandleMessage(s, Failure(order).m, order, false) == Changed(OnResult(s1, false, false, order, false), false);
    hide HandleMessage, OnResult, Changed;
  }

  lemma NotStopped(s: State, order: seq<string>)
    requires s.turn.interrupted
    ensures var t := OnResult(s, false, false, order, false); !t.turn.interrupted
  {
    hide ScheduleRetry, ResolveAll;
  }

  lemma ProcessStarts(r: nat, s: State)
    requires Inv(s) && !s.proc
    ensures var a := RestartAction(Ending([], [], false));
            && Enabled(s, a, Willing) && !ResetsEarly(r, s, a, Willing) && NextRow(r, s, a, Willing) == r
            && Inv(Apply(s, a, Willing)) && Apply(s, a, Willing).proc && Apply(s, a, Willing).turn == s.turn
            && Apply(s, a, Willing).signIn == s.signIn
  {
    var a := RestartAction(Ending([], [], false));
    PlainStep(r, s, a);
    RestartKeeps(s, a.end, Willing);
    StartsUp(s);
    hide Inv, EnsureProc, ResetsEarly, NextRow;
  }

  lemma FromBusy(r: nat, s: State) returns (more: seq<(Action, Env)>)
    requires Inv(s) && s.signIn.refreshBusy && !s.signIn.authFailed
    ensures Follows(r, s, more) && RowOf(r, s, more) > r
  {
    if s.turn.interrupted {
      var order := Listable(s.asking.pending);
      StoppedEnds(r, s, order);
      hide Inv, Apply, Enabled, Follows, RowOf, ResetsEarly, NextRow, Lists;
      more := FromLosing(r, Apply(s, Failure(order), Willing));
      First(r, s, Failure(order), more);
      more := [(Failure(order), Willing)] + more;
    } else if !s.proc {
      var a := RestartAction(Ending([], [], false));
      ProcessStarts(r, s);
      hide Inv, Apply, Enabled, Follows, RowOf, ResetsEarly, NextRow;
      more := FromLosing(r, Apply(s, a, Willing));
      First(r, s, a, more);
      more := [(a, Willing)] + more;
    } else {
      more := FromLosing(r, s);
    }
  }

  lemma {:induction false} FollowsWithin(n: nat, r: nat, s: State, more: seq<(Action, Env)>)
    requires Inv(s) && Within(n, r, s) && Follows(r, s, more)
    ensures RowOf(r, s, more) <= n
    decreases |more|
  {
    if more != [] {
      var (a, e) := more[0];
      StepWithin(n, r, s, a, e);
      ApplyKeeps(s, a, e);
      hide Inv, Enabled, ResetsEarly, NextRow, Apply, Within;
      FollowsWithin(n, NextRow(r, s, a, e), Apply(s, a, e), more[1..]);
    }
  }

  /**
    From any state a session can be in, more than three retries in a row can
    follow, though the count is not reset early any more, exactly when `Most`
    says so: when the count is less than the retries made and armed.
   */
  lemma WhenMoreCanFollow(r: nat, s: State)
    requires Inv(s)
    ensures Most(r, s) > MAX_REFRESH_RETRIES
       <==> exists more :: Follows(r, s, more) && RowOf(r, s, more) > MAX_REFRESH_RETRIES
  {
    if Most(r, s) <= MAX_REFRESH_RETRIES {
      forall more | Follows(r, s, more) ensures RowOf(r, s, more) <= MAX_REFRESH_RETRIES {
        FollowsWithin(MAX_REFRESH_RETRIES, r, s, more);
      }
    } else {
      hide Inv, Follows, RowOf;
      var more: seq<(Action, Env)>;
      if s.signIn.refreshRetry.Some? {
        more := FromArmed(r, s);
      } else if s.signIn.refreshBusy && !s.signIn.authFailed && Rest(s.signIn.refreshRetries) == 0 {
        more := FromBusy(r, s);
      } else {
        more := FromAnywhere(r, s);
      }
      assert Follows(r, s, more) && RowOf(r, s, more) > MAX_REFRESH_RETRIES;
    }
  }

  /**
    Only an early reset takes a session to such a state, and a prompt or a
    message that is one always does. (What a closing process says after one may
    still end the row.)
   */
  lemma EarlyResetsLetMoreFollow(r: nat, s: State, a: Action, e: Env)
    requires Inv(s) && Enabled(s, a, e) && Most(r, s) <= MAX_REFRESH_RETRIES
    ensures Most(NextRow(r, s, a, e), Apply(s, a, e)) > MAX_REFRESH_RETRIES ==> ResetsEarly(r, s, a, e)
    ensures ResetsEarly(r, s, a, e) && !a.RestartAction? && !a.RewindAction? ==>
              Most(NextRow(r, s, a, e), Apply(s, a, e)) > MAX_REFRESH_RETRIES
  {
    hide Inv, Enabled, Apply, NextRow, ResetsEarly;
    if !ResetsEarly(r, s, a, e) {
      StepWithin(MAX_REFRESH_RETRIES, r, s, a, e);
    } else if !a.RestartAction? && !a.RewindAction? {
      EarlyReset(r, s, a, e);
    }
  }

  lemma EarlyReset(r: nat, s: State, a: Action, e: Env)
    requires Inv(s) && ResetsEarly(r, s, a, e) && !a.RestartAction? && !a.RewindAction?
    ensures Most(NextRow(r, s, a, e), Apply(s, a, e)) > MAX_REFRESH_RETRIES
  {
    if a.SendAction? {
      Prompting(s, a.text, a.files, a.resolves, a.readable, e);
      hide Inv, UserSend;
    } else {
      StrayResets(r, s, a.m, a.order, e);
    }
  }

  lemma StrayResets(r: nat, s: State, m: Message, order: seq<string>, e: Env)
    requires Inv(s) && ResetsEarly(r, s, MessageAction(m, order), e)
    ensures var a := MessageAction(m, order);
            Most(NextRow(r, s, a, e), Apply(s, a, e)) > MAX_REFRESH_RETRIES
  {
    hide Inv, HandleMessage, OnResult;
    var i := Input(m, order, e.stale);
    assert [i][..0] == [] && Drain(s, []) == s && RowAfterAll(r, s, []) == r;
    assert ResetAmong(r, s, [i]) <==> StrayCompletion(s, m) && Retrying(r, s);
    assert RowAfterAll(r, s, [i]) == RowAfter(r, s, m);
    var s1 := s.(past := s.past.(heard := s.past.heard + [m]));
    HandledSignIn(s, m, order, e.stale);
    if s.turn.interrupted {
      StoppedIsActive(s);
    }
    RetryIsCounted(s1, m.ok, m.contextFull, order, e.stale);
  }

  // --- one prompt, retried without end ---------------------------------------------------------

  function Prompts(log: seq<Event>): nat {
    if log == [] then 0 else Prompts(log[..|log| - 1]) + (if log[|log| - 1].Prompted? then 1 else 0)
  }

  lemma PromptsSnoc(log: seq<Event>, e: Event)
    ensures Prompts(log + [e]) == Prompts(log) + (if e.Prompted? then 1 else 0)
  {
    assert (log + [e])[..|log|] == log;
  }

  const Empty: Action := SendAction("", 0, true, true)

  lemma EmptyResets(r: nat, s: State)
    requires Inv(s)
    ensures Enabled(s, Empty, Willing) && NextRow(r, s, Empty, Willing) == r
    ensures var t := Apply(s, Empty, Willing);
            && Inv(t) && t.signIn == s.signIn.(refreshRetries := 0)
            && t.turn == s.turn && t.asking == s.asking && t.past.log == s.past.log
  {
    ApplyKeeps(s, Empty, Willing);
    hide Inv;
  }

  lemma FailureLogs(s: State)
    requires s.asking.pending == map[] && !s.turn.interrupted && s.signIn.refreshBusy && !s.signIn.authFailed
    ensures var t := HandleMessage(s, Failure([]).m, [], false);
            t.past.log == s.past.log + [TurnEnded(Errored, RefreshBusy)] + [Notice] && !t.turn.recapping
  {
    hide EndTurn, ScheduleRetry, Silent, SameSignIn, SameEvents, OnlyResolves;
    var s1 := s.(past := s.past.(heard := s.past.heard + [Failure([]).m]));
    EndLogs(s1);
    ScheduleLogs(EndTurn(s1, [], Errored, RefreshBusy), s.turn.recapping);
  }

  lemma ScheduleLogs(s: State, recap: bool)
    ensures var t := ScheduleRetry(s, recap, false); t.past.log == s.past.log + [Notice] && t.turn == s.turn
  {
    hide Silent, SameSignIn, SameEvents;
  }

  lemma EndLogs(s: State)
    ensures var t := EndTurn(s, [], Errored, RefreshBusy);
            t.past.log == s.past.log + [TurnEnded(Errored, RefreshBusy)] && !t.turn.recapping
  {
    assert ResolveAll(s, []) == s;
    hide ResolveAll;
  }

  /** A turn of the only prompt so far, with no retry counted. */
  ghost predicate OnItsOwn(s: State) {
    Working(s) && s.signIn.refreshRetries == 0 && !s.turn.recapping && Prompts(s.past.log) == 1
  }

  lemma {:induction false} RowPrefix(run: seq<State>, steps: seq<(Action, Env)>, t: State, step: (Action, Env), k: nat)
    requires k <= |steps| && |run| == |steps| + 1
    ensures Row(run + [t], steps + [step], k) == Row(run, steps, k)
  {
    hide NextRow;
    if k > 0 {
      assert (run + [t])[k - 1] == run[k - 1] && (steps + [step])[k - 1] == steps[k - 1];
      RowPrefix(run, steps, t, step, k - 1);
    }
  }

  // The run with one more step.
  lemma Further(run: seq<State>, steps: seq<(Action, Env)>, a: Action)
    returns (run': seq<State>, steps': seq<(Action, Env)>)
    requires IsRun(run, steps) && Enabled(run[|steps|], a, Willing)
    ensures IsRun(run', steps') && run'[|steps'|] == Apply(run[|steps|], a, Willing)
    ensures Row(run', steps', |steps'|) == NextRow(Row(run, steps, |steps|), run[|steps|], a, Willing)
  {
    hide Apply, Enabled, NextRow, Row, Initial;
    run', steps' := run + [Apply(run[|steps|], a, Willing)], steps + [(a, Willing)];
    RowAt(run', steps', |steps'|);
    RowPrefix(run, steps, Apply(run[|steps|], a, Willing), (a, Willing), |steps|);
  }

  // The race is lost, the result arms a retry, an empty prompt resets the count, and the retry is made.
  lemma OnceMore(run: seq<State>, steps: seq<(Action, Env)>) returns (run': seq<State>, steps': seq<(Action, Env)>)
    requires IsRun(run, steps) && OnItsOwn(run[|steps|])
    ensures IsRun(run', steps') && OnItsOwn(run'[|steps'|])
    ensures Row(run', steps', |steps'|) == Row(run, steps, |steps|) + 1
  {
    var r, s := Row(run, steps, |steps|), run[|steps|];
    LosesTheRace(r, s);
    PromptsSnoc(s.past.log, Notice);
    run', steps' := Further(run, steps, LostRace);
    run', steps' := FailsAndRetries(run', steps');
  }

  lemma FailsAndRetries(run: seq<State>, steps: seq<(Action, Env)>)
    returns (run': seq<State>, steps': seq<(Action, Env)>)
    requires IsRun(run, steps) && Losing(run[|steps|]) && run[|steps|].asking.pending == map[]
    requires !run[|steps|].turn.recapping && Prompts(run[|steps|].past.log) == 1
    ensures IsRun(run', steps') && OnItsOwn(run'[|steps'|])
    ensures Row(run', steps', |steps'|) == Row(run, steps, |steps|) + 1
  {
    hide Inv, Losing, OnItsOwn, Apply, Enabled, NextRow, Row, Prompts, Failure;
    var r, s := Row(run, steps, |steps|), run[|steps|];
    FailsAlone(r, s);
    run', steps' := Further(run, steps, Failure([]));
    var s1 := run'[|steps'|];
    EmptyResets(r, s1);
    run', steps' := Further(run', steps', Empty);
    run', steps' := RetriesAlone(run', steps');
  }

  lemma FailsAlone(r: nat, s: State)
    requires Losing(s) && s.asking.pending == map[] && !s.turn.recapping && Prompts(s.past.log) == 1
    ensures Enabled(s, Failure([]), Willing) && NextRow(r, s, Failure([]), Willing) == r
    ensures var t := Apply(s, Failure([]), Willing);
            && Inv(t) && t.signIn.refreshRetry.Some? && !t.signIn.refreshRetry.value.recap
            && !t.turn.recapping && Prompts(t.past.log) == 1
  {
    hide Inv, NextRow, ResetsEarly, Prompts, HandleMessage;
    FailureArms(r, s, []);
    FailureLogs(s);
    PromptsSnoc(s.past.log, TurnEnded(Errored, RefreshBusy));
    PromptsSnoc(s.past.log + [TurnEnded(Errored, RefreshBusy)], Notice);
  }

  lemma RetriesAlone(run: seq<State>, steps: seq<(Action, Env)>)
    returns (run': seq<State>, steps': seq<(Action, Env)>)
    requires IsRun(run, steps) && Inv(run[|steps|]) && run[|steps|].signIn.refreshRetries == 0
    requires run[|steps|].signIn.refreshRetry.Some? && !run[|steps|].signIn.refreshRetry.value.recap
    requires !run[|steps|].turn.recapping && Prompts(run[|steps|].past.log) == 1
    ensures IsRun(run', steps') && OnItsOwn(run'[|steps'|])
    ensures Row(run', steps', |steps'|) == Row(run, steps, |steps|) + 1
  {
    hide Inv, Working, Apply, Enabled, NextRow, Row, Prompts;
    var r, s := Row(run, steps, |steps|), run[|steps|];
    MakesTheRetry(r, s);
    RetryIsSilent(s);
    PromptsSnoc(s.past.log, TurnStarted);
    run', steps' := Further(run, steps, RetryAction(s.signIn.refreshRetry.value));
  }

  lemma RetryIsSilent(s: State)
    requires Inv(s) && s.signIn.refreshRetry.Some? && !s.signIn.refreshRetry.value.recap
    ensures var t := Apply(s, RetryAction(s.signIn.refreshRetry.value), Willing);
            t.past.log == s.past.log + [TurnStarted] && t.turn.recapping == s.turn.recapping
  {
    TurnsHaveProcesses(s);
    RetryWorks(s);
    hide Inv, RetryFired;
  }

  /**
    For any number there is a run in which the only prompt is retried that often
    in a row: an empty prompt resets the count whenever a retry is armed.
   */
  lemma {:induction false} AnyNumberOfRetries(n: nat) returns (run: seq<State>, steps: seq<(Action, Env)>)
    ensures IsRun(run, steps) && Row(run, steps, |steps|) == n
    ensures OnItsOwn(run[|steps|])
  {
    hide OnItsOwn, Row;
    if n == 0 {
      run, steps := OnePrompt();
    } else {
      run, steps := AnyNumberOfRetries(n - 1);
      run, steps := OnceMore(run, steps);
    }
  }

  lemma OnePrompt() returns (run: seq<State>, steps: seq<(Action, Env)>)
    ensures IsRun(run, steps) && Row(run, steps, |steps|) == 0 && OnItsOwn(run[|steps|])
  {
    assert Enabled(Initial(false), FixIt, Willing);
    hide Apply, Enabled, OnItsOwn, NextRow, Row, Initial;
    run, steps := JustBegun();
    ThePrompt();
    run, steps := Further(run, steps, FixIt);
  }

  lemma JustBegun() returns (run: seq<State>, steps: seq<(Action, Env)>)
    ensures IsRun(run, steps) && Row(run, steps, |steps|) == 0 && run[|steps|] == Initial(false)
  {
    run, steps := [Initial(false)], [];
  }

  lemma ThePrompt()
    ensures OnItsOwn(Apply(Initial(false), FixIt, Willing)) && NextRow(0, Initial(false), FixIt, Willing) == 0
  {
    hide Inv, Apply, Prompts;
    InitialIsSafe(false);
    ApplyKeeps(Initial(false), FixIt, Willing);
    AfterAPrompt();
    PromptsSnoc([], TurnStarted);
    PromptsSnoc([] + [TurnStarted], Prompted("fix it"));
    NoPrompts();
  }

  lemma NoPrompts()
    ensures Prompts([]) == 0
  {
  }

  // --- the count, and with it the wait ---------------------------------------------------------

  /** A result that is retried though no turn runs that it could end. */
  predicate Stray(s: State, m: Message) {
    m.Result? && Retried(s, m.ok, m.contextFull) && !s.turn.active
  }

  ghost predicate NoneStray(s: State, last: seq<Input>)
    decreases |last|
  {
    last == [] || (NoneStray(s, last[..|last| - 1]) && !Stray(Drain(s, last[..|last| - 1]), last[|last| - 1].m))
  }

  /** No result the action handles, a closing process's last ones included, is a stray one. */
  ghost predicate EndsTurns(s: State, a: Action, e: Env) {
    match a
    case MessageAction(m, _) => !Stray(s, m)
    case RestartAction(end) => s.proc ==> NoneStray(CloseProc(s), end.last)
    case RewindAction(w, end) =>
      Restoring(s, w, e).proc ==> NoneStray(CloseProc(Restoring(s, w, e)), end.last)
    case _ => true
  }

  predicate Bounded(s: State) { s.signIn.refreshRetries <= MAX_REFRESH_RETRIES }

  lemma ResultBound(s: State, m: Message, order: seq<string>, stale: bool)
    requires Inv(s) && m.Result? && Lists(order, s.asking.pending) && Bounded(s) && !Stray(s, m)
    ensures Bounded(OnResult(s, m.ok, m.contextFull, order, stale))
  {
    if Retried(s, m.ok, m.contextFull) {
      RetriesAreCounted(s, m.ok, m.contextFull, order, stale);
    } else {
      OthersAreNotRetried(s, m.ok, m.contextFull, order, stale);
    }
  }

  lemma MessageBound(s: State, m: Message, order: seq<string>, stale: bool)
    requires Inv(s) && Fits(s, m, order) && Bounded(s) && !Stray(s, m)
    ensures Bounded(HandleMessage(s, m, order, stale))
  {
    hide Inv, Lists, HandleMessage, OnAssistant, OnResult, SameSignIn;
    var s1 := s.(past := s.past.(heard := s.past.heard + [m]));
    HeardKeeps(s, s1.past.heard);
    HandledSignIn(s, m, order, stale);
    var t := HandleMessage(s, m, order, stale);
    if m.Result? {
      ResultBound(s1, m, order, stale);
    } else if m.Assistant? {
      AssistantBound(s1, m.id, m.content, m.error);
      SameIsBounded(OnAssistant(s1, m.id, m.content, m.error), t);
    } else {
      SameIsBounded(s1, t);
    }
  }

  lemma AssistantBound(s: State, id: string, content: seq<Content>, error: AssistantError)
    requires Bounded(s)
    ensures Bounded(OnAssistant(s, id, content, error))
  {
    hide OnAssistant, Emit;
  }

  lemma {:induction false} DrainBound(s: State, last: seq<Input>)
    requires Inv(s) && s.proc && FitsAll(s, last) && Bounded(s) && NoneStray(s, last)
    ensures Bounded(Drain(s, last))
    decreases |last|
  {
    if last != [] {
      hide Inv, HandleMessage, Fits, Stray;
      var before, i := last[..|last| - 1], last[|last| - 1];
      DrainKeeps(s, before);
      DrainBound(s, before);
      MessageBound(Drain(s, before), i.m, i.order, i.stale);
    }
  }

  lemma StopBound(s: State, end: Ending)
    requires Inv(s) && s.proc && Ends(s, end) && Bounded(s) && NoneStray(CloseProc(s), end.last)
    ensures Bounded(StopProc(s, end))
  {
    hide Inv, Drain, OnExit, FitsAll, Lists, NoneStray;
    ClosingKeeps(s);
    DrainBound(CloseProc(s), end.last);
  }

  lemma SameIsBounded(s: State, t: State)
    requires Bounded(s) && SameSignIn(s, t)
    ensures Bounded(t)
  {
  }

  lemma RestartBound(s: State, end: Ending, e: Env)
    requires Inv(s) && (s.proc ==> Ends(s, end)) && Bounded(s) && (s.proc ==> NoneStray(CloseProc(s), end.last))
    ensures Bounded(Changed(Restart(s, end, e), e.stale))
  {
    hide Inv, Bounded, NoneStray, Ends, StopProc, EnsureProc, CloseProc, Changed, Emit;
    var s1 := if s.proc then StopProc(s, end) else s;
    if s.proc {
      StopBound(s, end);
    }
    SameIsBounded(s1, EnsureProc(s1, e.start));
    SameIsBounded(EnsureProc(s1, e.start), Restart(s, end, e));
    SameIsBounded(Restart(s, end, e), Changed(Restart(s, end, e), e.stale));
  }

  lemma RewindBound(s: State, w: Rewinding, end: Ending, e: Env)
    requires Inv(s) && (Restoring(s, w, e).proc ==> Ends(Restoring(s, w, e), end)) && Bounded(s)
    requires Restoring(s, w, e).proc ==> NoneStray(CloseProc(Restoring(s, w, e)), end.last)
    ensures Bounded(Changed(Rewind(s, w, end, e), e.stale))
  {
    hide Inv, Bounded, NoneStray, Ends, StopProc, EnsureProc, CloseProc, Changed, Emit;
    StartKeeps(s, e.start);
    var s1 := Restoring(s, w, e);
    SameIsBounded(s, s1);
    var s2 := if Stops(s, w, e) then StopProc(s1, end) else if s.foreign || s.turn.active || !w.found then s else s1;
    if Stops(s, w, e) {
      StopBound(s1, end);
    }
    SameIsBounded(s2, Rewind(s, w, end, e));
    SameIsBounded(Rewind(s, w, end, e), Changed(Rewind(s, w, end, e), e.stale));
  }

  lemma ApplyBound(s: State, a: Action, e: Env)
    requires Inv(s) && Enabled(s, a, e) && Bounded(s) && EndsTurns(s, a, e)
    ensures Bounded(Apply(s, a, e))
  {
    hide Inv, UserSend, Changed, Interrupt, Restart, Respond, Rewind, MarkDone, ProcessEvent, ContinueTurn, RetryFired,
         IdleFired, HandleMessage, OnExit, Ends, Fits, Lists, Restoring, CloseProc, Stray, NoneStray;
    match a
    case MessageAction(m, order) => MessageBound(s, m, order, e.stale);
    case RestartAction(end) => RestartBound(s, end, e);
    case RewindAction(w, end) => RewindBound(s, w, end, e);
    case _ =>
  }

  /** In every run in which each retried result ends a turn, the count, and with it the wait, stops at three. */
  lemma {:induction false} TheCountIsBounded(run: seq<State>, steps: seq<(Action, Env)>, k: nat)
    requires IsRun(run, steps) && k < |run|
    requires forall i :: 0 <= i < k ==> EndsTurns(run[i], steps[i].0, steps[i].1)
    ensures run[k].signIn.refreshRetries <= MAX_REFRESH_RETRIES
  {
    hide Inv, Apply, Enabled, EndsTurns;
    if k > 0 {
      TheCountIsBounded(run, steps, k - 1);
      EveryRunIsSafe(run, steps, k - 1);
      ApplyBound(run[k - 1], steps[k - 1].0, steps[k - 1].1);
    }
  }

  /**
    One turn loses the race and its error result comes n times: a run that counts
    as many retries as one likes, though it makes none.
   */
  lemma {:induction false} AnyCount(n: nat) returns (run: seq<State>, steps: seq<(Action, Env)>)
    ensures IsRun(run, steps) && Losing(run[|steps|])
    ensures run[|steps|].signIn.refreshRetries == n && Row(run, steps, |steps|) == 0
  {
    if n == 0 {
      run, steps := AnyNumberOfRetries(0);
      LosesTheRace(0, run[|steps|]);
      run, steps := Further(run, steps, LostRace);
    } else {
      run, steps := AnyCount(n - 1);
      var order := Listable(run[|steps|].asking.pending);
      FailureArms(0, run[|steps|], order);
      run, steps := Further(run, steps, Failure(order));
    }
  }
}
