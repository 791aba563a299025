/**
  What a thread's session records, and the protocol its record keeps: turns
  begin and end by turns, every permission request gets one outcome by the end
  of its turn, and a turn only makes its thread done if the agent asked for it
  in that turn and no prompt came after.
 */
module SessionLog {
  import opened Wrappers
  import opened Messages

  datatype TurnResult = Completed | Interrupted | Errored
  datatype Reason = Plain | SignedOutReason | RefreshBusy | ContextFull
  datatype Choice = Allow | AllowSession | Deny
  datatype Decision = Chosen(choice: Choice) | Canceled

  /** How the agent hears of a process event: in this turn, in a new one, or with the next prompt. */
  datatype Hearing = InTurn | Wakes | Later

  /** What a session logs and shows; the last three are not in its log, only done. */
  datatype Event =
    | TurnStarted
    | TurnEnded(result: TurnResult, why: Reason)
    | Prompted(text: string)
    | ProcessHeard(how: Hearing)
    | Said(kind: Kind, said: string, streamKey: Option<string>)
    | ToolShown(tool: string)
    | ToolAnswered(tool: string)
    | Outcome(req: string, decision: Decision)
    | Notice
    | Rewound
    | Asked(req: string)        // a permission request starts waiting
    | DoneWanted                // the agent called thread_done during a turn
    | Done(afterTurn: bool)     // the thread is marked done: by a turn's end, or at once

  /**
    A record so far: is a turn running, which requests wait, which ever did, is
    done wanted, and was it just earned.
   */
  datatype Turns = Bad | Turns(active: bool, open: set<string>, asked: set<string>, wanted: bool, earned: bool)

  /** An earned mark comes at once, or the record is a bad one. */
  function Step(a: Turns, e: Event): Turns {
    if a.Bad? || (a.earned && e != Done(true)) then Bad else
    var b := a.(earned := false);
    match e
    case TurnStarted => if a.active then Bad else b.(active := true)
    case TurnEnded(r, _) => if a.open != {} then Bad
                            else b.(active := false, wanted := false, earned := a.wanted && r.Completed?)
    case Asked(r) => if a.active && r !in a.asked then b.(open := a.open + {r}, asked := a.asked + {r}) else Bad
    case Outcome(r, _) => if r in a.open then b.(open := a.open - {r}) else Bad
    case Prompted(_) => if a.active then b.(wanted := false) else Bad
    case DoneWanted => if a.active then b.(wanted := true) else Bad
    case Done(after) => if (if after then a.earned else !a.active) then b else Bad
    case _ => b
  }

  function Scan(log: seq<Event>): Turns {
    if log == [] then Turns(false, {}, {}, false, false) else Step(Scan(log[..|log| - 1]), log[|log| - 1])
  }

  lemma ScanSnoc(log: seq<Event>, e: Event)
    ensures Scan(log + [e]) == Step(Scan(log), e)
  {
    assert (log + [e])[..|log|] == log;
  }

  lemma {:induction false} ScanAt(log: seq<Event>, k: nat)
    requires Scan(log).Turns? && k < |log|
    ensures Scan(log[..k]).Turns? && Step(Scan(log[..k]), log[k]).Turns?
    decreases |log|
  {
    if k < |log| - 1 {
      assert log[..|log| - 1][..k] == log[..k];
      ScanAt(log[..|log| - 1], k);
    }
  }

  /** No turn event after position j. */
  ghost predicate Steady(log: seq<Event>, j: nat) {
    forall i :: j < i < |log| ==> !log[i].TurnStarted? && !log[i].TurnEnded?
  }

  /** A turn runs exactly when the last turn event is a start. */
  lemma {:induction false} ActiveSinceTheLastStart(log: seq<Event>)
    requires Scan(log).Turns?
    ensures Scan(log).active <==> exists j :: 0 <= j < |log| && log[j].TurnStarted? && Steady(log, j)
    decreases |log|
  {
    if log != [] {
      var n := |log| - 1;
      ActiveSinceTheLastStart(log[..n]);
      if log[n].TurnStarted? {
        assert Steady(log, n);
      } else if log[n].TurnEnded? {
      } else {
        assert forall j :: 0 <= j < n ==> log[..n][j] == log[j];
        assert forall j :: 0 <= j < n ==> (Steady(log[..n], j) <==> Steady(log, j));
      }
    }
  }

  /** Between two turn starts there is a turn end. */
  lemma TurnsAlternate(log: seq<Event>, i: nat, k: nat)
    requires Scan(log).Turns? && i < k < |log| && log[i].TurnStarted? && log[k].TurnStarted?
    ensures exists j :: i < j < k && log[j].TurnEnded?
  {
    ScanAt(log, k);
    if forall j :: i < j < k ==> !log[j].TurnEnded? {
      // The last start before k would be one of a running turn.
      LastStart(log, i, k);
    }
  }

  lemma {:induction false} LastStart(log: seq<Event>, i: nat, k: nat)
    requires Scan(log).Turns? && i < k <= |log| && log[i].TurnStarted?
    requires forall j :: i < j < k ==> !log[j].TurnEnded?
    ensures Scan(log[..k]).Turns? ==> Scan(log[..k]).active
    decreases k
  {
    assert log[..k] == log[..k - 1] + [log[k - 1]];
    ScanSnoc(log[..k - 1], log[k - 1]);
    if i < k - 1 {
      LastStart(log, i, k - 1);
    }
  }

  // --- permissions -------------------------------------------------------------

  function Asks(log: seq<Event>, r: string): nat {
    if log == [] then 0 else Asks(log[..|log| - 1], r) + (if log[|log| - 1] == Asked(r) then 1 else 0)
  }

  function Outcomes(log: seq<Event>, r: string): nat {
    if log == [] then 0
    else Outcomes(log[..|log| - 1], r) + (if log[|log| - 1].Outcome? && log[|log| - 1].req == r then 1 else 0)
  }

  lemma {:induction false} OpenIsUnanswered(log: seq<Event>, r: string)
    requires Scan(log).Turns?
    ensures Asks(log, r) == (if r in Scan(log).asked then 1 else 0)
    ensures Asks(log, r) == Outcomes(log, r) + (if r in Scan(log).open then 1 else 0)
    decreases |log|
  {
    if log != [] {
      OpenIsUnanswered(log[..|log| - 1], r);
    }
  }

  /** When a turn ends, every request made so far has exactly one outcome; no outcome comes unasked. */
  lemma OutcomesByTheEnd(log: seq<Event>, k: nat, r: string)
    requires Scan(log).Turns? && k < |log|
    ensures log[k].TurnEnded? ==> Outcomes(log[..k], r) == Asks(log[..k], r) <= 1
    ensures Outcomes(log[..k], r) <= Asks(log[..k], r) <= 1
    ensures log[k].Outcome? && log[k].req == r ==> Asks(log[..k], r) == 1 && Outcomes(log[..k], r) == 0
  {
    ScanAt(log, k);
    OpenIsUnanswered(log[..k], r);
  }

  // --- done ----------------------------------------------------------------------

  /** Nothing after position j starts or ends a turn or prompts. */
  ghost predicate Undisturbed(log: seq<Event>, j: nat) {
    Steady(log, j) && forall i :: j < i < |log| ==> !log[i].Prompted?
  }

  lemma {:induction false} WantedSince(log: seq<Event>) returns (j: nat)
    requires Scan(log).Turns? && Scan(log).wanted
    ensures Scan(log).active && j < |log| && log[j] == DoneWanted && Undisturbed(log, j)
    decreases |log|
  {
    var n := |log| - 1;
    if log[n] == DoneWanted {
      j := n;
    } else {
      j := WantedSince(log[..n]);
      assert log[..n][j] == log[j];
      forall i | j < i < |log| ensures !log[i].TurnStarted? && !log[i].TurnEnded? && !log[i].Prompted? {
        assert i < n ==> log[..n][i] == log[i];
      }
    }
  }

  /**
    A turn marks its thread done only right as it completes, and only if the
    agent asked for it in that turn with no prompt since.
   */
  lemma DoneIsEarned(log: seq<Event>, k: nat) returns (j: nat)
    requires Scan(log).Turns? && k < |log| && log[k] == Done(true)
    ensures j + 1 < k && log[j] == DoneWanted && Undisturbed(log[..k - 1], j)
    ensures log[k - 1].TurnEnded? && log[k - 1].result == Completed
  {
    ScanAt(log, k);
    var before := log[..k];
    assert before[..k - 1] == log[..k - 1];
    j := WantedSince(log[..k - 1]);
    assert log[..k - 1][j] == log[j];
  }

  lemma {:induction false} WantedUntil(log: seq<Event>, j: nat)
    requires Scan(log).Turns? && j < |log| && log[j] == DoneWanted && Undisturbed(log, j)
    ensures Scan(log).wanted
    decreases |log|
  {
    var n := |log| - 1;
    if j < n {
      assert log[..n][j] == log[j];
      forall i | j < i < n ensures !log[..n][i].TurnStarted? && !log[..n][i].TurnEnded? && !log[..n][i].Prompted? {
        assert log[..n][i] == log[i];
      }
      WantedUntil(log[..n], j);
    }
  }

  /** And a turn that completes marks it, if the agent asked for it in that turn with no prompt since. */
  lemma EarnedIsMarked(log: seq<Event>, j: nat, k: nat)
    requires Scan(log).Turns? && !Scan(log).earned && j < k < |log|
    requires log[j] == DoneWanted && Undisturbed(log[..k], j)
    requires log[k].TurnEnded? && log[k].result == Completed
    ensures k + 1 < |log| && log[k + 1] == Done(true)
  {
    assert log[..k + 1][..k] == log[..k] && log[..|log|] == log;
    ScanAt(log, k);
    WantedUntil(log[..k], j);
    if k + 1 < |log| {
      ScanAt(log, k + 1);
    }
  }
}
