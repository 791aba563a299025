/**
  Calls over one connection and their replies (JSON-RPC to an ACP agent, CDP to
  the browser), as interleaved steps of any number of callers, the reader and
  whoever finds the connection dead. Every call has its own reply channel of
  capacity one.
 */
module Calls {

  /**
    What a call's channel carries: its reply, or that the connection is gone (ACP
    closes the channel, CDP sends an error).
   */
  datatype Reply = Answer(text: string) | Gone

  datatype Result = Got(reply: Reply) | ContextEnded | WriteFailed

  /** Where a call is: about to write its request, waiting, giving up, or returned. */
  datatype Phase = Registered | Waiting | GivingUp | Returned(result: Result)

  datatype Reader = Reading | Holding(id: nat, text: string) | Stopped

  datatype State = State(
    next: nat,                      // ids handed out: 1 to next
    pending: set<nat>,
    failed: bool,
    failing: set<nat>,              // taken off pending by the failure, not yet told
    chans: map<nat, seq<Reply>>,    // everything ever sent on a call's channel
    calls: map<nat, Phase>,
    reader: Reader,
    refused: nat,                   // calls turned away because the connection had failed
    arrived: set<(nat, string)>)    // replies read off the wire

  const Initial: State := State(0, {}, false, {}, map[], map[], Reading, 0, {})

  datatype Step =
    | Begin                         // a call registers, or is refused
    | Written(id: nat)
    | WriteError(id: nat)           // the caller fails the connection (CDP)
    | Arrive(id: nat, text: string) // the reader takes the reply's channel off the table
    | Deliver                       // ... and sends on it
    | ReaderFails                   // the process or socket is gone
    | Tell(id: nat)                 // a call the failure took is told
    | Receive(id: nat)
    | ContextEnds(id: nat)
    | Leave(id: nat)

  function Fail(s: State): State {
    if s.failed then s else s.(failed := true, failing := s.failing + s.pending, pending := {})
  }

  function Put(s: State, id: nat, r: Reply): State
    requires id in s.chans
  {
    s.(chans := s.chans[id := s.chans[id] + [r]])
  }

  predicate In(s: State, id: nat, p: Phase) { id in s.calls && s.calls[id] == p }

  /** A send is not one of the conditions here: that it never blocks or meets a missing channel is what is proved. */
  predicate Enabled(s: State, step: Step) {
    match step
    case Begin => true
    case Written(id) => In(s, id, Registered)
    case WriteError(id) => In(s, id, Registered)
    case Arrive(_, _) => s.reader.Reading?
    case Deliver => s.reader.Holding?
    case ReaderFails => s.reader.Reading?
    case Tell(id) => id in s.failing
    case Receive(id) => In(s, id, Waiting) && id in s.chans && s.chans[id] != []
    case ContextEnds(id) => In(s, id, Waiting)
    case Leave(id) => In(s, id, GivingUp)
  }

  /** The sends of Deliver and Tell go to channels that exist. */
  predicate HasChannel(s: State, step: Step) {
    && (step.Deliver? && s.reader.Holding? ==> s.reader.id in s.chans)
    && (step.Tell? ==> step.id in s.chans)
  }

  function Apply(s: State, step: Step): State
    requires Enabled(s, step) && HasChannel(s, step)
  {
    match step
    case Begin =>
      if s.failed then s.(refused := s.refused + 1)
      else
        var id := s.next + 1;
        s.(next := id, pending := s.pending + {id}, chans := s.chans[id := []], calls := s.calls[id := Registered])
    case Written(id) => s.(calls := s.calls[id := Waiting])
    case WriteError(id) => Fail(s).(calls := s.calls[id := Returned(WriteFailed)])
    case Arrive(id, text) =>
      var s1 := s.(arrived := s.arrived + {(id, text)});
      if id in s.pending then s1.(pending := s.pending - {id}, reader := Holding(id, text)) else s1
    case Deliver => Put(s, s.reader.id, Answer(s.reader.text)).(reader := Reading)
    case ReaderFails => Fail(s).(reader := Stopped)
    case Tell(id) => Put(s, id, Gone).(failing := s.failing - {id})
    case Receive(id) => s.(calls := s.calls[id := Returned(Got(s.chans[id][0]))])
    case ContextEnds(id) => s.(calls := s.calls[id := GivingUp])
    case Leave(id) => s.(pending := s.pending - {id}, calls := s.calls[id := Returned(ContextEnded)])
  }

  /** The reader has the call's channel in hand. */
  predicate Held(r: Reader, id: nat) { r.Holding? && r.id == id }

  /** A call is owed one message: from the table, the reader or the failure; or it has it. */
  ghost predicate Owed(pending: set<nat>, failing: set<nat>, r: Reader, sent: seq<Reply>, id: nat) {
    && |sent| <= 1
    && !(id in pending && (id in failing || Held(r, id) || sent != []))
    && !(id in failing && (Held(r, id) || sent != []))
    && !(Held(r, id) && sent != [])
  }

  ghost predicate Reached(pending: set<nat>, failing: set<nat>, r: Reader, sent: seq<Reply>, id: nat) {
    id in pending || id in failing || Held(r, id) || sent != []
  }

  /** Every answer on a call's channel came off the wire with the call's own id. */
  ghost predicate Own(arrived: set<(nat, string)>, sent: seq<Reply>, id: nat) {
    forall i :: 0 <= i < |sent| ==> sent[i].Answer? ==> (id, sent[i].text) in arrived
  }

  ghost predicate CallOk(s: State, id: nat)
    requires id in s.chans && id in s.calls
  {
    && Owed(s.pending, s.failing, s.reader, s.chans[id], id)
    && Own(s.arrived, s.chans[id], id)
    && (s.calls[id].Registered? || s.calls[id].Waiting? || s.calls[id].GivingUp? ==>
          Reached(s.pending, s.failing, s.reader, s.chans[id], id))
    && (s.calls[id].Returned? && s.calls[id].result.Got? ==> s.chans[id] == [s.calls[id].result.reply])
    && (s.calls[id].Returned? ==> id !in s.pending)
    && (s.calls[id].Returned? && s.calls[id].result.WriteFailed? ==> s.failed)
  }

  ghost predicate Inv(s: State) {
    && s.chans.Keys == s.calls.Keys
    && (forall id :: id in s.calls ==> id <= s.next)
    && (forall id :: id in s.pending || id in s.failing || Held(s.reader, id) ==> id in s.calls)
    && (s.failed ==> s.pending == {})
    && (s.reader.Stopped? ==> s.failed)
    && (s.reader.Holding? ==> (s.reader.id, s.reader.text) in s.arrived)
    && (forall id :: id in s.calls ==> CallOk(s, id))
  }

  /** In every state, a send finds its channel, empty: it never blocks. */
  lemma SendsNeverBlock(s: State, step: Step)
    requires Inv(s) && Enabled(s, step)
    ensures HasChannel(s, step)
    ensures step.Deliver? ==> s.chans[s.reader.id] == []
    ensures step.Tell? ==> s.chans[step.id] == []
  {
  }

  lemma FailKeeps(s: State)
    requires Inv(s)
    ensures Inv(Fail(s)) && Fail(s).failed
  {
  }

  // A call changes phase, with its channel and the tables as they are.
  lemma PhaseKeeps(s: State, id: nat, p: Phase)
    requires Inv(s) && id in s.calls
    requires p.Returned? || !s.calls[id].Returned?
    requires p.Returned? && p.result.Got? ==> s.chans[id] == [p.result.reply]
    requires p.Returned? ==> id !in s.pending && (p.result.WriteFailed? ==> s.failed)
    ensures Inv(s.(calls := s.calls[id := p]))
  {
  }

  lemma StepKeeps(s: State, step: Step)
    requires Inv(s) && Enabled(s, step)
    ensures HasChannel(s, step) && Inv(Apply(s, step))
  {
    SendsNeverBlock(s, step);
    match step {
      case Begin => BeginKeeps(s);
      case Written(id) => PhaseKeeps(s, id, Waiting);
      case WriteError(id) =>
        FailKeeps(s);
        PhaseKeeps(Fail(s), id, Returned(WriteFailed));
      case Arrive(id, text) => ArriveKeeps(s, id, text);
      case Deliver => PutKeeps(s, s.reader.id, Answer(s.reader.text), Reading, s.failing);
      case ReaderFails =>
        FailKeeps(s);
        StoppedKeeps(Fail(s));
      case Tell(id) => PutKeeps(s, id, Gone, s.reader, s.failing - {id});
      case Receive(id) =>
        assert CallOk(s, id) && s.chans[id] == [s.chans[id][0]];
        PhaseKeeps(s, id, Returned(Got(s.chans[id][0])));
      case ContextEnds(id) => PhaseKeeps(s, id, GivingUp);
      case Leave(id) => LeaveKeeps(s, id);
    }
  }

  lemma BeginKeeps(s: State)
    requires Inv(s)
    ensures Inv(Apply(s, Begin))
  {
  }

  lemma ArriveKeeps(s: State, id: nat, text: string)
    requires Inv(s) && s.reader.Reading?
    ensures Inv(Apply(s, Arrive(id, text)))
  {
  }

  // The owed message goes out: from the reader's hand, or from the failure.
  lemma PutKeeps(s: State, id: nat, r: Reply, reader: Reader, failing: set<nat>)
    requires Inv(s) && id in s.calls && s.chans[id] == []
    requires r.Answer? ==> (id, r.text) in s.arrived
    requires (reader == Reading && Held(s.reader, id) && failing == s.failing)
             || (reader == s.reader && id in s.failing && failing == s.failing - {id})
    ensures Inv(Put(s, id, r).(reader := reader, failing := failing))
  {
  }

  lemma StoppedKeeps(s: State)
    requires Inv(s) && s.failed && s.reader.Reading?
    ensures Inv(s.(reader := Stopped))
  {
  }

  lemma LeaveKeeps(s: State, id: nat)
    requires Inv(s) && In(s, id, GivingUp)
    ensures Inv(Apply(s, Leave(id)))
  {
  }

  ghost predicate IsRun(run: seq<State>, steps: seq<Step>) {
    && |run| == |steps| + 1 && run[0] == Initial
    && (forall i :: 0 <= i < |steps| ==>
          Enabled(run[i], steps[i]) && (HasChannel(run[i], steps[i]) ==> run[i + 1] == Apply(run[i], steps[i])))
  }

  lemma {:induction false} EveryRunIsSafe(run: seq<State>, steps: seq<Step>, k: nat)
    requires IsRun(run, steps) && k < |run|
    ensures Inv(run[k])
  {
    if k > 0 {
      EveryRunIsSafe(run, steps, k - 1);
      StepKeeps(run[k - 1], steps[k - 1]);
    }
  }

  /** A call that got a reply got the one that came with its own id, or the failure of the connection. */
  lemma CallsGetTheirOwnReply(run: seq<State>, steps: seq<Step>, k: nat, id: nat, text: string)
    requires IsRun(run, steps) && k < |run| && In(run[k], id, Returned(Got(Answer(text))))
    ensures (id, text) in run[k].arrived
  {
    EveryRunIsSafe(run, steps, k);
    assert CallOk(run[k], id) && run[k].chans[id][0] == Answer(text);
  }

  /** A call returns once: what it returned never changes, whatever happens after. */
  lemma ReturnsOnce(s: State, step: Step, id: nat, result: Result)
    requires Inv(s) && Enabled(s, step) && In(s, id, Returned(result))
    ensures HasChannel(s, step) && In(Apply(s, step), id, Returned(result))
  {
  }

  /**
    Once the connection has failed, new calls are refused, and no call waits for
    ever: each one waiting has its message, or the failure or the reader has
    one step left that gives it to it.
   */
  lemma NobodyWaitsAfterAFailure(run: seq<State>, steps: seq<Step>, k: nat, id: nat)
    requires IsRun(run, steps) && k < |run| && run[k].failed
    ensures Apply(run[k], Begin).calls == run[k].calls && Apply(run[k], Begin).refused == run[k].refused + 1
    ensures In(run[k], id, Waiting) ==>
              Enabled(run[k], Receive(id)) || Enabled(run[k], Tell(id))
                  || (Enabled(run[k], Deliver) && run[k].reader.id == id)
  {
    EveryRunIsSafe(run, steps, k);
    if In(run[k], id, Waiting) {
      assert CallOk(run[k], id);
    }
  }

  /**
    The table never holds a call that returned, nor one that has its message: it
    does not grow with calls given up. A request that could not be written has
    failed the connection.
   */
  lemma TheTableIsOfOpenCalls(run: seq<State>, steps: seq<Step>, k: nat, id: nat)
    requires IsRun(run, steps) && k < |run|
    ensures id in run[k].pending ==> id in run[k].calls && !run[k].calls[id].Returned?
    ensures id in run[k].pending ==> id in run[k].chans && run[k].chans[id] == []
    ensures In(run[k], id, Returned(WriteFailed)) ==> run[k].failed
  {
    EveryRunIsSafe(run, steps, k);
    if id in run[k].calls {
      assert CallOk(run[k], id);
    }
  }

  /** At every point of every run a channel has seen at most one message. */
  lemma AtMostOneMessageEach(run: seq<State>, steps: seq<Step>, k: nat, id: nat)
    requires IsRun(run, steps) && k < |run| && id in run[k].chans
    ensures |run[k].chans[id]| <= 1
  {
    EveryRunIsSafe(run, steps, k);
    assert CallOk(run[k], id);
  }
}
