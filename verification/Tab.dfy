/**
  A browser tab's input and frames: runs of pointer moves are cut to their
  last, and nothing else is lost; each viewer gets frames in order, none twice,
  and the newest whenever it has room.
 */
module Tab {
  import opened Wrappers

  // --- input -----------------------------------------------------------------------

  datatype Input = Move(x: int, y: int) | Other(what: string)

  /**
    Whether an input is passed over: a move with a move behind it that is there
    when the loop looks. there[k] says whether input k is queued by then.
   */
  predicate Overtaken(queued: seq<Input>, there: seq<bool>, i: nat)
    requires |there| == |queued| && i < |queued|
  {
    queued[i].Move? && i + 1 < |queued| && queued[i + 1].Move? && there[i + 1]
  }

  /** The first n inputs without those passed over. */
  function Handled(queued: seq<Input>, there: seq<bool>, n: nat): seq<Input>
    requires |there| == |queued| && n <= |queued|
  {
    if n == 0 then []
    else Handled(queued, there, n - 1) + (if Overtaken(queued, there, n - 1) then [] else [queued[n - 1]])
  }

  /** Each input is handled after those before it, unless it is a move and a move was there behind it. */
  lemma HandledNext(queued: seq<Input>, there: seq<bool>, n: nat)
    requires |there| == |queued| && 0 < n <= |queued|
    ensures var before, late := Handled(queued, there, n - 1), n == |queued| || !there[n];
            Handled(queued, there, n) == if queued[n - 1].Other? || late || queued[n].Other?
                                         then before + [queued[n - 1]] else before
  {
  }

  /** What is handled, with the input in hand if there is one. */
  function With(handled: seq<Input>, next: Option<Input>): seq<Input> {
    if next.Some? then handled + [next.value] else handled
  }

  /**
    Handles the queued inputs. When each of them arrives is up to the browser;
    `there` says which had by the time the loop looked without waiting.
   */
  method InputLoop(queued: seq<Input>, there: seq<bool>) returns (handled: seq<Input>)
    requires |there| == |queued|
    ensures handled == Handled(queued, there, |queued|)
  {
    handled := [];
    var next: Option<Input>, at := None, 0;
    while next.Some? || at < |queued|
      invariant 0 <= at <= |queued|
      invariant next.Some? ==> at > 0 && next.value == queued[at - 1] && !next.value.Move?
      invariant With(handled, next) == Handled(queued, there, at)
      decreases |queued| - at, if next.Some? then 1 else 0
    {
      var it: Input;
      if next.Some? {
        it, next := next.value, None;
      } else {
        it, at := queued[at], at + 1;
      }
      if it.Move? {
        it, next, at := Latest(queued, there, it, at);
      }
      handled := handled + [it];
    }
  }

  /** Of the moves that are there only the last is kept; the input that ends them comes next. */
  method Latest(queued: seq<Input>, there: seq<bool>, first: Input, start: nat)
    returns (it: Input, next: Option<Input>, at: nat)
    requires |there| == |queued| && 0 < start <= |queued| && first.Move? && first == queued[start - 1]
    ensures start <= at <= |queued| && (next.Some? ==> start < at && next.value == queued[at - 1] && !next.value.Move?)
    ensures Handled(queued, there, at) == With(Handled(queued, there, start - 1) + [it], next)
  {
    it, next, at := first, None, start;
    while at < |queued|
      invariant start <= at <= |queued| && it.Move? && it == queued[at - 1] && next.None?
      invariant Handled(queued, there, at - 1) == Handled(queued, there, start - 1)
    {
      if !there[at] {
        break;
      }
      var n := queued[at];
      at := at + 1;
      if n.Move? {
        it := n;
      } else {
        next := Some(n);
        break;
      }
    }
  }

  function Others(s: seq<Input>): seq<Input> {
    if s == [] then [] else Others(s[..|s| - 1]) + (if s[|s| - 1].Move? then [] else [s[|s| - 1]])
  }

  lemma OthersSnoc(s: seq<Input>, i: Input)
    ensures Others(s + [i]) == Others(s) + (if i.Move? then [] else [i])
  {
    assert (s + [i])[..|s|] == s;
  }

  lemma {:induction false} OthersAreHandled(queued: seq<Input>, there: seq<bool>, n: nat)
    requires |there| == |queued| && n <= |queued|
    ensures Others(Handled(queued, there, n)) == Others(queued[..n])
  {
    if n > 0 {
      OthersAreHandled(queued, there, n - 1);
      HandledNext(queued, there, n);
      assert queued[..n] == queued[..n - 1] + [queued[n - 1]];
      OthersSnoc(queued[..n - 1], queued[n - 1]);
      OthersSnoc(Handled(queued, there, n - 1), queued[n - 1]);
      hide Others, Handled;
    }
  }

  lemma {:induction false} HandledWereQueued(queued: seq<Input>, there: seq<bool>, n: nat)
    requires |there| == |queued| && n <= |queued|
    ensures Subsequence(Handled(queued, there, n), queued[..n])
  {
    if n > 0 {
      HandledWereQueued(queued, there, n - 1);
      HandledNext(queued, there, n);
      GrowsAlike(Handled(queued, there, n - 1), Handled(queued, there, n), queued[..n - 1], queued[n - 1]);
      assert queued[..n] == queued[..n - 1] + [queued[n - 1]];
      hide Subsequence, Handled;
    }
  }

  lemma GrowsAlike(before: seq<Input>, handled: seq<Input>, queued: seq<Input>, i: Input)
    requires Subsequence(before, queued) && (handled == before || handled == before + [i])
    ensures Subsequence(handled, queued + [i])
  {
    SubsequenceSnoc(before, queued, i);
    hide Subsequence;
  }

  /**
    Every input but moves is handled, in order; what is handled was queued, in
    that order; and the last input always is.
   */
  lemma NothingElseIsLost(queued: seq<Input>, there: seq<bool>)
    requires |there| == |queued|
    ensures var handled := Handled(queued, there, |queued|);
            && Others(handled) == Others(queued) && Subsequence(handled, queued)
            && (queued != [] ==> handled != [] && handled[|handled| - 1] == queued[|queued| - 1])
  {
    OthersAreHandled(queued, there, |queued|);
    HandledWereQueued(queued, there, |queued|);
    assert queued[..|queued|] == queued;
  }

  ghost predicate TwoMovesIn(s: seq<Input>) {
    exists k :: 0 < k < |s| && s[k - 1].Move? && s[k].Move?
  }

  lemma {:induction false} MovesAreCut(queued: seq<Input>, there: seq<bool>, n: nat)
    requires |there| == |queued| && n <= |queued| && forall k :: 0 <= k < |there| ==> there[k]
    ensures var handled := Handled(queued, there, n);
            && !TwoMovesIn(handled)
            && (n > 0 && !Overtaken(queued, there, n - 1) ==>
                  handled != [] && handled[|handled| - 1] == queued[n - 1])
            && (n > 0 && Overtaken(queued, there, n - 1) && handled != [] ==> !handled[|handled| - 1].Move?)
  {
    if n > 0 {
      MovesAreCut(queued, there, n - 1);
    }
  }

  /** When every input is there in time, no two moves are handled in a row. */
  lemma OnlyTheLastMoveIsHandled(queued: seq<Input>, there: seq<bool>)
    requires |there| == |queued| && forall k :: 0 <= k < |there| ==> there[k]
    ensures !TwoMovesIn(Handled(queued, there, |queued|))
  {
    MovesAreCut(queued, there, |queued|);
  }

  // --- frames -----------------------------------------------------------------------------

  /**
    A viewer since it attached: JPEG or video, the last frame sent, whether frames
    wait for it, and all frames it got.
   */
  datatype Viewer = Viewer(video: bool, num: nat, lagging: bool, got: seq<nat>)

  /** A viewer's frames go up in number, and it knows the last it got; one that takes video got none. */
  predicate InOrder(v: Viewer, newest: nat) {
    && (forall i, j :: 0 <= i < j < |v.got| ==> v.got[i] < v.got[j])
    && (forall i :: 0 <= i < |v.got| ==> 0 < v.got[i] <= newest)
    && v.num == (if v.got == [] then 0 else v.got[|v.got| - 1])
    && (v.video ==> v.got == [])
  }

  /** What flushing does to a viewer. */
  function Flushed(v: Viewer, newest: nat, room: bool): Viewer {
    if !v.video && v.num < newest && room then v.(num := newest, lagging := false, got := v.got + [newest]) else v
  }

  lemma FlushedIs(v: Viewer, newest: nat, room: bool)
    requires InOrder(v, newest)
    ensures InOrder(Flushed(v, newest, room), newest) && Flushed(v, newest, room).video == v.video
    ensures Flushed(v, newest, room) == if !v.video && v.num < newest && room
                                        then v.(num := newest, lagging := false, got := v.got + [newest]) else v
    ensures room && !v.video ==> Flushed(v, newest, room).num == newest
  {
  }

  /** All viewers but those left are flushed. */
  ghost predicate FlushedBut(before: map<string, Viewer>, now: map<string, Viewer>, left: set<string>, newest: nat,
                             room: set<string>)
  {
    && now.Keys == before.Keys
    && (forall c :: c in now ==> now[c] == if c in left then before[c] else Flushed(before[c], newest, c in room))
  }

  lemma FlushOne(before: map<string, Viewer>, now: map<string, Viewer>, left: set<string>, newest: nat,
                 room: set<string>, c: string)
    requires FlushedBut(before, now, left, newest, room) && c in left && c in now
    ensures var v := now[c];
            var t := if !v.video && v.num < newest && c in room
                     then now[c := v.(num := newest, lagging := false, got := v.got + [newest])] else now;
            FlushedBut(before, t, left - {c}, newest, room) && t.Keys == now.Keys
  {
  }

  lemma AllFlushed(before: map<string, Viewer>, now: map<string, Viewer>, newest: nat, room: set<string>)
    requires forall c :: c in before ==> InOrder(before[c], newest)
    ensures FlushedBut(before, before, before.Keys, newest, room)
    ensures newest == 0 ==> FlushedBut(before, before, {}, newest, room)
    ensures FlushedBut(before, now, {}, newest, room) ==>
              && now.Keys == before.Keys
              && (forall c :: c in now ==> InOrder(now[c], newest) && now[c] == Flushed(before[c], newest, c in room))
              && (forall c :: c in now && c in room && !now[c].video ==> now[c].num == newest)
  {
    forall c | c in before ensures InOrder(Flushed(before[c], newest, c in room), newest) {
      FlushedIs(before[c], newest, c in room);
    }
  }

  /** The frames of a tab; ids of viewers are their clients'. */
  class Screen {
    var newest: nat                    // frames so far
    var viewers: map<string, Viewer>

    ghost predicate Valid()
      reads this
    {
      forall c :: c in viewers ==> InOrder(viewers[c], newest)
    }

    constructor ()
      ensures Valid() && viewers == map[]
    {
      newest, viewers := 0, map[];
    }

    method Attach(c: string, video: bool)
      requires Valid()
      modifies `viewers
      ensures Valid() && viewers == old(viewers)[c := Viewer(video, 0, false, [])]
    {
      viewers := viewers[c := Viewer(video, 0, false, [])];
    }

    method Detach(c: string)
      requires Valid()
      modifies `viewers
      ensures Valid() && viewers == old(viewers) - {c}
    {
      viewers := viewers - {c};
    }

    /** Brings JPEG viewers up to date, those that can take a frame now. */
    method Flush(room: set<string>)
      requires Valid()
      modifies `viewers
      ensures Valid() && viewers.Keys == old(viewers).Keys
      ensures forall c :: c in viewers ==> viewers[c] == Flushed(old(viewers)[c], newest, c in room)
      ensures forall c :: c in viewers && c in room && !viewers[c].video ==> viewers[c].num == newest
    {
      ghost var before := viewers;
      AllFlushed(before, viewers, newest, room);
      hide FlushedBut, InOrder, Flushed;
      if newest > 0 {
        var left := viewers.Keys;
        while left != {}
          invariant left <= viewers.Keys && FlushedBut(before, viewers, left, newest, room)
        {
          var c :| c in left;
          FlushOne(before, viewers, left, newest, room, c);
          var v := viewers[c];
          if !v.video && v.num < newest && c in room {
            viewers := viewers[c := v.(num := newest, lagging := false, got := v.got + [newest])];
          }
          left := left - {c};
        }
      }
      AllFlushed(before, viewers, newest, room);
    }

    /** A new frame goes to all that have room for it. */
    method NewFrame(room: set<string>)
      requires Valid()
      modifies this
      ensures Valid() && newest == old(newest) + 1 && viewers.Keys == old(viewers).Keys
      ensures forall c :: c in viewers ==> viewers[c] == Flushed(old(viewers)[c], newest, c in room)
      ensures forall c :: c in viewers && c in room && !viewers[c].video ==>
                viewers[c].got == old(viewers)[c].got + [newest]
    {
      newest := newest + 1;
      Flush(room);
    }

    /** Viewers that did not drain in time are no longer waited for. */
    method GiveUpOn(busy: set<string>)
      requires Valid()
      modifies `viewers
      ensures Valid() && viewers.Keys == old(viewers).Keys
      ensures forall c :: c in viewers ==>
                viewers[c] == if c in busy && !old(viewers)[c].video then old(viewers)[c].(lagging := true)
                              else old(viewers)[c]
    {
      viewers := map c | c in viewers ::
        if c in busy && !viewers[c].video then viewers[c].(lagging := true) else viewers[c];
    }

    /** Every viewer of video goes over to JPEG frames, from the newest on. */
    method DropVideo()
      requires Valid()
      modifies `viewers
      ensures Valid() && viewers.Keys == old(viewers).Keys
      ensures forall c :: c in viewers ==>
                viewers[c] == if old(viewers)[c].video then old(viewers)[c].(video := false, num := 0)
                              else old(viewers)[c]
    {
      viewers := map c | c in viewers ::
        if viewers[c].video then viewers[c].(video := false, num := 0) else viewers[c];
    }
  }
}
