/**
  The assistant over every run: any order of joining, claiming, releasing,
  reporting, appending, clearing and leaving, with sockets that shut at any
  moment.
 */
module AssistantRuns {
  import opened Wrappers
  import opened Framing
  import opened AssistantModel

  /** Any tab may send anything at any time; only ids are restricted: a joining tab has one of its own. */
  predicate Allowed(r: Room, m: Move) {
    m.Join? ==> m.who !in r.open && r.recorded != Some(m.who) && r.author != m.who
  }

  ghost predicate IsRun(run: seq<Assist>, moves: seq<Move>) {
    && |run| == |moves| + 1 && run[0] == Empty
    && (forall i :: 0 <= i < |moves| ==> Allowed(run[i].room, moves[i]) && run[i + 1] == Moved(run[i], moves[i]))
  }

  // --- the log over time -----------------------------------------------------------------

  /** Numbers go up along the log, from above what was cleared to the last given out. */
  ghost predicate Ordered(l: Log) {
    && l.cleared <= l.last
    && (forall i :: 0 <= i < |l.rows| ==> l.cleared < l.rows[i].num <= l.last)
    && (forall i, j :: 0 <= i < j < |l.rows| ==> l.rows[i].num < l.rows[j].num)
  }

  lemma {:induction false} MaxNumBounds(rows: seq<Row>)
    ensures forall i :: 0 <= i < |rows| ==> rows[i].num <= MaxNum(rows)
    ensures rows != [] ==> exists i :: 0 <= i < |rows| && rows[i].num == MaxNum(rows)
    decreases |rows|
  {
    if rows != [] {
      var n := |rows| - 1;
      MaxNumBounds(rows[..n]);
      assert forall i :: 0 <= i < n ==> rows[..n][i] == rows[i];
      if rows[n].num <= MaxNum(rows[..n]) && n > 0 {
        var i :| 0 <= i < n && rows[..n][i].num == MaxNum(rows[..n]);
        assert rows[i].num == MaxNum(rows);
      } else {
        assert rows[n].num == MaxNum(rows);
      }
    }
  }

  lemma {:induction false} InsertAllAdds(l: Log, items: seq<Item>)
    requires forall i :: 0 <= i < |items| ==> Good(items[i])
    ensures var t := InsertAll(l, items);
            t.last == l.last + |items| && t.cleared == l.cleared && l.rows <= t.rows && (Ordered(l) ==> Ordered(t))
    decreases |items|
  {
    if items != [] {
      InsertAllAdds(l, items[..|items| - 1]);
    }
  }

  lemma AppendAdds(l: Log, items: seq<Item>)
    ensures var t := Append(l, items);
            l.last <= t.last && t.cleared == l.cleared && l.rows <= t.rows && (Ordered(l) ==> Ordered(t))
  {
    if items != [] && |items| <= MAX_APPEND {
      InsertAllAdds(l, items[..GoodPrefix(items)]);
    }
  }

  lemma ClearOrdered(l: Log)
    requires Ordered(l)
    ensures Ordered(Clear(l)) && l.last <= Clear(l).last && l.cleared <= Clear(l).cleared
  {
    MaxNumBounds(l.rows);
    if l.rows != [] {
      var i :| 0 <= i < |l.rows| && l.rows[i].num == MaxNum(l.rows);
    }
  }

  /** Something is kept as live only for a recorded runner, and for no other tab that is still there. */
  predicate Kept(r: Room) {
    r.live.Some? ==> r.recorded.Some? && (r.author in r.open ==> r.recorded == Some(r.author))
  }

  ghost predicate Safe(s: Assist) { Ordered(s.log) && Kept(s.room) }

  /** Numbers are never reused, nor does what is cleared come back: both marks only go up. */
  lemma MovedSafe(s: Assist, m: Move)
    requires Safe(s) && Allowed(s.room, m)
    ensures Safe(Moved(s, m)) && s.log.last <= Moved(s, m).log.last && s.log.cleared <= Moved(s, m).log.cleared
  {
    hide Ordered, Append, Clear;
    match m
    case Appends(items) => AppendAdds(s.log, items);
    case Clears => ClearOrdered(s.log);
    case _ =>
  }

  lemma {:induction false} EveryRunIsSafe(run: seq<Assist>, moves: seq<Move>, i: nat, j: nat)
    requires IsRun(run, moves) && i <= j < |run|
    ensures Safe(run[i]) && Safe(run[j])
    ensures run[i].log.last <= run[j].log.last && run[i].log.cleared <= run[j].log.cleared
    decreases j
  {
    assert Ordered(EmptyLog);
    hide Ordered, Moved;
    if i < j {
      EveryRunIsSafe(run, moves, i, j - 1);
      MovedSafe(run[j - 1], moves[j - 1]);
    } else if j > 0 {
      EveryRunIsSafe(run, moves, j - 1, j - 1);
      MovedSafe(run[j - 1], moves[j - 1]);
    }
  }

  // --- a tab that was away ---------------------------------------------------------------

  lemma {:induction false} AfterNone(rows: seq<Row>, k: int)
    requires forall i :: 0 <= i < |rows| ==> rows[i].num <= k
    ensures After(rows, k) == []
    decreases |rows|
  {
    if rows != [] {
      AfterNone(rows[..|rows| - 1], k);
    }
  }

  lemma {:induction false} AfterIn(rows: seq<Row>, k: int, i: nat)
    requires i < |rows| && rows[i].num > k
    ensures rows[i] in After(rows, k)
    decreases |rows|
  {
    if i < |rows| - 1 {
      AfterIn(rows[..|rows| - 1], k, i);
    }
  }

  lemma AfterSnoc(rows: seq<Row>, r: Row, k: int)
    ensures After(rows + [r], k) == After(rows, k) + (if r.num > k then [r] else [])
  {
    assert (rows + [r])[..|rows|] == rows;
  }

  lemma {:induction false} AfterConcat(a: seq<Row>, b: seq<Row>, k: int)
    ensures After(a + b, k) == After(a, k) + After(b, k)
    decreases |b|
  {
    if b == [] {
      assert a + b == a;
    } else {
      var n := |b| - 1;
      AfterConcat(a, b[..n], k);
      assert (a + b)[..|a| + n] == a + b[..n] && (a + b)[|a| + n] == b[n];
      hide After;
    }
  }

  /** What a tab makes of the log it held, told what is cleared and given what came after number k. */
  function Caught(held: seq<Row>, cleared: nat, since: seq<Row>): seq<Row> {
    After(held, cleared) + since
  }

  /**
    However many appends (whole, refused or cut short) and clears came between,
    a tab that had the whole log, drops what was cleared and adds what it gets
    when it attaches after the last number it had, has the whole log again.
   */
  lemma {:induction false} ReplicasCatchUp(run: seq<Assist>, moves: seq<Move>, i: nat, j: nat, k: nat)
    requires IsRun(run, moves) && i <= j < |run|
    requires MaxNum(run[i].log.rows) <= k <= run[i].log.last
    ensures run[j].log.rows == Caught(run[i].log.rows, run[j].log.cleared, Attached(run[j].log, Some(k)))
    decreases j
  {
    hide Moved, Caught, Ordered, After, MaxNum;
    EveryRunIsSafe(run, moves, i, j);
    if i == j {
      ReplicaStart(run[i].log, k);
    } else {
      ReplicasCatchUp(run, moves, i, j - 1, k);
      EveryRunIsSafe(run, moves, i, j - 1);
      ReplicaStep(run[i].log.rows, run[j - 1], moves[j - 1], k);
    }
  }

  lemma {:induction false} AfterAll(rows: seq<Row>, k: int)
    requires forall i :: 0 <= i < |rows| ==> rows[i].num > k
    ensures After(rows, k) == rows
    decreases |rows|
  {
    if rows != [] {
      AfterAll(rows[..|rows| - 1], k);
    }
  }

  lemma ReplicaStart(l: Log, k: nat)
    requires Ordered(l) && MaxNum(l.rows) <= k
    ensures l.rows == Caught(l.rows, l.cleared, After(l.rows, k))
  {
    MaxNumBounds(l.rows);
    AfterNone(l.rows, k);
    AfterAll(l.rows, l.cleared);
  }

  lemma ReplicaStep(held: seq<Row>, s: Assist, m: Move, k: nat)
    requires Ordered(s.log) && k <= s.log.last && s.log.rows == Caught(held, s.log.cleared, After(s.log.rows, k))
    ensures var t := Moved(s, m).log; t.rows == Caught(held, t.cleared, After(t.rows, k))
  {
    hide Caught, After;
    match m
    case Appends(items) =>
      if items != [] && |items| <= MAX_APPEND {
        ReplicaAdds(held, s.log, items[..GoodPrefix(items)], k);
      }
    case Clears => ReplicaClears(held, s.log, k);
    case _ =>
  }

  lemma ReplicaAdds(held: seq<Row>, l: Log, items: seq<Item>, k: nat)
    requires Ordered(l) && k <= l.last && l.rows == Caught(held, l.cleared, After(l.rows, k))
    requires forall i :: 0 <= i < |items| ==> Good(items[i])
    ensures var t := InsertAll(l, items); t.rows == Caught(held, t.cleared, After(t.rows, k))
  {
    InsertAllAdds(l, items);
    var added := AddedAreNew(l, items, k);
    AfterConcat(l.rows, added, k);
    Regroup(After(held, l.cleared), After(l.rows, k), added);
    hide After, InsertAll, Ordered, Good;
  }

  lemma Regroup(a: seq<Row>, b: seq<Row>, c: seq<Row>)
    ensures (a + b) + c == a + (b + c)
  {
  }

  lemma {:induction false} AddedAreNew(l: Log, items: seq<Item>, k: nat) returns (added: seq<Row>)
    requires Ordered(l) && k <= l.last && forall i :: 0 <= i < |items| ==> Good(items[i])
    ensures InsertAll(l, items).rows == l.rows + added && l.last <= InsertAll(l, items).last
    ensures After(added, k) == added
    decreases |items|
  {
    if items == [] {
      added := [];
    } else {
      hide After;
      var n := |items| - 1;
      var before := AddedAreNew(l, items[..n], k);
      var r := Row(InsertAll(l, items[..n]).last + 1, items[n].kind, items[n].bytes);
      added := before + [r];
      AfterSnoc(before, r, k);
      Regroup(l.rows, before, [r]);
    }
  }

  lemma ReplicaClears(held: seq<Row>, l: Log, k: nat)
    requires Ordered(l) && l.rows == Caught(held, l.cleared, After(l.rows, k))
    ensures var t := Clear(l); t.rows == Caught(held, t.cleared, After(t.rows, k))
  {
    ClearOrdered(l);
    MaxNumBounds(l.rows);
    assert After([], k) == [];
    hide After, MaxNum;
    var t := Clear(l);
    forall i | 0 <= i < |held| ensures held[i].num <= t.cleared {
      if held[i].num > l.cleared {
        AfterIn(held, l.cleared, i);
        assert held[i] in l.rows;
      }
    }
    AfterNone(held, t.cleared);
  }

  // --- attaching without a log -------------------------------------------------------------

  lemma {:induction false} AfterHas(rows: seq<Row>, k: int, r: Row)
    ensures r in After(rows, k) <==> r in rows && r.num > k
    decreases |rows|
  {
    if rows != [] {
      var n := |rows| - 1;
      AfterHas(rows[..n], k, r);
      assert rows == rows[..n] + [rows[n]];
    }
  }

  lemma {:induction false} OthersHas(rows: seq<Row>, num: nat, r: Row)
    ensures r in Others(rows, num) <==> r in rows && r.num != num
    decreases |rows|
  {
    if rows != [] {
      var n := |rows| - 1;
      OthersHas(rows[..n], num, r);
      assert rows == rows[..n] + [rows[n]];
    }
  }

  /**
    A fresh tab gets the newest compaction first, and besides it exactly the
    entries it does not cover. Without one, what it is not sent is older than
    all it is, and it is sent the most a first attach may hold.
   */
  lemma FreshTabsMissNothing(l: Log, r: Row)
    requires Ordered(l)
    ensures NewestCompaction(l.rows).Some? ==>
              var c := l.rows[NewestCompaction(l.rows).value];
              && Attached(l, None)[0] == c
              && (r in Attached(l, None) <==> r in l.rows && (r == c || r.num > c.kind.throughSeq))
    ensures NewestCompaction(l.rows).None? ==>
              var sent := Attached(l, None);
              && (r in sent ==> r in l.rows)
              && (r in l.rows && r !in sent ==>
                    |sent| == FIRST_ATTACH && forall i :: 0 <= i < |sent| ==> r.num < sent[i].num)
  {
    if NewestCompaction(l.rows).Some? {
      FromTheCompaction(l, r);
    } else if r in l.rows {
      var j :| 0 <= j < |l.rows| && l.rows[j] == r;
      var sent := Attached(l, None);
      if j >= |l.rows| - |sent| {
        assert sent[j - (|l.rows| - |sent|)] == r;
      }
    }
  }

  lemma FromTheCompaction(l: Log, r: Row)
    requires Ordered(l) && NewestCompaction(l.rows).Some?
    ensures var c := l.rows[NewestCompaction(l.rows).value];
            && Attached(l, None)[0] == c
            && (r in Attached(l, None) <==> r in l.rows && (r == c || r.num > c.kind.throughSeq))
  {
    var i := NewestCompaction(l.rows).value;
    var c := l.rows[i];
    AfterHas(l.rows, c.kind.throughSeq, r);
    OthersHas(After(l.rows, c.kind.throughSeq), c.num, r);
    if r in l.rows && r.num == c.num {
      var j :| 0 <= j < |l.rows| && l.rows[j] == r;
      assert j == i;
    }
  }

  /** Rows by ascending number, so none twice. */
  ghost predicate Ascending(rows: seq<Row>) {
    forall i, j :: 0 <= i < j < |rows| ==> rows[i].num < rows[j].num
  }

  lemma {:induction false} AfterAscends(rows: seq<Row>, k: int)
    requires Ascending(rows)
    ensures Ascending(After(rows, k))
    decreases |rows|
  {
    if rows != [] {
      var n := |rows| - 1;
      AfterAscends(rows[..n], k);
      forall r | r in After(rows[..n], k) ensures r.num < rows[n].num {
        AfterHas(rows[..n], k, r);
      }
    }
  }

  lemma {:induction false} OthersAscend(rows: seq<Row>, num: nat)
    requires Ascending(rows)
    ensures Ascending(Others(rows, num))
    decreases |rows|
  {
    if rows != [] {
      var n := |rows| - 1;
      OthersAscend(rows[..n], num);
      forall r | r in Others(rows[..n], num) ensures r.num < rows[n].num {
        OthersHas(rows[..n], num, r);
      }
    }
  }

  /**
    What a tab is sent comes in the log's order and each row once, except that
    a compaction goes first. A tab that names the last number it has is sent
    exactly what came after it.
   */
  lemma SentInOrder(l: Log, after: Option<int>, r: Row)
    requires Ordered(l)
    ensures var sent := Attached(l, after);
            if after.None? && NewestCompaction(l.rows).Some? then Ascending(sent[1..]) && sent[0] !in sent[1..]
            else Ascending(sent)
    ensures after.Some? ==> (r in Attached(l, after) <==> r in l.rows && r.num > after.value)
  {
    if after.Some? {
      AfterAscends(l.rows, after.value);
      AfterHas(l.rows, after.value, r);
    } else if NewestCompaction(l.rows).Some? {
      var c := l.rows[NewestCompaction(l.rows).value];
      var newer := After(l.rows, c.kind.throughSeq);
      AfterAscends(l.rows, c.kind.throughSeq);
      OthersAscend(newer, c.num);
      OthersHas(newer, c.num, c);
      assert Attached(l, after)[1..] == Others(newer, c.num);
    }
  }

  // --- who runs turns ------------------------------------------------------------------------

  /** What ends a tab's claim: it releases, its close is handled, or its socket shuts. */
  predicate Leaves(m: Move, who: string) { m == Releases(who) || m == IsGone(who) || m == Shuts(who) }

  /** Nobody else's move ends a runner's claim, and none clears the log under it. */
  lemma OnlyTheRunnerLeaves(s: Assist, m: Move, who: string)
    requires Runner(s.room) == Some(who) && !Leaves(m, who)
    ensures Runner(Moved(s, m).room) == Some(who)
    ensures m.Clears? ==> Moved(s, m) == s
    ensures Moved(s, m).room.live == s.room.live || (m.Reports? && m.who == who)
  {
  }

  /** Whoever ran a turn and no longer does, left: some move between is its own leaving, made while it ran. */
  lemma {:induction false} ClaimsEndByLeaving(run: seq<Assist>, moves: seq<Move>, i: nat, j: nat, who: string)
    requires IsRun(run, moves) && i <= j < |run|
    requires Runner(run[i].room) == Some(who) && Runner(run[j].room) != Some(who)
    ensures exists k :: i <= k < j && Leaves(moves[k], who) && Runner(run[k].room) == Some(who)
    decreases j
  {
    hide Moved, Runner;
    if Runner(run[j - 1].room) == Some(who) {
      if !Leaves(moves[j - 1], who) {
        OnlyTheRunnerLeaves(run[j - 1], moves[j - 1], who);
      }
    } else {
      ClaimsEndByLeaving(run, moves, i, j - 1, who);
    }
  }

  ghost predicate RunsAllAlong(run: seq<Assist>, i: nat, j: nat, who: string)
    requires i <= j < |run|
  {
    forall k :: i <= k <= j ==> Runner(run[k].room) == Some(who)
  }

  /** While one tab runs turns nothing is cleared, whoever asks for it: the log only gets entries at its end. */
  lemma {:induction false} ARunnerKeepsItsLog(run: seq<Assist>, moves: seq<Move>, i: nat, j: nat, who: string)
    requires IsRun(run, moves) && i <= j < |run| && RunsAllAlong(run, i, j, who)
    ensures run[j].log.cleared == run[i].log.cleared && run[i].log.rows <= run[j].log.rows
    decreases j
  {
    hide Append, Clear;
    if i < j {
      ARunnerKeepsItsLog(run, moves, i, j - 1, who);
      if moves[j - 1].Appends? {
        AppendAdds(run[j - 1].log, moves[j - 1].items);
      }
    }
  }

  // --- what is shown of the turn ---------------------------------------------------------------

  /** What a joining tab is shown is the runner's own report. */
  predicate ShowsItsOwn(r: Room) { Shown(r).Some? ==> Runner(r) == Some(r.author) }

  /** A connected tab takes over only when nothing is stored as live. */
  predicate StartsClean(r: Room, m: Move) {
    m.Claims? && m.who in r.open && Runner(r).None? ==> r.live.None?
  }

  lemma MovedShowsItsOwn(s: Assist, m: Move)
    requires Safe(s) && ShowsItsOwn(s.room) && Allowed(s.room, m)
    ensures ShowsItsOwn(Moved(s, m).room) <==> StartsClean(s.room, m)
  {
    hide Ordered;
  }

  /** In every run, what is shown is always the runner's own report exactly when every takeover starts clean. */
  lemma ShownIsTheRunnersOwn(run: seq<Assist>, moves: seq<Move>)
    requires IsRun(run, moves)
    ensures (forall k :: 0 <= k < |run| ==> ShowsItsOwn(run[k].room))
       <==> (forall k :: 0 <= k < |moves| ==> StartsClean(run[k].room, moves[k]))
  {
    hide ShowsItsOwn, StartsClean, Moved, Safe;
    if forall k :: 0 <= k < |moves| ==> StartsClean(run[k].room, moves[k]) {
      forall k | 0 <= k < |run| ensures ShowsItsOwn(run[k].room) {
        CleanSoFar(run, moves, k);
      }
    } else if forall k :: 0 <= k < |run| ==> ShowsItsOwn(run[k].room) {
      var k :| 0 <= k < |moves| && !StartsClean(run[k].room, moves[k]);
      EveryRunIsSafe(run, moves, k, k);
      MovedShowsItsOwn(run[k], moves[k]);
      assert !ShowsItsOwn(run[k + 1].room);
    }
  }

  lemma {:induction false} CleanSoFar(run: seq<Assist>, moves: seq<Move>, j: nat)
    requires IsRun(run, moves) && j < |run|
    requires forall k :: 0 <= k < j ==> StartsClean(run[k].room, moves[k])
    ensures ShowsItsOwn(run[j].room)
  {
    if j > 0 {
      hide ShowsItsOwn, StartsClean, Moved, Safe;
      CleanSoFar(run, moves, j - 1);
      EveryRunIsSafe(run, moves, j - 1, j - 1);
      MovedShowsItsOwn(run[j - 1], moves[j - 1]);
    }
  }

  /** A runner with a report stored is seen leaving before its socket shuts. */
  predicate SeenLeaving(r: Room, m: Move) { m.Shuts? && Runner(r) == Some(m.who) ==> r.live.None? }

  /** Takeovers start clean, so long as no runner's socket shuts with its report stored and its leaving not handled. */
  lemma {:induction false} SeenLeavingIsEnough(run: seq<Assist>, moves: seq<Move>, j: nat)
    requires IsRun(run, moves) && j < |run|
    requires forall k :: 0 <= k < j ==> SeenLeaving(run[k].room, moves[k])
    ensures run[j].room.live.Some? ==> Runner(run[j].room).Some?
    ensures j < |moves| ==> StartsClean(run[j].room, moves[j])
  {
    if j > 0 {
      SeenLeavingIsEnough(run, moves, j - 1);
      hide Append, Clear;
    }
  }

  /**
    A run where it is not: a tab's socket shuts before its close is handled,
    so the report it leaves behind is shown as that of the tab that runs next.
   */
  lemma StaleLive() returns (run: seq<Assist>, moves: seq<Move>)
    ensures IsRun(run, moves)
    ensures var r := run[|moves|].room; Runner(r) == Some("b") && Shown(r) == Some("thinking") && r.author == "a"
  {
    moves := [Join("a"), Claims("a"), Reports("a", Some("thinking")), Shuts("a"), IsGone("a"), Join("b"), Claims("b")];
    var r1 := Moved(Empty, moves[0]);
    var r2 := Moved(r1, moves[1]);
    var r3 := Moved(r2, moves[2]);
    var r4 := Moved(r3, moves[3]);
    var r5 := Moved(r4, moves[4]);
    var r6 := Moved(r5, moves[5]);
    run := [Empty, r1, r2, r3, r4, r5, r6, Moved(r6, moves[6])];
  }

  // --- what the moves come to ------------------------------------------------------------------

  lemma {:induction false} LastIsMax(rows: seq<Row>)
    requires rows != [] && forall i, j :: 0 <= i < j < |rows| ==> rows[i].num < rows[j].num
    ensures MaxNum(rows) == rows[|rows| - 1].num
    decreases |rows|
  {
    if |rows| > 1 {
      LastIsMax(rows[..|rows| - 1]);
    }
  }

  /**
    When nobody runs a turn a clear deletes everything for good: the log is
    empty and nothing is live, the mark is at the last entry there was, and none
    of them is stored or sent to any tab ever again.
   */
  lemma AClearIsForGood(run: seq<Assist>, moves: seq<Move>, i: nat, j: nat)
    requires IsRun(run, moves) && i < j < |run| && moves[i].Clears? && Runner(run[i].room).None?
    ensures run[i + 1].log.rows == [] && run[i + 1].room.live.None?
    ensures var rows := run[i].log.rows;
            run[i + 1].log.cleared == if rows == [] then run[i].log.cleared else rows[|rows| - 1].num
    ensures forall r :: r in run[i].log.rows ==> r !in run[j].log.rows
    ensures forall r, after :: r in run[i].log.rows ==> r !in Attached(run[j].log, after)
  {
    EveryRunIsSafe(run, moves, i, i + 1);
    EveryRunIsSafe(run, moves, i + 1, j);
    var rows := run[i].log.rows;
    if rows != [] {
      LastIsMax(rows);
    }
    forall r | r in rows ensures r !in run[j].log.rows {
      assert r.num <= run[i + 1].log.cleared;
    }
    forall r, after | r in rows ensures r !in Attached(run[j].log, after) {
      SentIsStored(run[j].log, after, r);
    }
  }

  /** A tab is only sent what is stored. */
  lemma SentIsStored(l: Log, after: Option<int>, r: Row)
    ensures r in Attached(l, after) ==> r in l.rows
  {
    if after.Some? {
      AfterHas(l.rows, after.value, r);
    } else if NewestCompaction(l.rows).Some? {
      var c := l.rows[NewestCompaction(l.rows).value];
      AfterHas(l.rows, c.kind.throughSeq, r);
      OthersHas(After(l.rows, c.kind.throughSeq), c.num, r);
    }
  }

  lemma {:induction false} InsertAllStores(l: Log, items: seq<Item>, k: nat)
    requires (forall i :: 0 <= i < |items| ==> Good(items[i])) && k < |items|
    ensures var t := InsertAll(l, items);
            && |t.rows| == |l.rows| + |items|
            && t.rows[|l.rows| + k] == Row(l.last + 1 + k, items[k].kind, items[k].bytes)
    decreases |items|
  {
    var before := items[..|items| - 1];
    InsertAllAdds(l, before);
    if k < |before| {
      InsertAllStores(l, before, k);
    }
    if before != [] {
      InsertAllStores(l, before, 0);
    }
  }

  /**
    An append of one to fifty entries stores those before the first that is
    malformed or too long, each as it is, with the next number; any other stores
    nothing.
   */
  lemma AppendsStore(s: Assist, items: seq<Item>, n: nat)
    requires n <= |items|
    requires forall i :: 0 <= i < n ==> items[i].Item? && items[i].stored <= MAX_ENTRY_BYTES
    requires n < |items| ==> items[n].Malformed? || items[n].stored > MAX_ENTRY_BYTES
    ensures var t := Moved(s, Appends(items));
            && t.room == s.room && t.log.cleared == s.log.cleared && s.log.rows <= t.log.rows
            && |t.log.rows| == |s.log.rows| + (if 1 <= |items| <= 50 then n else 0)
            && t.log.last == s.log.last + (if 1 <= |items| <= 50 then n else 0)
            && (1 <= |items| <= 50 ==> forall k :: 0 <= k < n ==>
                 t.log.rows[|s.log.rows| + k] == Row(s.log.last + 1 + k, items[k].kind, items[k].bytes))
  {
    GoodPrefixIs(items, n);
    if 1 <= |items| <= 50 {
      InsertAllAdds(s.log, items[..n]);
      if n > 0 {
        InsertAllStores(s.log, items[..n], 0);
      }
      forall k | 0 <= k < n
        ensures Moved(s, Appends(items)).log.rows[|s.log.rows| + k]
            == Row(s.log.last + 1 + k, items[k].kind, items[k].bytes)
      {
        InsertAllStores(s.log, items[..n], k);
      }
    }
  }

  lemma {:induction false} GoodPrefixIs(items: seq<Item>, n: nat)
    requires n <= |items| && (forall i :: 0 <= i < n ==> Good(items[i])) && (n < |items| ==> !Good(items[n]))
    ensures GoodPrefix(items) == n
  {
    if n > 0 {
      GoodPrefixIs(items[1..], n - 1);
    }
  }

  /** A connected tab runs turns from its claim on, unless another does; and nobody else's leaving ends that. */
  lemma ClaimsAreGranted(s: Assist, who: string)
    requires who in s.room.open
    ensures var t := Moved(s, Claims(who));
            && t.log == s.log && t.room.open == s.room.open
            && (Runner(s.room).None? || Runner(s.room) == Some(who) ==> Runner(t.room) == Some(who))
            && (Runner(s.room).Some? && Runner(s.room) != Some(who) ==> t == s)
  {
  }

  /** A runner that releases, or whose close is handled while its socket is open, runs no more and shows nothing. */
  lemma LeavingEndsTheClaim(s: Assist, who: string, m: Move)
    requires m == Releases(who) || m == IsGone(who)
    ensures Runner(s.room) == Some(who) ==>
              Moved(s, m).room.recorded.None? && Runner(Moved(s, m).room).None? && Moved(s, m).room.live.None?
    ensures Runner(s.room) != Some(who) ==> Moved(s, m) == s
    ensures Moved(s, m).log == s.log && Moved(s, m).room.open == s.room.open
  {
  }

  /** What the runner reports is shown to whoever joins, until it reports again; nobody else's report is. */
  lemma ReportsAreShown(s: Assist, who: string, live: Option<string>)
    ensures var t := Moved(s, Reports(who, live));
            if Runner(s.room) == Some(who) then Shown(t.room) == live && Runner(t.room) == Some(who) && t.log == s.log
            else t == s
  {
  }

  /** Joining and shutting only change who is connected. */
  lemma TabsComeAndGo(s: Assist, who: string, tab: string)
    ensures tab in Moved(s, Join(who)).room.open <==> tab in s.room.open || tab == who
    ensures tab in Moved(s, Shuts(who)).room.open <==> tab in s.room.open && tab != who
    ensures Moved(s, Join(who)).log == s.log == Moved(s, Shuts(who)).log
    ensures Moved(s, Join(who)).room.recorded == s.room.recorded == Moved(s, Shuts(who)).room.recorded
    ensures Moved(s, Join(who)).room.live == s.room.live == Moved(s, Shuts(who)).room.live
  {
  }
}
