/**
  The assistant's log and its turn-taking, as functions: what an append, a
  clear, a claim and a lost tab do. AssistantRuns.dfy proves what that means for
  a tab that was away and for who may run a turn.
 */
module AssistantModel {
  import opened Wrappers
  import opened Framing

  const MAX_ENTRY_BYTES := 256 * 1024
  const MAX_APPEND := 50
  const FIRST_ATTACH := 400

  /**
    An entry a tab appends: not one at all, or its kind, its length as stored, and
    its length with what the log adds.
   */
  datatype Item = Malformed | Item(kind: Kind, stored: nat, bytes: nat)

  /** The log: its rows in order, the last number given out, and the last number cleared. */
  datatype Log = Log(rows: seq<Row>, last: nat, cleared: nat)

  const EmptyLog: Log := Log([], 0, 0)

  predicate Good(i: Item) { i.Item? && i.stored <= MAX_ENTRY_BYTES }

  /** How many of the items go in before the first that cannot. */
  function GoodPrefix(items: seq<Item>): (n: nat)
    ensures n <= |items|
    ensures forall i :: 0 <= i < n ==> Good(items[i])
    ensures n < |items| ==> !Good(items[n])
  {
    if items == [] || !Good(items[0]) then 0 else 1 + GoodPrefix(items[1..])
  }

  function Insert(l: Log, i: Item): Log
    requires Good(i)
  {
    Log(l.rows + [Row(l.last + 1, i.kind, i.bytes)], l.last + 1, l.cleared)
  }

  function InsertAll(l: Log, items: seq<Item>): Log
    requires forall i :: 0 <= i < |items| ==> Good(items[i])
  {
    if items == [] then l else Insert(InsertAll(l, items[..|items| - 1]), items[|items| - 1])
  }

  /** An append of too few or too many is refused; one with a bad item stores those before it. */
  function Append(l: Log, items: seq<Item>): Log {
    if items == [] || |items| > MAX_APPEND then l else InsertAll(l, items[..GoodPrefix(items)])
  }

  /** The highest number stored. */
  function MaxNum(rows: seq<Row>): nat {
    if rows == [] then 0
    else var m := MaxNum(rows[..|rows| - 1]);
         if rows[|rows| - 1].num > m then rows[|rows| - 1].num else m
  }

  /** Everything stored is cleared; with nothing stored, nothing new is. */
  function Clear(l: Log): Log {
    Log([], l.last, if l.rows == [] then l.cleared else MaxNum(l.rows))
  }

  /** The rows numbered above k. */
  function After(rows: seq<Row>, k: int): seq<Row> {
    if rows == [] then []
    else After(rows[..|rows| - 1], k) + (if rows[|rows| - 1].num > k then [rows[|rows| - 1]] else [])
  }

  /** The position of the newest compaction. */
  function NewestCompaction(rows: seq<Row>): (r: Option<nat>)
    ensures r.Some? ==> r.value < |rows| && rows[r.value].kind.Compaction?
    ensures r.Some? ==> forall i :: r.value < i < |rows| ==> !rows[i].kind.Compaction?
    ensures r.None? ==> forall i :: 0 <= i < |rows| ==> !rows[i].kind.Compaction?
  {
    if rows == [] then None
    else if rows[|rows| - 1].kind.Compaction? then Some(|rows| - 1)
    else NewestCompaction(rows[..|rows| - 1])
  }

  function Others(rows: seq<Row>, num: nat): seq<Row> {
    if rows == [] then []
    else Others(rows[..|rows| - 1], num) + (if rows[|rows| - 1].num != num then [rows[|rows| - 1]] else [])
  }

  /** What a tab gets: what is new to it, or the newest compaction and all it does not cover, or the newest entries. */
  function Attached(l: Log, after: Option<int>): seq<Row> {
    if after.Some? then After(l.rows, after.value)
    else match NewestCompaction(l.rows)
         case Some(c) => [l.rows[c]] + Others(After(l.rows, l.rows[c].kind.throughSeq), l.rows[c].num)
         case None => if |l.rows| <= FIRST_ATTACH then l.rows else l.rows[|l.rows| - FIRST_ATTACH..]
  }

  // --- who runs turns -----------------------------------------------------------------------

  /** The tab recorded as the runner, what it last reported, who reported that, and the tabs whose sockets are open. */
  datatype Room = Room(recorded: Option<string>, live: Option<string>, author: string, open: set<string>)

  const EmptyRoom: Room := Room(None, None, "", {})

  /** A recorded tab runs turns only as long as its socket stays open. */
  function Runner(r: Room): Option<string> {
    if r.recorded.Some? && r.recorded.value in r.open then r.recorded else None
  }

  /** What a joining tab is shown of the turn. */
  function Shown(r: Room): Option<string> { if Runner(r).Some? then r.live else None }

  function SetRunner(r: Room, who: Option<string>): Room {
    r.(recorded := who, live := if who.None? then None else r.live)
  }

  function Claim(r: Room, me: string): Room {
    if Runner(r).Some? && Runner(r).value != me then r else SetRunner(r, Some(me))
  }

  function Release(r: Room, me: string): Room {
    if Runner(r) == Some(me) then SetRunner(r, None) else r
  }

  function Report(r: Room, me: string, live: Option<string>): Room {
    if Runner(r) == Some(me) then r.(live := live, author := me) else r
  }

  // --- the whole object ----------------------------------------------------------------------

  datatype Assist = Assist(log: Log, room: Room)

  const Empty: Assist := Assist(EmptyLog, EmptyRoom)

  /** A tab's socket stops being open (Shuts); its close is handled (IsGone) before that or after. */
  datatype Move =
    | Join(who: string) | Claims(who: string) | Releases(who: string) | Reports(who: string, live: Option<string>)
    | Appends(items: seq<Item>) | Clears | Shuts(who: string) | IsGone(who: string)

  /** The log is cleared unless someone runs a turn; then the attempt does nothing. */
  function TryClear(s: Assist): Assist {
    if Runner(s.room).Some? then s else Assist(Clear(s.log), s.room.(live := None))
  }

  function Moved(s: Assist, m: Move): Assist {
    match m
    case Join(who) => s.(room := s.room.(open := s.room.open + {who}))
    case Claims(who) => s.(room := Claim(s.room, who))
    case Releases(who) => s.(room := Release(s.room, who))
    case Reports(who, live) => s.(room := Report(s.room, who, live))
    case Appends(items) => s.(log := Append(s.log, items))
    case Clears => TryClear(s)
    case Shuts(who) => s.(room := s.room.(open := s.room.open - {who}))
    case IsGone(who) => s.(room := Release(s.room, who))
  }
}
