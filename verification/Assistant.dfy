/**
  The assistant's durable object as the source writes it: one object per
  account that keeps the log and the runner and answers its tabs' messages.
  Each handler makes one move of AssistantModel.dfy, so any order of handlers is
  a run of AssistantRuns.dfy.
 */
module AssistantObject {
  import opened Wrappers
  import opened Framing
  import opened AssistantModel
  import opened AssistantRuns

  datatype Appending = BadAppend | BadEntry | TooBig | Appended(nums: seq<nat>)

  class Assistant {
    var rows: seq<Row>
    var last: nat
    var cleared: nat
    var recorded: Option<string>
    var live: Option<string>
    var open: set<string>
    ghost var author: string

    ghost function View(): Assist
      reads this
    {
      Assist(Log(rows, last, cleared), Room(recorded, live, author, open))
    }

    constructor ()
      ensures View() == Empty && Safe(View())
    {
      rows, last, cleared := [], 0, 0;
      recorded, live, open, author := None, None, {}, "";
    }

    /** A recorded tab runs turns only as long as its socket stays open. */
    method FindRunner() returns (r: Option<string>)
      ensures r == Runner(View().room)
    {
      r := None;
      if recorded.Some? && recorded.value in open {
        r := recorded;
      }
    }

    /** A tab joins, and is told who runs, what is live, and what was cleared. */
    method Fetch(id: string) returns (runner: Option<string>, shown: Option<string>, clearedThrough: nat)
      requires Safe(View()) && Allowed(View().room, Join(id))
      modifies `open
      ensures View() == Moved(old(View()), Join(id)) && Safe(View())
      ensures runner == Runner(View().room) && shown == Shown(View().room) && clearedThrough == View().log.cleared
    {
      MovedSafe(View(), Join(id));
      open := open + {id};
      runner := FindRunner();
      shown := if runner.Some? then live else None;
      clearedThrough := cleared;
    }

    /** Sends a tab what it asks for, in as few frames as it fits in order. */
    method Attach(after: Option<int>) returns (frames: seq<seq<Row>>)
      ensures Cuts(frames, Attached(View().log, after))
      ensures forall others :: Cuts(others, Attached(View().log, after)) ==> |frames| <= |others|
    {
      var selected := Attached(Log(rows, last, cleared), after);
      frames := Frames(selected);
    }

    /** Stores entries up to the first bad one; only a whole append is confirmed and broadcast. */
    method Append(items: seq<Item>) returns (r: Appending, broadcast: seq<Row>)
      requires Safe(View())
      modifies `rows, `last
      ensures View() == Moved(old(View()), Appends(items)) && Safe(View())
      ensures r.Appended? <==> 0 < |items| <= MAX_APPEND && GoodPrefix(items) == |items|
      ensures r.Appended? ==> rows == old(rows) + broadcast && |r.nums| == |broadcast|
                              && forall i :: 0 <= i < |broadcast| ==> r.nums[i] == broadcast[i].num
      ensures !r.Appended? ==> broadcast == []
    {
      MovedSafe(View(), Appends(items));
      hide Safe;
      broadcast := [];
      if |items| == 0 || |items| > MAX_APPEND {
        return BadAppend, [];
      }
      var added: seq<Row>, nums: seq<nat> := [], [];
      for i := 0 to |items|
        invariant forall k :: 0 <= k < i ==> Good(items[k])
        invariant View() == old(View()).(log := InsertAll(old(View().log), items[..i]))
        invariant rows == old(rows) + added && |nums| == |added|
        invariant forall k :: 0 <= k < |added| ==> nums[k] == added[k].num
      {
        if items[i].Malformed? || items[i].stored > MAX_ENTRY_BYTES {
          GoodPrefixIs(items, i);
          return (if items[i].Malformed? then BadEntry else TooBig), [];
        }
        assert items[..i + 1][..i] == items[..i];
        var row := Row(last + 1, items[i].kind, items[i].bytes);
        rows := rows + [row];
        last := last + 1;
        added := added + [row];
        nums := nums + [row.num];
      }
      GoodPrefixIs(items, |items|);
      assert items[..|items|] == items;
      return Appended(nums), added;
    }

    /** Deletes the conversation, unless someone runs a turn. */
    method Clear() returns (ok: bool)
      requires Safe(View())
      modifies `rows, `cleared, `live
      ensures View() == Moved(old(View()), Clears) && Safe(View())
      ensures ok <==> Runner(old(View().room)).None?
    {
      MovedSafe(View(), Clears);
      hide Safe;
      var runner := FindRunner();
      if runner.Some? {
        return false;
      }
      if rows != [] {
        cleared := MaxNum(rows);
      }
      rows, live := [], None;
      return true;
    }

    method Record(who: Option<string>)
      modifies `recorded, `live
      ensures View() == old(View()).(room := SetRunner(old(View().room), who))
    {
      recorded := who;
      if who.None? {
        live := None;
      }
    }

    /** A tab asks to run turns: it may unless another open tab does. */
    method Claim(me: string) returns (ok: bool)
      requires Safe(View())
      modifies `recorded, `live
      ensures View() == Moved(old(View()), Claims(me)) && Safe(View())
      ensures ok <==> Runner(old(View().room)).None? || Runner(old(View().room)) == Some(me)
    {
      MovedSafe(View(), Claims(me));
      var runner := FindRunner();
      if runner.Some? && runner.value != me {
        return false;
      }
      Record(Some(me));
      return true;
    }

    /** The runner gives up, or its close is handled. */
    method Release(me: string)
      requires Safe(View())
      modifies `recorded, `live
      ensures View() == Moved(old(View()), Releases(me)) == Moved(old(View()), IsGone(me)) && Safe(View())
    {
      MovedSafe(View(), Releases(me));
      var runner := FindRunner();
      if runner == Some(me) {
        Record(None);
      }
    }

    method PutLive(me: string, text: Option<string>)
      requires Safe(View())
      modifies `live, `author
      ensures View() == Moved(old(View()), Reports(me, text)) && Safe(View())
    {
      MovedSafe(View(), Reports(me, text));
      var runner := FindRunner();
      if runner != Some(me) {
        return;
      }
      live := text;
      author := me;
    }
  }
}
