/**
  How the assistant's log is cut into frames when a tab attaches: greedily, and
  no other way of cutting it in order needs fewer frames.
 */
module Framing {

  datatype Kind = Note | Compaction(throughSeq: int)

  /** A log entry: its sequence number, and bytes, its length as JSON. */
  datatype Row = Row(num: nat, kind: Kind, bytes: nat)

  const FRAME_BYTES := 512 * 1024

  function Bytes(rows: seq<Row>): nat {
    if rows == [] then 0 else Bytes(rows[..|rows| - 1]) + rows[|rows| - 1].bytes
  }

  function Joined(frames: seq<seq<Row>>): seq<Row> {
    if frames == [] then [] else frames[0] + Joined(frames[1..])
  }

  /** A frame is within the limit, or has a single entry. */
  predicate Fits(frame: seq<Row>) {
    frame != [] && (|frame| == 1 || Bytes(frame) <= FRAME_BYTES)
  }

  /** The rows cut in order into frames that fit. */
  predicate Cuts(frames: seq<seq<Row>>, rows: seq<Row>) {
    Joined(frames) == rows && forall i :: 0 <= i < |frames| ==> Fits(frames[i])
  }

  predicate NoRoom(frames: seq<seq<Row>>, i: nat)
    requires i + 1 < |frames|
  {
    frames[i + 1] != [] && Bytes(frames[i] + [frames[i + 1][0]]) > FRAME_BYTES
  }

  /** No frame but the last has room for the entry after it. */
  predicate Full(frames: seq<seq<Row>>) {
    forall i :: 0 <= i < |frames| - 1 ==> NoRoom(frames, i)
  }

  lemma BytesSnoc(rows: seq<Row>, r: Row)
    ensures Bytes(rows + [r]) == Bytes(rows) + r.bytes
  {
    assert (rows + [r])[..|rows|] == rows;
  }

  lemma {:induction false} BytesPart(rows: seq<Row>, i: nat, j: nat)
    requires i <= j <= |rows|
    ensures Bytes(rows[i..j]) <= Bytes(rows)
    decreases |rows|
  {
    if j < |rows| {
      assert rows[..|rows| - 1][i..j] == rows[i..j];
      BytesPart(rows[..|rows| - 1], i, j);
    } else if i < j {
      assert rows[i..j][..j - i - 1] == rows[..j - 1][i..j - 1];
      BytesPart(rows[..|rows| - 1], i, j - 1);
    }
  }

  lemma {:induction false} JoinedSnoc(frames: seq<seq<Row>>, f: seq<Row>)
    ensures Joined(frames + [f]) == Joined(frames) + f
    decreases |frames|
  {
    if frames == [] {
      assert [f][1..] == [] && f + [] == f;
    } else {
      assert (frames + [f])[1..] == frames[1..] + [f];
      JoinedSnoc(frames[1..], f);
    }
  }

  // Greedy frames stay ahead: if they cut a suffix of what the others cut, there are no more of them.
  lemma {:induction false} GreedyStaysAhead(frames: seq<seq<Row>>, others: seq<seq<Row>>, d: nat)
    requires Full(frames) && (forall i :: 0 <= i < |frames| ==> frames[i] != [])
    requires (forall i :: 0 <= i < |others| ==> Fits(others[i]))
    requires d <= |Joined(others)| && Joined(frames) == Joined(others)[d..]
    ensures |frames| <= |others|
    decreases |others|
  {
    if frames != [] {
      assert |Joined(frames)| >= |frames[0]| > 0;
      var o, rest := others[0], others[1..];
      assert Joined(others) == o + Joined(rest);
      if d >= |o| {
        assert Joined(others)[d..] == Joined(rest)[d - |o|..];
        GreedyStaysAhead(frames, rest, d - |o|);
      } else {
        FirstReaches(frames, o, Joined(rest), d);
        var f, tail := frames[0], frames[1..];
        assert Full(tail) by {
          assert forall i :: 0 <= i < |tail| - 1 ==> NoRoom(frames, i + 1) ==> NoRoom(tail, i);
        }
        assert Joined(tail) == Joined(frames)[|f|..];
        assert Joined(others)[d..][|f|..] == Joined(rest)[|f| - (|o| - d)..];
        GreedyStaysAhead(tail, rest, |f| - (|o| - d));
      }
    }
  }

  // The first greedy frame covers what is left of the other's.
  lemma FirstReaches(frames: seq<seq<Row>>, o: seq<Row>, rest: seq<Row>, d: nat)
    requires frames != [] && Full(frames) && frames[0] != [] && Fits(o) && d < |o|
    requires Joined(frames) == (o + rest)[d..]
    ensures |o| - d <= |frames[0]|
  {
    var f := frames[0];
    if |f| < |o| - d {
      assert |frames| > 1 by {
        assert |frames| == 1 ==> Joined(frames) == f + [];
      }
      assert NoRoom(frames, 0);
      var r := frames[1][0];
      BeginsWith(frames);
      assert f + [r] == o[d..d + |f| + 1] by {
        assert (o + rest)[d..][..|f| + 1] == o[d..d + |f| + 1];
      }
      BytesPart(o, d, d + |f| + 1);
      assert false;
    }
  }

  lemma BeginsWith(frames: seq<seq<Row>>)
    requires |frames| > 1 && frames[1] != []
    ensures |frames[0]| + 1 <= |Joined(frames)| && Joined(frames)[..|frames[0]| + 1] == frames[0] + [frames[1][0]]
  {
    assert Joined(frames) == frames[0] + Joined(frames[1..]);
    assert Joined(frames[1..]) == frames[1] + Joined(frames[1..][1..]);
  }

  /** The rows cut so far: full frames, and the one being filled, empty only at the start. */
  ghost predicate Cutting(frames: seq<seq<Row>>, frame: seq<Row>, rows: seq<Row>) {
    if frame == [] then frames == [] && rows == []
    else Cuts(frames + [frame], rows) && Full(frames + [frame])
  }

  lemma FirstEntry(r: Row)
    ensures Cutting([], [] + [r], [r])
  {
    var frames: seq<seq<Row>> := [] + [[] + [r]];
    assert [] + [r] == [r] && frames[1..] == [] && Joined(frames) == [r] + [];
  }

  // An entry that does not fit begins the next frame.
  lemma NextFrame(frames: seq<seq<Row>>, frame: seq<Row>, rows: seq<Row>, r: Row)
    requires frame != [] && Cutting(frames, frame, rows) && Bytes(frame) + r.bytes > FRAME_BYTES
    ensures Cutting(frames + [frame], [] + [r], rows + [r])
  {
    var was := frames + [frame];
    var all := was + [[] + [r]];
    BytesSnoc(frame, r);
    JoinedSnoc(was, [] + [r]);
    hide Joined;
    forall i | 0 <= i < |all| - 1 ensures NoRoom(all, i) {
      if i < |frames| {
        assert NoRoom(was, i);
      }
    }
  }

  // An entry that fits joins the frame.
  lemma SameFrame(frames: seq<seq<Row>>, frame: seq<Row>, rows: seq<Row>, r: Row)
    requires frame != [] && Cutting(frames, frame, rows) && Bytes(frame) + r.bytes <= FRAME_BYTES
    ensures Cutting(frames, frame + [r], rows + [r])
  {
    var was, all := frames + [frame], frames + [frame + [r]];
    BytesSnoc(frame, r);
    JoinedSnoc(frames, frame);
    JoinedSnoc(frames, frame + [r]);
    assert Joined(frames) + frame + [r] == Joined(frames) + (frame + [r]);
    hide Joined, Bytes;
    forall i | 0 <= i < |all| - 1 ensures NoRoom(all, i) {
      assert NoRoom(was, i);
    }
    forall i | 0 <= i < |all| ensures Fits(all[i]) {
      assert i < |frames| ==> all[i] == was[i];
    }
  }

  lemma GreedyIsBest(frames: seq<seq<Row>>, rows: seq<Row>)
    requires Cuts(frames, rows) && Full(frames)
    ensures forall others :: Cuts(others, rows) ==> |frames| <= |others|
  {
    forall others | Cuts(others, rows) ensures |frames| <= |others| {
      assert Joined(others)[0..] == rows;
      GreedyStaysAhead(frames, others, 0);
    }
  }

  /** Cuts rows into frames: a new one is begun only when the next entry does not fit in the current one. */
  method Frames(rows: seq<Row>) returns (frames: seq<seq<Row>>)
    ensures Cuts(frames, rows)
    ensures forall others :: Cuts(others, rows) ==> |frames| <= |others|
  {
    frames := [];
    var frame: seq<Row>, bytes := [], 0;
    for i := 0 to |rows|
      invariant Cutting(frames, frame, rows[..i])
      invariant bytes == Bytes(frame)
      invariant frame == [] ==> i == 0
    {
      assert rows[..i + 1] == rows[..i] + [rows[i]];
      var n := rows[i].bytes;
      if |frame| > 0 && bytes + n > FRAME_BYTES {
        NextFrame(frames, frame, rows[..i], rows[i]);
        frames := frames + [frame];
        frame := [];
        bytes := 0;
      } else if frame != [] {
        SameFrame(frames, frame, rows[..i], rows[i]);
      } else {
        FirstEntry(rows[i]);
      }
      BytesSnoc(frame, rows[i]);
      frame := frame + [rows[i]];
      bytes := bytes + n;
    }
    assert rows[..|rows|] == rows;
    if |frame| > 0 {
      frames := frames + [frame];
    }
    GreedyIsBest(frames, rows);
  }
}
