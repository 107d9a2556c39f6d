/** The log history that the logger writes into and the log panel reads:
    `LogWidgetState` and its `Writable` implementation. */
module LogState {

  /** The log history: an append-only list of lines, oldest first. */
  class LogWidgetState {
    var history: seq<string>

    /** `LogWidgetState::default()`: an empty history. */
    constructor ()
      ensures history == []
    {
      history := [];
    }

    /** `write_line`: pushes one line at the end; every earlier line stays
        where it was. */
    method WriteLine(message: string)
      modifies this
      ensures history == old(history) + [message]
      ensures history == Apply(old(history), WriteLineCall(message))
      ensures |history| == |old(history)| + 1
      ensures history[..|old(history)|] == old(history) && history[|history| - 1] == message
    {
      history := history + [message];
    }

    /** `flush`: clears the history. */
    method Flush()
      modifies this
      ensures history == []
      ensures history == Apply(old(history), FlushCall)
    {
      history := [];
    }
  }

  /** One call the logger makes on the history. */
  datatype LogCall = WriteLineCall(message: string) | FlushCall

  /** The history after one call, as `WriteLine` and `Flush` leave it. */
  function Apply(history: seq<string>, call: LogCall): seq<string> {
    match call
    case WriteLineCall(m) => history + [m]
    case FlushCall => []
  }

  /** The history after a sequence of calls, in order. */
  function Replay(history: seq<string>, calls: seq<LogCall>): seq<string>
    decreases |calls|
  {
    if calls == [] then history else Replay(Apply(history, calls[0]), calls[1..])
  }

  predicate NoFlush(calls: seq<LogCall>) {
    forall k :: 0 <= k < |calls| ==> calls[k].WriteLineCall?
  }

  /** Replaying two runs of calls one after the other. */
  lemma {:induction false} ReplayConcat(history: seq<string>, a: seq<LogCall>, b: seq<LogCall>)
    ensures Replay(history, a + b) == Replay(Replay(history, a), b)
    decreases |a|
  {
    if a == [] {
      assert a + b == b;
    } else {
      assert (a + b)[1..] == a[1..] + b;
      ReplayConcat(Apply(history, a[0]), a[1..], b);
    }
  }

  /** N writes without a flush keep the old lines in place and add the N
      messages after them, in the order they were written. */
  lemma {:induction false} ReplayWrites(history: seq<string>, calls: seq<LogCall>)
    requires NoFlush(calls)
    ensures |Replay(history, calls)| == |history| + |calls|
    ensures Replay(history, calls)[..|history|] == history
    ensures forall k :: 0 <= k < |calls| ==> Replay(history, calls)[|history| + k] == calls[k].message
    decreases |calls|
  {
    if calls != [] {
      var h' := history + [calls[0].message];
      ReplayWrites(h', calls[1..]);
      var r := Replay(history, calls);
      assert r == Replay(h', calls[1..]);
      assert r[..|history|] == r[..|h'|][..|history|];
      forall k | 0 <= k < |calls|
        ensures r[|history| + k] == calls[k].message
      {
        if k > 0 {
          assert r[|h'| + (k - 1)] == calls[1..][k - 1].message;
        } else {
          assert r[..|h'|][|history|] == calls[0].message;
        }
      }
    }
  }

  /** After a flush, the history holds exactly the lines written since,
      and none from before it. */
  lemma ReplayAfterFlush(history: seq<string>, before: seq<LogCall>, after: seq<LogCall>)
    requires NoFlush(after)
    ensures Replay(history, before + [FlushCall] + after) == Replay([], after)
    ensures |Replay([], after)| == |after|
    ensures forall k :: 0 <= k < |after| ==> Replay([], after)[k] == after[k].message
  {
    ReplayConcat(history, before + [FlushCall], after);
    ReplayConcat(history, before, [FlushCall]);
    ReplayWrites([], after);
  }
}
