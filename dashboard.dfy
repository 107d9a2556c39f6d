/** The dashboard loop of `main`: start-up seeding of the three signals and
    one tick of change detection. The fetchers are outside the model: the
    strings they return are inputs. */
module Dashboard {
  import opened RustPrims
  import opened LogState

  /** The change test of `main` for one signal: at tick `i`, the fetched
      `curr` replaces the last-seen `prev` when
      `curr.parse::<i32>().unwrap_or(i32::MAX) >= prev.parse::<i32>().unwrap_or(0) && i > 0`. */
  function Advanced(i: int, prev: string, curr: string): (r: bool)
    ensures i <= 0 ==> !r
    ensures i > 0 && ParseI32(curr).None? ==> r
    ensures ParseI32(curr).Some? && ParseI32(prev).Some? ==>
      (r <==> i > 0 && ParseI32(curr).value >= ParseI32(prev).value)
    ensures ParseI32(curr).Some? && ParseI32(prev).None? ==>
      (r <==> i > 0 && ParseI32(curr).value >= 0)
  {
    ParseI32Or(curr, I32_MAX) >= ParseI32Or(prev, 0) && i > 0
  }

  /** The value a signal holds after its change test. */
  function Pick(i: int, prev: string, curr: string): string {
    if Advanced(i, prev, curr) then curr else prev
  }

  /** The log line `info!("{:}/{:}/{:}", a, b, c)`. */
  function Triple(a: string, b: string, c: string): (line: string)
    ensures |line| == |a| + |b| + |c| + 2
    ensures line[..|a|] == a
  {
    a + "/" + b + "/" + c
  }

  /** The local variables of `main` that the loop updates. */
  datatype Snapshot = Snapshot(weeble: string, blockheight: string, wobble: string, tick: int)

  /** What the fetchers return during one tick, one field per call whose
      result the tick uses, in call order. */
  datatype TickFetches = TickFetches(
    weeble: string,                    // loop_weeble
    weebleLineBlockheight: string,     // get_blockheight() in the weeble log line
    weebleLineWobble: string,          // get_wobble() in the weeble log line
    blockheight: string,               // loop_blockheight
    blockheightLineWobble: string,     // get_wobble() in the blockheight log line
    wobble: string,                    // loop_wobble
    wobbleLineWobble: string,          // get_wobble() in the wobble log line
    summaryWeeble: string,             // the three fetches of the summary line
    summaryBlockheight: string,
    summaryWobble: string)

  /** The snapshot after one tick. */
  function NextSnapshot(s: Snapshot, f: TickFetches): Snapshot {
    Snapshot(Pick(s.tick, s.weeble, f.weeble),
             Pick(s.tick, s.blockheight, f.blockheight),
             Pick(s.tick, s.wobble, f.wobble),
             s.tick + 1)
  }

  function SummaryLine(f: TickFetches): string {
    Triple(f.summaryWeeble, f.summaryBlockheight, f.summaryWobble)
  }

  /** The lines one tick logs: one per advanced signal, in the order
      weeble, blockheight, wobble, then the summary line. */
  function TickLines(s: Snapshot, f: TickFetches): seq<string> {
    var n := NextSnapshot(s, f);
    (if Advanced(s.tick, s.weeble, f.weeble)
     then [Triple(n.weeble, f.weebleLineBlockheight, f.weebleLineWobble)] else [])
    + (if Advanced(s.tick, s.blockheight, f.blockheight)
       then [Triple(n.weeble, n.blockheight, f.blockheightLineWobble)] else [])
    + (if Advanced(s.tick, s.wobble, f.wobble)
       then [Triple(n.weeble, n.blockheight, f.wobbleLineWobble)] else [])
    + [SummaryLine(f)]
  }

  function Count(b: bool): nat {
    if b then 1 else 0
  }

  /** On the first tick no signal is compared: the snapshot keeps its
      values and only the summary line is logged. */
  lemma FirstTick(s: Snapshot, f: TickFetches)
    requires s.tick == 0
    ensures NextSnapshot(s, f) == s.(tick := 1)
    ensures TickLines(s, f) == [SummaryLine(f)]
  {
  }

  /** Each signal ends a tick either with its fetched value, exactly when
      it advanced, or with its old value; the counter goes up by one. */
  lemma TickUpdatesFields(s: Snapshot, f: TickFetches)
    ensures NextSnapshot(s, f).tick == s.tick + 1
    ensures Advanced(s.tick, s.weeble, f.weeble) ==> NextSnapshot(s, f).weeble == f.weeble
    ensures !Advanced(s.tick, s.weeble, f.weeble) ==> NextSnapshot(s, f).weeble == s.weeble
    ensures Advanced(s.tick, s.blockheight, f.blockheight) ==> NextSnapshot(s, f).blockheight == f.blockheight
    ensures !Advanced(s.tick, s.blockheight, f.blockheight) ==> NextSnapshot(s, f).blockheight == s.blockheight
    ensures Advanced(s.tick, s.wobble, f.wobble) ==> NextSnapshot(s, f).wobble == f.wobble
    ensures !Advanced(s.tick, s.wobble, f.wobble) ==> NextSnapshot(s, f).wobble == s.wobble
  {
  }

  /** A tick logs exactly one line per advanced signal plus the summary,
      which always comes last; a weeble line, when there is one, comes
      first and starts with the new weeble. */
  lemma TickLineCount(s: Snapshot, f: TickFetches)
    ensures |TickLines(s, f)| == 1 + Count(Advanced(s.tick, s.weeble, f.weeble))
                                   + Count(Advanced(s.tick, s.blockheight, f.blockheight))
                                   + Count(Advanced(s.tick, s.wobble, f.wobble))
    ensures TickLines(s, f)[|TickLines(s, f)| - 1] == SummaryLine(f)
    ensures Advanced(s.tick, s.weeble, f.weeble) ==> TickLines(s, f)[0][..|f.weeble|] == f.weeble
  {
  }

  /** Tick 1, last weeble "100", fetched "150": the weeble becomes "150" and
      the first line logged starts with "150". */
  lemma WeebleAdvances(s: Snapshot, f: TickFetches)
    requires s.tick == 1 && s.weeble == "100" && f.weeble == "150"
    ensures NextSnapshot(s, f).weeble == "150"
    ensures TickLines(s, f)[0][..3] == "150"
  {
    assert FormatI32(100) == "100" && FormatI32(150) == "150";
    ParseFormatI32(100);
    ParseFormatI32(150);
  }

  /** Tick 1, last blockheight "200", fetched "abc": an unparseable value
      counts as `i32::MAX`, so the blockheight becomes "abc" and a line is
      logged for it. */
  lemma UnparseableBlockheightAdvances(s: Snapshot, f: TickFetches)
    requires s.tick == 1 && s.blockheight == "200" && f.blockheight == "abc"
    ensures NextSnapshot(s, f).blockheight == "abc"
    ensures |TickLines(s, f)| >= 2
  {
    ParseRejectsNonDigit("abc", 1);
    TickLineCount(s, f);
  }

  /** Because the test is `>=`, a value equal to the last one is taken
      again (and logged again) on every tick after the first. */
  lemma EqualValueAdvances(i: int, v: string)
    requires i > 0
    ensures Advanced(i, v, v)
  {
  }

  lemma AppendFour<T>(h: seq<T>, a: seq<T>, b: seq<T>, c: seq<T>, d: seq<T>)
    ensures h + a + b + c + d == h + (a + b + c + d)
  {
  }

  /** The loop state of `main`: the last-seen value of each signal, the
      tick counter and the shared log history. */
  class Dashboard {
    var weeble: string
    var blockheight: string
    var wobble: string
    var i: int
    const log: LogWidgetState

    function Snap(): Snapshot
      reads this
    {
      Snapshot(weeble, blockheight, wobble, i)
    }

    /** Start-up: the snapshot is seeded from the first fetches, the counter
        is 0, and one line with the three values is logged. */
    constructor Start(log: LogWidgetState, weeble0: string, blockheight0: string, wobble0: string)
      modifies log
      ensures this.log == log
      ensures Snap() == Snapshot(weeble0, blockheight0, wobble0, 0)
      ensures log.history == old(log.history) + [Triple(weeble0, blockheight0, wobble0)]
    {
      this.log := log;
      i := 0;
      weeble := weeble0;
      blockheight := blockheight0;
      wobble := wobble0;
      new;
      log.WriteLine(Triple(weeble, blockheight, wobble));
    }

    /** The weeble block of the loop body: when weeble advanced, it takes
        the fetched value and a line with the new weeble and freshly
        fetched blockheight and wobble is logged. */
    method CheckWeeble(loopWeeble: string, lineBlockheight: string, lineWobble: string)
      modifies this, log
      ensures weeble == Pick(old(i), old(weeble), loopWeeble)
      ensures blockheight == old(blockheight) && wobble == old(wobble) && i == old(i)
      ensures log.history == old(log.history) +
        if Advanced(old(i), old(weeble), loopWeeble) then [Triple(loopWeeble, lineBlockheight, lineWobble)] else []
    {
      if Advanced(i, weeble, loopWeeble) {
        weeble := loopWeeble;
        log.WriteLine(Triple(weeble, lineBlockheight, lineWobble));
      }
    }

    /** The blockheight block: when blockheight advanced, it takes the
        fetched value and a line with the current weeble, the new
        blockheight and a freshly fetched wobble is logged. */
    method CheckBlockheight(loopBlockheight: string, lineWobble: string)
      modifies this, log
      ensures blockheight == Pick(old(i), old(blockheight), loopBlockheight)
      ensures weeble == old(weeble) && wobble == old(wobble) && i == old(i)
      ensures log.history == old(log.history) +
        if Advanced(old(i), old(blockheight), loopBlockheight)
        then [Triple(weeble, loopBlockheight, lineWobble)] else []
    {
      if Advanced(i, blockheight, loopBlockheight) {
        blockheight := loopBlockheight;
        log.WriteLine(Triple(weeble, blockheight, lineWobble));
      }
    }

    /** The wobble block: when wobble advanced, it takes the fetched value
        and a line with the current weeble and blockheight and a freshly
        fetched wobble (not the one just stored) is logged. */
    method CheckWobble(loopWobble: string, lineWobble: string)
      modifies this, log
      ensures wobble == Pick(old(i), old(wobble), loopWobble)
      ensures weeble == old(weeble) && blockheight == old(blockheight) && i == old(i)
      ensures log.history == old(log.history) +
        if Advanced(old(i), old(wobble), loopWobble) then [Triple(weeble, blockheight, lineWobble)] else []
    {
      if Advanced(i, wobble, loopWobble) {
        wobble := loopWobble;
        log.WriteLine(Triple(weeble, blockheight, lineWobble));
      }
    }

    /** One pass of the loop body: the change test for weeble, then
        blockheight, then wobble, each logging one line when it advances;
        then the summary line, and `i += 1` (an `i32`, which must not
        overflow). */
    method Tick(f: TickFetches)
      requires 0 <= i < I32_MAX
      modifies this, log
      ensures Snap() == NextSnapshot(old(Snap()), f)
      ensures log.history == old(log.history) + TickLines(old(Snap()), f)
    {
      ghost var h := log.history;
      CheckWeeble(f.weeble, f.weebleLineBlockheight, f.weebleLineWobble);
      ghost var l1 := log.history[|h|..];
      CheckBlockheight(f.blockheight, f.blockheightLineWobble);
      ghost var l2 := log.history[|h| + |l1|..];
      CheckWobble(f.wobble, f.wobbleLineWobble);
      ghost var l3 := log.history[|h| + |l1| + |l2|..];
      log.WriteLine(SummaryLine(f));
      i := i + 1;
      AppendFour(h, l1, l2, l3, [SummaryLine(f)]);
    }
  }
}
