/** The block ranges the escrow watcher reads for one purchase. */
module Watch {
  const FIRST_LOOKBACK: nat := 500
  const MAX_RANGE: nat := 2000
  const LIMIT: nat := 0x1_0000_0000_0000_0000  // blocks are 64-bit unsigned

  newtype u64 = x: int | 0 <= x < LIMIT

  function Wrap(x: int): (r: u64)
    ensures 0 <= x < LIMIT ==> r as int == x
  {
    (x % LIMIT) as u64
  }

  datatype Range = Range(from: u64, to: u64)

  function Start(block: u64, head: u64): u64 {
    if block != 0 then Wrap(block as int + 1)
    else if head as int > FIRST_LOOKBACK then Wrap(head as int - FIRST_LOOKBACK)
    else 1
  }

  function End(from: u64, head: u64): u64
    requires from <= head
  {
    if Wrap(head as int - from as int + 1) as int > MAX_RANGE then Wrap(from as int + MAX_RANGE - 1) else head
  }

  /** What one tick reads when `block` was the last block read (0 for none). */
  function Due(block: u64, head: u64): seq<Range> {
    var from := Start(block, head);
    if from > head then [] else [Range(from, End(from, head))]
  }

  class Purchase {
    var watchBlock: u64

    constructor ()
      ensures watchBlock == 0
    {
      watchBlock := 0;
    }

    /** One scan; `logsOk` says whether the logs could be fetched and decoded. */
    method Scan(head: u64, logsOk: bool) returns (read: seq<Range>)
      modifies this
      ensures read == if logsOk then Due(old(watchBlock), head) else []
      ensures watchBlock == if read == [] then old(watchBlock) else read[0].to
    {
      var from := Wrap(watchBlock as int + 1);
      if watchBlock == 0 {
        from := 1;
        if head as int > FIRST_LOOKBACK {
          from := Wrap(head as int - FIRST_LOOKBACK);
        }
      }
      if from > head {
        return [];
      }
      var to := head;
      if Wrap(to as int - from as int + 1) as int > MAX_RANGE {
        to := Wrap(from as int + MAX_RANGE - 1);
      }
      if !logsOk {
        return [];
      }
      watchBlock := to;
      read := [Range(from, to)];
    }
  }

  // ----- Sequences of scans

  datatype Tick = Tick(head: u64, logsOk: bool)

  function Read(block: u64, tick: Tick): seq<Range> {
    if tick.logsOk then Due(block, tick.head) else []
  }

  /** The ranges read so far, oldest first. */
  function Ranges(ticks: seq<Tick>): seq<Range> {
    if ticks == [] then []
    else
      var n := |ticks| - 1;
      Ranges(ticks[..n]) + Read(Block(ticks[..n]), ticks[n])
  }

  /** The recorded block. */
  function Block(ticks: seq<Tick>): u64 {
    if ticks == [] then 0
    else
      var n := |ticks| - 1;
      var read := Read(Block(ticks[..n]), ticks[n]);
      if read == [] then Block(ticks[..n]) else read[0].to
  }

  /** Some tick saw a head at or past `block`. */
  ghost predicate Seen(ticks: seq<Tick>, block: u64) {
    exists i :: 0 <= i < |ticks| && block <= ticks[i].head
  }

  /** `from` is where some successful tick would start a first scan. */
  ghost predicate LooksBackTo(ticks: seq<Tick>, from: u64) {
    exists i :: 0 <= i < |ticks| && ticks[i].logsOk && from == Start(0, ticks[i].head)
  }

  predicate GoodRange(r: Range) {
    1 <= r.from <= r.to && r.to as int - r.from as int < MAX_RANGE
  }

  /** The ranges follow each other without a gap or an overlap, none is empty or too long,
      and the last one ends at `block`. */
  ghost predicate Chain(rs: seq<Range>, block: u64) {
    && (forall i :: 0 <= i < |rs| ==> GoodRange(rs[i]))
    && (forall i, j :: 0 <= i && j == i + 1 < |rs| ==> rs[j].from as int == rs[i].to as int + 1)
    && (if rs == [] then block == 0 else block == rs[|rs| - 1].to)
  }

  /** The ranges are a chain from the first lookback to the recorded block, which some head
      has reached. */
  ghost predicate Consecutive(ticks: seq<Tick>) {
    var rs := Ranges(ticks);
    && Chain(rs, Block(ticks))
    && (rs != [] ==> LooksBackTo(ticks, rs[0].from) && Seen(ticks, Block(ticks)))
  }

  /** The recorded block is the last a 64-bit number can name, and the scan goes through:
      it starts over at block 0. */
  predicate StartsOver(block: u64, tick: Tick) {
    block as int == LIMIT - 1 && tick.logsOk
  }

  /** What a tick reads: never past the head, behind the recorded block or at the first
      lookback, and of the right length, exactly unless the last block there can be is
      already recorded (and, for the length, is the head as well). */
  lemma DueIs(block: u64, head: u64)
    ensures var d := Due(block, head);
      && |d| <= 1
      && (d != [] ==>
            && d[0].from <= d[0].to <= head
            && (block == 0 ==>
                  d[0].from as int == if head as int > FIRST_LOOKBACK then head as int - FIRST_LOOKBACK else 1)
            && ((block != 0 ==> d[0].from as int == block as int + 1) <==> block as int < LIMIT - 1)
            && (1 <= d[0].from <==> block as int < LIMIT - 1)
            && (d[0].to as int - d[0].from as int < MAX_RANGE <==> !(block as int == head as int == LIMIT - 1)))
      && (block as int == LIMIT - 1 ==> d != [])
  {
    if block as int == LIMIT - 1 {
      assert (block as int + 1) % LIMIT == 0;
      assert Start(block, head) == 0;
      if head as int == LIMIT - 1 {
        assert (head as int - 0 + 1) % LIMIT == 0;
      }
    }
  }

  lemma ExtendChain(rs: seq<Range>, block: u64, r: Range)
    requires Chain(rs, block) && GoodRange(r) && (rs != [] ==> r.from as int == block as int + 1)
    ensures Chain(rs + [r], r.to)
  {
  }

  lemma MoreTicks(ticks: seq<Tick>, t: Tick, from: u64, block: u64)
    ensures LooksBackTo(ticks, from) ==> LooksBackTo(ticks + [t], from)
    ensures Seen(ticks, block) ==> Seen(ticks + [t], block)
  {
    assert forall i :: 0 <= i < |ticks| ==> (ticks + [t])[i] == ticks[i];
  }

  lemma LastTick(ticks: seq<Tick>, t: Tick, from: u64, block: u64)
    ensures t.logsOk && from == Start(0, t.head) ==> LooksBackTo(ticks + [t], from)
    ensures block <= t.head ==> Seen(ticks + [t], block)
  {
    assert (ticks + [t])[|ticks|] == t;
  }

  lemma UnfoldScan(before: seq<Tick>, t: Tick)
    ensures var read := Read(Block(before), t);
      && Ranges(before + [t]) == Ranges(before) + read
      && Block(before + [t]) == if read == [] then Block(before) else read[0].to
  {
    assert (before + [t])[..|before|] == before;
  }

  lemma OneMoreScan(before: seq<Tick>, t: Tick)
    requires Consecutive(before) && !StartsOver(Block(before), t)
    ensures Consecutive(before + [t])
  {
    UnfoldScan(before, t);
    if Ranges(before) != [] {
      MoreTicks(before, t, Ranges(before)[0].from, Block(before));
    }
    if Read(Block(before), t) != [] {
      OneMoreRange(before, t);
    }
  }

  lemma OneMoreRange(before: seq<Tick>, t: Tick)
    requires Consecutive(before) && !StartsOver(Block(before), t) && Read(Block(before), t) != []
    ensures var r := Read(Block(before), t)[0];
      && Read(Block(before), t) == [r]
      && Chain(Ranges(before) + [r], r.to) && Seen(before + [t], r.to)
      && (Ranges(before) == [] ==> LooksBackTo(before + [t], r.from))
  {
    var r := Read(Block(before), t)[0];
    DueIs(Block(before), t.head);
    ExtendChain(Ranges(before), Block(before), r);
    LastTick(before, t, r.from, r.to);
  }

  /** A scan that starts over reads a range that no chain can hold. */
  lemma StartingOverBreaks(before: seq<Tick>, t: Tick)
    requires StartsOver(Block(before), t)
    ensures exists k :: 0 <= k < |Ranges(before + [t])| && !GoodRange(Ranges(before + [t])[k])
  {
    UnfoldScan(before, t);
    DueIs(Block(before), t.head);
    assert !GoodRange(Ranges(before + [t])[|Ranges(before)|]);
  }

  lemma {:induction false} RangesGrow(ticks: seq<Tick>, n: nat)
    requires n <= |ticks|
    ensures Ranges(ticks[..n]) <= Ranges(ticks)
    decreases |ticks|
  {
    if n == |ticks| {
      assert ticks[..n] == ticks;
    } else {
      var m := |ticks| - 1;
      RangesGrow(ticks[..m], n);
      assert ticks[..m][..n] == ticks[..n] && ticks[..m] + [ticks[m]] == ticks;
      UnfoldScan(ticks[..m], ticks[m]);
    }
  }

  /** The `i`-th tick starts over. */
  predicate StartsOverAt(ticks: seq<Tick>, i: nat)
    requires i < |ticks|
  {
    StartsOver(Block(ticks[..i]), ticks[i])
  }

  lemma {:induction false} ScansGoOn(ticks: seq<Tick>)
    requires forall i :: 0 <= i < |ticks| ==> !StartsOverAt(ticks, i)
    ensures Consecutive(ticks)
  {
    if ticks != [] {
      var n := |ticks| - 1;
      var before := ticks[..n];
      assert before + [ticks[n]] == ticks;
      forall i | 0 <= i < n ensures !StartsOverAt(before, i) {
        assert !StartsOverAt(ticks, i) && before[..i] == ticks[..i];
      }
      ScansGoOn(before);
      assert !StartsOver(Block(before), ticks[n]) by {
        assert !StartsOverAt(ticks, n);
      }
      OneMoreScan(before, ticks[n]);
    }
  }

  /** Any scans of one purchase, failed ones among them and heads in any order, read
      consecutive, disjoint ranges of at most 2000 blocks from the first lookback on, and
      never past the highest head, exactly unless one of them starts over. */
  lemma ScansAreConsecutive(ticks: seq<Tick>)
    ensures Consecutive(ticks) <==> forall i :: 0 <= i < |ticks| ==> !StartsOverAt(ticks, i)
  {
    if i :| 0 <= i < |ticks| && StartsOverAt(ticks, i) {
      assert ticks[..i + 1] == ticks[..i] + [ticks[i]];
      StartingOverBreaks(ticks[..i], ticks[i]);
      RangesGrow(ticks, i + 1);
      var k :| 0 <= k < |Ranges(ticks[..i + 1])| && !GoodRange(Ranges(ticks[..i + 1])[k]);
      assert Ranges(ticks)[k] == Ranges(ticks[..i + 1])[k];
    } else {
      ScansGoOn(ticks);
    }
  }

  /** A tick never lowers the recorded block, exactly unless it starts over below the last
      block there can be. */
  lemma TickGrowsIff(before: seq<Tick>, t: Tick)
    ensures Block(before) <= Block(before + [t]) <==> !(StartsOver(Block(before), t) && t.head as int < LIMIT - 1)
  {
    UnfoldScan(before, t);
    DueIs(Block(before), t.head);
    if Block(before) as int == t.head as int == LIMIT - 1 && t.logsOk {
      LastBlockStays(t);
    }
  }

  lemma LastBlockStays(t: Tick)
    requires t.head as int == LIMIT - 1
    ensures Due(t.head, t.head) == [Range(0, t.head)]
  {
    assert (t.head as int + 1) % LIMIT == 0;
    assert Start(t.head, t.head) == 0;
  }

  /** The recorded block never decreases, as long as no tick starts over. */
  lemma {:induction false} BlockGrows(ticks: seq<Tick>, n: nat)
    requires n <= |ticks| && forall i :: n <= i < |ticks| ==> !StartsOverAt(ticks, i)
    ensures Block(ticks[..n]) <= Block(ticks)
    decreases |ticks|
  {
    if n == |ticks| {
      assert ticks[..n] == ticks;
    } else {
      var m := |ticks| - 1;
      forall i | n <= i < m ensures !StartsOverAt(ticks[..m], i) {
        assert !StartsOverAt(ticks, i) && ticks[..m][..i] == ticks[..i];
      }
      BlockGrows(ticks[..m], n);
      assert ticks[..m][..n] == ticks[..n] && ticks[..m] + [ticks[m]] == ticks;
      assert !StartsOverAt(ticks, m);
      TickGrowsIff(ticks[..m], ticks[m]);
    }
  }

  /** A watched purchase goes on behind the last block it read exactly while that is not the
      last block a 64-bit number can name; after that the watch starts over at block 0. */
  lemma GoesOnIff(block: u64, head: u64)
    requires block != 0
    ensures (Due(block, head) == [] || Due(block, head)[0].from > block) <==> block as int < LIMIT - 1
  {
    DueIs(block, head);
  }

  /** Two scans at the last block there can be: the second reads all blocks over again. */
  lemma CanStartOver()
    ensures var t := Tick((LIMIT - 1) as u64, true);
      && StartsOverAt([t, t], 1) && !Consecutive([t, t])
      && Ranges([t, t]) == [Range((LIMIT - 1 - FIRST_LOOKBACK) as u64, t.head), Range(0, t.head)]
  {
    var t := Tick((LIMIT - 1) as u64, true);
    UnfoldScan([], t);
    UnfoldScan([t], t);
    assert [] + [t] == [t] && [t] + [t] == [t, t] && [t, t][..1] == [t];
    assert Due(0, t.head) == [Range((LIMIT - 1 - FIRST_LOOKBACK) as u64, t.head)];
    LastBlockStays(t);
    assert StartsOverAt([t, t], 1);
    ScansAreConsecutive([t, t]);
  }
}
