/**
 * The network module: one block per interface counter record, showing the
 * bytes sent and received as `<up> up - <dn> dn`. With interface "all" the
 * counters are requested summed over all interfaces; otherwise per interface,
 * and only the named one is shown. The counter query and the byte formatter
 * are inputs.
 */
module Network {
  import opened Wrappers
  import opened Settings
  import opened Blocks
  import opened Base

  const TWO_TO_64: int := 0x1_0000_0000_0000_0000

  type uint64 = x: int | 0 <= x < TWO_TO_64

  /** Go's uint64 subtraction, which wraps around below zero. */
  function Sub64(a: uint64, b: uint64): (r: uint64)
    ensures a >= b ==> r == a - b
    ensures a < b ==> r == a - b + TWO_TO_64
  {
    (a - b) % TWO_TO_64
  }

  /** One interface's counters as the query reports them. */
  datatype IOStat = IOStat(name: string, bytesSent: uint64, bytesRecv: uint64)

  datatype Config = Config(base: BaseConfig, iface: string)

  /** newNetworkConfig: `interface` as a string, or "all". */
  function NewNetworkConfig(mc: ModuleConfig, base: BaseConfig): (c: Config)
    ensures c.base == base
    ensures HasString(mc, "interface") ==> c.iface == mc["interface"].s
    ensures !HasString(mc, "interface") ==> c.iface == "all"
  {
    Config(base, StringOr(mc, "interface", "all"))
  }

  /** Whether per-interface counters are requested. */
  function PerNic(c: Config): bool {
    c.iface != "all"
  }

  /** Whether a record is shown: every record for "all", only the named interface otherwise. */
  predicate Shown(c: Config, s: IOStat) {
    !PerNic(c) || s.name == c.iface
  }

  /** A counter's difference from its last-seen value, in 64-bit unsigned arithmetic, as humanised bytes. */
  function Traffic(now: uint64, last: uint64, ibytes: nat -> string): string {
    ibytes(Sub64(now, last))
  }

  /** The text of a shown record: bytes sent, then bytes received. */
  function StatText(s: IOStat, lastUp: uint64, lastDown: uint64, ibytes: nat -> string): string {
    Traffic(s.bytesSent, lastUp, ibytes) + " up - " + Traffic(s.bytesRecv, lastDown, ibytes) + " dn"
  }

  /** The blocks for the first k records. */
  function StatBlocks(c: Config, stats: seq<IOStat>, lastUp: uint64, lastDown: uint64, ibytes: nat -> string, k: nat): seq<Block>
    requires k <= |stats|
  {
    if k == 0 then []
    else
      StatBlocks(c, stats, lastUp, lastDown, ibytes, k - 1) +
      (if Shown(c, stats[k - 1]) then [NewBlock(c.base.blockSeparatorWidth).(fullText := StatText(stats[k - 1], lastUp, lastDown, ibytes))] else [])
  }

  /** MakeBlocks' result for the counters the query returned. */
  function NetworkBlocks(c: Config, stats: Result<seq<IOStat>, string>, lastUp: uint64, lastDown: uint64, ibytes: nat -> string): seq<Block> {
    LabelBlocks(c.base.labelText, c.base.blockSeparatorWidth) +
    if stats.Failure? then [] else StatBlocks(c, stats.value, lastUp, lastDown, ibytes, |stats.value|)
  }

  /** How many of the first k records are shown. */
  function ShownCount(c: Config, stats: seq<IOStat>, k: nat): nat
    requires k <= |stats|
  {
    if k == 0 then 0 else ShownCount(c, stats, k - 1) + (if Shown(c, stats[k - 1]) then 1 else 0)
  }

  /**
   * One block per shown record, in record order; every block keeps the
   * block width and an explicit-false separator, and none gets the final
   * treatment.
   */
  lemma {:induction false} StatBlocksShape(c: Config, stats: seq<IOStat>, lastUp: uint64, lastDown: uint64, ibytes: nat -> string, k: nat)
    requires k <= |stats|
    ensures |StatBlocks(c, stats, lastUp, lastDown, ibytes, k)| == ShownCount(c, stats, k)
    ensures forall b :: b in StatBlocks(c, stats, lastUp, lastDown, ibytes, k) ==>
      b.separator == Set(false) && b.separatorBlockWidth == c.base.blockSeparatorWidth
    ensures !PerNic(c) ==> ShownCount(c, stats, k) == k
  {
    if k > 0 {
      StatBlocksShape(c, stats, lastUp, lastDown, ibytes, k - 1);
    }
  }

  lemma {:induction false} ShownCountMonotone(c: Config, stats: seq<IOStat>, j: nat, k: nat)
    requires j <= k <= |stats|
    ensures ShownCount(c, stats, j) <= ShownCount(c, stats, k)
    decreases k - j
  {
    if j < k {
      ShownCountMonotone(c, stats, j, k - 1);
    }
  }

  /**
   * Record order is kept: the block of shown record i comes right after the
   * blocks of the shown records before it, and shows that record's traffic.
   */
  lemma {:induction false} StatBlocksIndex(c: Config, stats: seq<IOStat>, lastUp: uint64, lastDown: uint64, ibytes: nat -> string, k: nat)
    requires k <= |stats|
    ensures forall i :: 0 <= i < k && Shown(c, stats[i]) ==>
      ShownCount(c, stats, i) < |StatBlocks(c, stats, lastUp, lastDown, ibytes, k)| &&
      StatBlocks(c, stats, lastUp, lastDown, ibytes, k)[ShownCount(c, stats, i)] ==
        NewBlock(c.base.blockSeparatorWidth).(fullText := StatText(stats[i], lastUp, lastDown, ibytes))
  {
    if k > 0 {
      StatBlocksIndex(c, stats, lastUp, lastDown, ibytes, k - 1);
      StatBlocksShape(c, stats, lastUp, lastDown, ibytes, k - 1);
      StatBlocksShape(c, stats, lastUp, lastDown, ibytes, k);
      var prev := StatBlocks(c, stats, lastUp, lastDown, ibytes, k - 1);
      var all := StatBlocks(c, stats, lastUp, lastDown, ibytes, k);
      assert all[..|prev|] == prev;
      forall i | 0 <= i < k && Shown(c, stats[i])
        ensures ShownCount(c, stats, i) < |all|
        ensures all[ShownCount(c, stats, i)] == NewBlock(c.base.blockSeparatorWidth).(fullText := StatText(stats[i], lastUp, lastDown, ibytes))
      {
        ShownCountMonotone(c, stats, i + 1, k);
        if i < k - 1 {
          assert all[ShownCount(c, stats, i)] == prev[ShownCount(c, stats, i)];
        }
      }
    }
  }

  /** Every block's text names a shown record's sent and received bytes. */
  lemma {:induction false} StatBlocksText(c: Config, stats: seq<IOStat>, lastUp: uint64, lastDown: uint64, ibytes: nat -> string, k: nat)
    requires k <= |stats|
    ensures forall b :: b in StatBlocks(c, stats, lastUp, lastDown, ibytes, k) ==>
      exists i :: 0 <= i < k && Shown(c, stats[i]) && b.fullText == StatText(stats[i], lastUp, lastDown, ibytes)
  {
    if k > 0 {
      StatBlocksText(c, stats, lastUp, lastDown, ibytes, k - 1);
    }
  }

  /** The module. The last-seen byte counts start at 0 and nothing ever updates them. */
  class Network {
    const config: Config
    var lastUpBytes: uint64
    var lastDownBytes: uint64

    constructor (c: Config)
      ensures config == c && lastUpBytes == 0 && lastDownBytes == 0
    {
      config := c;
      lastUpBytes := 0;
      lastDownBytes := 0;
    }

    /**
     * MakeBlocks: the label, then the counters filtered by interface. The
     * query is asked for per-interface counters exactly when the interface
     * is not "all"; a failed query leaves only the label. The last-seen
     * counts are only read.
     */
    method MakeBlocks(ioCounters: bool -> Result<seq<IOStat>, string>, ibytes: nat -> string) returns (b: seq<Block>)
      ensures b == NetworkBlocks(config, ioCounters(PerNic(config)), lastUpBytes, lastDownBytes, ibytes)
    {
      b := AppendLabel([], config.base.labelText, config.base.blockSeparatorWidth);
      var pernic := true;
      if config.iface == "all" {
        pernic := false;
      }
      var stats := ioCounters(pernic);
      if stats.Failure? {
        return;
      }
      var ss := stats.value;
      var i := 0;
      while i < |ss|
        invariant 0 <= i <= |ss|
        invariant b == LabelBlocks(config.base.labelText, config.base.blockSeparatorWidth) + StatBlocks(config, ss, lastUpBytes, lastDownBytes, ibytes, i)
      {
        var s := ss[i];
        if !pernic || s.name == config.iface {
          var block := new BlockRef(config.base.blockSeparatorWidth);
          var upDiff := Traffic(s.bytesSent, lastUpBytes, ibytes);
          var dnDiff := Traffic(s.bytesRecv, lastDownBytes, ibytes);
          block.val := block.val.(fullText := upDiff + " up - " + dnDiff + " dn");
          b := b + [block.val];
        }
        i := i + 1;
      }
    }
  }

  /** Since the last-seen counts stay 0, each block shows the counters' totals, not the traffic since the last refresh. */
  lemma TotalsShown(s: IOStat, ibytes: nat -> string)
    ensures StatText(s, 0, 0, ibytes) == ibytes(s.bytesSent) + " up - " + ibytes(s.bytesRecv) + " dn"
  {
  }
}
