/**
 * The CPU module: either one block per CPU utilisation reading, drawn as a
 * bar glyph or as a percentage, or one block per package temperature zone.
 * Readings, thermal-zone files and the colour scale are inputs.
 */
module CPU {
  import opened Wrappers
  import opened Settings
  import opened Text
  import opened Blocks
  import opened Base

  datatype Config = Config(base: BaseConfig, monitorType: string, average: bool, tempGreen: int64, tempRed: int64)

  /** newCPUConfig: each key read with its type, falling back to "graph", false, 40 and 80. */
  function NewCPUConfig(mc: ModuleConfig, base: BaseConfig): (c: Config)
    ensures c.base == base
    ensures c.monitorType == (if "monitor" in mc && mc["monitor"].Str? then mc["monitor"].s else "graph")
    ensures c.average == ("average" in mc && mc["average"].Bool? && mc["average"].b)
    ensures c.tempGreen == (if "temp_green" in mc && mc["temp_green"].Int? then mc["temp_green"].i else 40)
    ensures c.tempRed == (if "temp_red" in mc && mc["temp_red"].Int? then mc["temp_red"].i else 80)
  {
    Config(base, StringOr(mc, "monitor", "graph"), BoolOr(mc, "average", false),
      IntOr(mc, "temp_green", 40), IntOr(mc, "temp_red", 80))
  }

  /** An empty configuration gives every default. */
  lemma CPUDefaults(base: BaseConfig)
    ensures NewCPUConfig(map[], base) == Config(base, "graph", false, 40, 80)
  {
  }

  /** The eight bar glyphs, U+2581 to U+2588, lowest first. */
  const GRAPH_CHARS: seq<string> := ["\U{2581}", "\U{2582}", "\U{2583}", "\U{2584}", "\U{2585}", "\U{2586}", "\U{2587}", "\U{2588}"]

  /** The glyph a utilisation selects: int((val/100)*7). */
  function GraphIndex(val: real): int {
    TruncReal(val / 100.0 * 7.0)
  }

  /** In graph mode every reading must select one of the eight glyphs; a reading outside would index past the table. */
  predicate GraphReadable(c: Config, cpus: seq<real>) {
    c.monitorType == "graph" ==> forall i :: 0 <= i < |cpus| ==> 0 <= GraphIndex(cpus[i]) < 8
  }

  /** Readings from 0 to 100 percent always select a glyph, 100 the highest. */
  lemma PercentagesSelectGlyph(val: real)
    requires 0.0 <= val <= 100.0
    ensures 0 <= GraphIndex(val) < 8
    ensures val == 100.0 ==> GraphIndex(val) == 7
  {
  }

  /** getUtilBlock's block for one reading. */
  function UtilBlock(c: Config, val: real, getColor: real -> string): (b: Block)
    requires c.monitorType == "graph" ==> 0 <= GraphIndex(val) < 8
  {
    var b := NewBlock(c.base.blockSeparatorWidth);
    var b :=
      if c.monitorType == "graph" then b.(fullText := GRAPH_CHARS[GraphIndex(val)])
      else if c.monitorType == "percent" then b.(fullText := IntText(TruncReal(val)), minWidth := "99", align := "right")
      else b;
    b.(color := PercentColour(getColor, val))
  }

  /** What a utilisation block holds in each mode, and that it is otherwise a fresh block. */
  lemma UtilBlockFields(c: Config, val: real, getColor: real -> string)
    requires c.monitorType == "graph" ==> 0 <= GraphIndex(val) < 8
    ensures var b := UtilBlock(c, val, getColor);
      && b.color == PercentColour(getColor, val)
      && (c.monitorType == "graph" ==> b.fullText in GRAPH_CHARS && b.minWidth == "")
      && (c.monitorType == "percent" ==> b.fullText == IntText(TruncReal(val)) && b.minWidth == "99" && b.align == "right")
      && b.(fullText := "", minWidth := "", align := "", color := "") == NewBlock(c.base.blockSeparatorWidth)
  {
  }

  /** getUtilBlock, setting the fields of a new block one after another. */
  method GetUtilBlock(c: Config, val: real, getColor: real -> string) returns (block: BlockRef)
    requires c.monitorType == "graph" ==> 0 <= GraphIndex(val) < 8
    ensures fresh(block)
    ensures block.val == UtilBlock(c, val, getColor)
  {
    block := new BlockRef(c.base.blockSeparatorWidth);
    if c.monitorType == "graph" {
      block.val := block.val.(fullText := GRAPH_CHARS[GraphIndex(val)]);
    } else if c.monitorType == "percent" {
      block.val := block.val.(fullText := IntText(TruncReal(val)));
      block.val := block.val.(minWidth := "99");
      block.val := block.val.(align := "right");
    }
    block.val := block.val.(color := PercentColour(getColor, val));
  }

  /** The util block for reading i; the last one is finalised. */
  function UtilAt(c: Config, cpus: seq<real>, getColor: real -> string, i: nat): Block
    requires GraphReadable(c, cpus) && i < |cpus|
  {
    var b := UtilBlock(c, cpus[i], getColor);
    if i == |cpus| - 1 then Finalised(b, c.base) else b
  }

  /** makeUtilBlocks after its first k readings. */
  function UtilBlocks(c: Config, cpus: seq<real>, getColor: real -> string, k: nat): seq<Block>
    requires GraphReadable(c, cpus) && k <= |cpus|
  {
    if k == 0 then [] else UtilBlocks(c, cpus, getColor, k - 1) + [UtilAt(c, cpus, getColor, k - 1)]
  }

  /** One block per reading, in reading order. */
  lemma {:induction false} UtilBlocksIndex(c: Config, cpus: seq<real>, getColor: real -> string, k: nat)
    requires GraphReadable(c, cpus) && k <= |cpus|
    ensures |UtilBlocks(c, cpus, getColor, k)| == k
    ensures forall i :: 0 <= i < k ==> UtilBlocks(c, cpus, getColor, k)[i] == UtilAt(c, cpus, getColor, i)
  {
    if k > 0 {
      UtilBlocksIndex(c, cpus, getColor, k - 1);
      var prev := UtilBlocks(c, cpus, getColor, k - 1);
      var all := UtilBlocks(c, cpus, getColor, k);
      assert all == prev + [UtilAt(c, cpus, getColor, k - 1)];
      forall i | 0 <= i < k
        ensures all[i] == UtilAt(c, cpus, getColor, i)
      {
        if i < k - 1 {
          assert all[i] == prev[i];
        } else {
          assert all[i] == UtilAt(c, cpus, getColor, k - 1);
        }
      }
    }
  }

  /**
   * Only the last utilisation block gets the final separator width, and its
   * separator is the bar's default exactly when FinalSeparator is set; every
   * other block keeps an explicit-false separator at the block width.
   */
  lemma UtilSeparators(c: Config, cpus: seq<real>, getColor: real -> string)
    requires GraphReadable(c, cpus)
    ensures var bs := UtilBlocks(c, cpus, getColor, |cpus|);
      && |bs| == |cpus|
      && (forall i :: 0 <= i < |bs| - 1 ==> bs[i].separator == Set(false) && bs[i].separatorBlockWidth == c.base.blockSeparatorWidth)
      && (|bs| > 0 ==> bs[|bs| - 1].separatorBlockWidth == c.base.finalSeparatorWidth
                       && (bs[|bs| - 1].separator == Unset <==> c.base.finalSeparator))
  {
    UtilBlocksIndex(c, cpus, getColor, |cpus|);
  }

  /** The utilisation query is asked for one reading per CPU exactly when `average` is off. */
  function PerCpu(c: Config): bool {
    !c.average
  }

  /**
   * What the utilisation query returns for this configuration: `cpuPercent`
   * stands for the library call, given whether per-CPU readings are wanted,
   * and returns an empty list when the call fails.
   */
  function CpuReadings(c: Config, cpuPercent: bool -> seq<real>): seq<real> {
    cpuPercent(PerCpu(c))
  }

  /** makeUtilBlocks: query the readings, then one block per reading, the last one finalised. */
  method MakeUtilBlocks(c: Config, cpuPercent: bool -> seq<real>, getColor: real -> string) returns (b: seq<Block>)
    requires GraphReadable(c, CpuReadings(c, cpuPercent))
    ensures b == UtilBlocks(c, CpuReadings(c, cpuPercent), getColor, |CpuReadings(c, cpuPercent)|)
  {
    var cpus := CpuReadings(c, cpuPercent);
    b := BuildUtilBlocks(c, cpus, getColor);
  }

  /** The loop of makeUtilBlocks over the readings the query returned. */
  method BuildUtilBlocks(c: Config, cpus: seq<real>, getColor: real -> string) returns (b: seq<Block>)
    requires GraphReadable(c, cpus)
    ensures b == UtilBlocks(c, cpus, getColor, |cpus|)
  {
    b := [];
    var i := 0;
    while i < |cpus|
      invariant 0 <= i <= |cpus|
      invariant b == UtilBlocks(c, cpus, getColor, i)
    {
      var block := GetUtilBlock(c, cpus[i], getColor);
      if i == |cpus| - 1 {
        Finalise(block, c.base);
      }
      b := b + [block.val];
      i := i + 1;
    }
  }

  /** A thermal zone as read from its `type` and `temp` files, first line of each. */
  datatype Zone = Zone(kind: string, temp: string)

  const PACKAGE_ZONE: string := "x86_pkg_temp"

  /**
   * The colour-scale base: how far the temperature is above the green mark,
   * never below 0. The subtraction is int64 arithmetic and wraps: a
   * difference above int64's range comes out negative and gives 0, and one
   * below it comes out 2^64 higher.
   */
  function ColourBase(temp: int64, green: int64): (base: int64)
    ensures base >= 0
    ensures base == 0 || base == ToInt64(temp - green)
    ensures INT64_MIN <= temp - green <= INT64_MAX ==> base >= temp - green && (base == 0 || base == temp - green)
    ensures temp - green > INT64_MAX ==> base == 0
    ensures temp - green < INT64_MIN ==> base == temp - green + 0x1_0000_0000_0000_0000
  {
    var d := ToInt64(temp - green);
    if d < 0 then 0 else d
  }

  /** The whole degrees of a zone's reading, in thousandths of a degree, rounded toward zero. */
  function Degrees(z: Zone): int64 {
    TruncDiv(Atoi(z.temp), 1000)
  }

  /**
   * The colour of a temperature `base` degrees above green: the scale applied
   * to base over the green-to-red range, itself an int64 difference that wraps.
   */
  function TempColour(c: Config, base: int64, ratioColor: (int, int) -> string): string {
    ratioColor(base, ToInt64(c.tempRed - c.tempGreen))
  }

  /** The block for a package zone: its whole degrees and the colour of how far they are above green. */
  function TempBlock(c: Config, z: Zone, isLast: bool, ratioColor: (int, int) -> string): Block {
    var t := Degrees(z);
    var b := NewBlock(c.base.blockSeparatorWidth).(
      fullText := IntText(t) + "\U{2103}",
      color := TempColour(c, ColourBase(t, c.tempGreen), ratioColor));
    if isLast then Finalised(b, c.base) else b
  }

  /** makeTempBlocks after its first k zones; the final treatment goes to zone |zones| - 1 only. */
  function TempBlocks(c: Config, zones: seq<Zone>, ratioColor: (int, int) -> string, k: nat): seq<Block>
    requires k <= |zones|
  {
    if k == 0 then []
    else
      TempBlocks(c, zones, ratioColor, k - 1) +
      (if zones[k - 1].kind == PACKAGE_ZONE then [TempBlock(c, zones[k - 1], k - 1 == |zones| - 1, ratioColor)] else [])
  }

  /** How many of the first k zones are package zones. */
  function PackageCount(zones: seq<Zone>, k: nat): nat
    requires k <= |zones|
  {
    if k == 0 then 0 else PackageCount(zones, k - 1) + (if zones[k - 1].kind == PACKAGE_ZONE then 1 else 0)
  }

  /**
   * One block per package zone, in zone order: the block of package zone i
   * comes after the blocks of the package zones before it.
   */
  lemma {:induction false} TempBlocksIndex(c: Config, zones: seq<Zone>, ratioColor: (int, int) -> string, k: nat)
    requires k <= |zones|
    ensures |TempBlocks(c, zones, ratioColor, k)| == PackageCount(zones, k)
    ensures forall i :: 0 <= i < k && zones[i].kind == PACKAGE_ZONE ==>
      PackageCount(zones, i) < PackageCount(zones, k) &&
      TempBlocks(c, zones, ratioColor, k)[PackageCount(zones, i)] == TempBlock(c, zones[i], i == |zones| - 1, ratioColor)
  {
    if k > 0 {
      TempBlocksIndex(c, zones, ratioColor, k - 1);
      var prev := TempBlocks(c, zones, ratioColor, k - 1);
      var all := TempBlocks(c, zones, ratioColor, k);
      assert all[..|prev|] == prev;
      forall i | 0 <= i < k && zones[i].kind == PACKAGE_ZONE
        ensures PackageCount(zones, i) < PackageCount(zones, k)
        ensures all[PackageCount(zones, i)] == TempBlock(c, zones[i], i == |zones| - 1, ratioColor)
      {
        PackageCountMonotone(zones, i + 1, k);
        if i < k - 1 {
          assert all[PackageCount(zones, i)] == prev[PackageCount(zones, i)];
        }
      }
    }
  }

  /** Every temperature block shows some package zone's reading in whole degrees followed by the degree-Celsius sign. */
  lemma {:induction false} TempBlocksText(c: Config, zones: seq<Zone>, ratioColor: (int, int) -> string, k: nat)
    requires k <= |zones|
    ensures forall b :: b in TempBlocks(c, zones, ratioColor, k) ==>
      exists i :: 0 <= i < k && zones[i].kind == PACKAGE_ZONE && b.fullText == IntText(Degrees(zones[i])) + "\U{2103}"
  {
    if k > 0 {
      TempBlocksText(c, zones, ratioColor, k - 1);
    }
  }

  lemma {:induction false} PackageCountMonotone(zones: seq<Zone>, j: nat, k: nat)
    requires j <= k <= |zones|
    ensures PackageCount(zones, j) <= PackageCount(zones, k)
    decreases k - j
  {
    if j < k {
      PackageCountMonotone(zones, j, k - 1);
    }
  }

  /**
   * The final width and separator go to a temperature block only when the
   * last zone is itself a package zone; otherwise every block keeps the
   * block width and an explicit-false separator.
   */
  lemma {:induction false} TempFinalOnlyForLastZone(c: Config, zones: seq<Zone>, ratioColor: (int, int) -> string, k: nat)
    requires k <= |zones|
    requires k < |zones| || |zones| == 0 || zones[|zones| - 1].kind != PACKAGE_ZONE
    ensures forall b :: b in TempBlocks(c, zones, ratioColor, k) ==>
      b.separator == Set(false) && b.separatorBlockWidth == c.base.blockSeparatorWidth
  {
    if k > 0 {
      TempFinalOnlyForLastZone(c, zones, ratioColor, k - 1);
    }
  }

  /** makeTempBlocks. `zones` is None when listing the thermal zones fails, which yields no blocks. */
  method MakeTempBlocks(c: Config, zones: Option<seq<Zone>>, ratioColor: (int, int) -> string) returns (b: seq<Block>)
    ensures zones.None? ==> b == []
    ensures zones.Some? ==> b == TempBlocks(c, zones.value, ratioColor, |zones.value|)
  {
    b := [];
    if zones.None? {
      return;
    }
    var zs := zones.value;
    var i := 0;
    while i < |zs|
      invariant 0 <= i <= |zs|
      invariant b == TempBlocks(c, zs, ratioColor, i)
    {
      var z := zs[i];
      if z.kind != PACKAGE_ZONE {
        i := i + 1;
        continue;
      }
      var v := NewTempBlock(c, z, i == |zs| - 1, ratioColor);
      b := b + [v];
      i := i + 1;
    }
  }

  /** The body of makeTempBlocks' loop for a package zone: the block built field by field. */
  method NewTempBlock(c: Config, z: Zone, isLast: bool, ratioColor: (int, int) -> string) returns (v: Block)
    ensures v == TempBlock(c, z, isLast, ratioColor)
  {
    var temp: int64 := TruncDiv(Atoi(z.temp), 1000);
    var block := new BlockRef(c.base.blockSeparatorWidth);
    block.val := block.val.(fullText := IntText(temp) + "\U{2103}");
    var base := ToInt64(temp - c.tempGreen);
    if base < 0 {
      base := 0;
    }
    block.val := block.val.(color := TempColour(c, base, ratioColor));
    if isLast {
      Finalise(block, c.base);
    }
    v := block.val;
  }

  /** What MakeBlocks appends after the label, by monitor type. */
  function ReadingBlocks(c: Config, cpus: seq<real>, zones: Option<seq<Zone>>, getColor: real -> string, ratioColor: (int, int) -> string): seq<Block>
    requires GraphReadable(c, cpus)
  {
    if c.monitorType == "graph" || c.monitorType == "percent" then UtilBlocks(c, cpus, getColor, |cpus|)
    else if c.monitorType == "temp" then (if zones.None? then [] else TempBlocks(c, zones.value, ratioColor, |zones.value|))
    else []
  }

  /**
   * MakeBlocks: the label block, then the utilisation blocks for "graph" and
   * "percent", the temperature blocks for "temp", and nothing more for any
   * other monitor type. `cpuPercent` is the utilisation query (see
   * CpuReadings); `zones` is the thermal-zone listing.
   */
  method MakeBlocks(c: Config, cpuPercent: bool -> seq<real>, zones: Option<seq<Zone>>, getColor: real -> string, ratioColor: (int, int) -> string) returns (b: seq<Block>)
    requires GraphReadable(c, CpuReadings(c, cpuPercent))
    ensures b == LabelBlocks(c.base.labelText, c.base.blockSeparatorWidth) + ReadingBlocks(c, CpuReadings(c, cpuPercent), zones, getColor, ratioColor)
    ensures c.monitorType != "graph" && c.monitorType != "percent" && c.monitorType != "temp" ==>
      b == LabelBlocks(c.base.labelText, c.base.blockSeparatorWidth)
  {
    b := AppendLabel([], c.base.labelText, c.base.blockSeparatorWidth);
    if c.monitorType == "graph" || c.monitorType == "percent" {
      var u := MakeUtilBlocks(c, cpuPercent, getColor);
      b := b + u;
    } else if c.monitorType == "temp" {
      var t := MakeTempBlocks(c, zones, ratioColor);
      b := b + t;
    }
  }
}
