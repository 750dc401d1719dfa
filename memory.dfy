/**
 * The memory module: one block showing a swap or RAM statistic chosen by
 * the `attribute` key. The part of the attribute before its first `_`
 * decides which statistics are fetched; a failed fetch leaves only the
 * label. The statistics, the byte formatter and the colour scale are inputs.
 */
module Memory {
  import opened Wrappers
  import opened Settings
  import opened Text
  import opened Blocks
  import opened Base

  /** The swap statistics the module reads; `text` is the record's own string form. */
  datatype SwapStat = SwapStat(used: nat, free: nat, usedPercent: real, text: string)

  /** The virtual-memory statistics the module reads; `text` is the record's own string form. */
  datatype VirtualStat = VirtualStat(total: nat, available: nat, used: nat, free: nat, usedPercent: real, text: string)

  datatype Config = Config(base: BaseConfig, attribute: string)

  /** newMemoryConfig: `attribute` as a string, or "ram_used_percent". */
  function NewMemoryConfig(mc: ModuleConfig, base: BaseConfig): (c: Config)
    ensures c.base == base
    ensures HasString(mc, "attribute") ==> c.attribute == mc["attribute"].s
    ensures !HasString(mc, "attribute") ==> c.attribute == "ram_used_percent"
  {
    Config(base, StringOr(mc, "attribute", "ram_used_percent"))
  }

  /** The statistic family an attribute names: its text before the first `_`. */
  function Source(attribute: string): string {
    FirstField(attribute, '_')
  }

  /** Every swap attribute name belongs to the swap family. */
  lemma SwapName(attribute: string)
    requires attribute == "swap_used" || attribute == "swap_free" || attribute == "swap_used_percent" || attribute == "swap_string"
    ensures Source(attribute) == "swap"
  {
    if attribute == "swap_used" {
      FirstFieldPrefix(attribute, '_', "swap");
    } else if attribute == "swap_free" {
      FirstFieldPrefix(attribute, '_', "swap");
    } else if attribute == "swap_used_percent" {
      FirstFieldPrefix(attribute, '_', "swap");
    } else {
      FirstFieldPrefix(attribute, '_', "swap");
    }
  }

  /** Every RAM attribute name belongs to the RAM family. */
  lemma RamName(attribute: string)
    requires || attribute == "ram_total" || attribute == "ram_available" || attribute == "ram_used"
             || attribute == "ram_used_percent" || attribute == "ram_free" || attribute == "ram_string"
    ensures Source(attribute) == "ram"
  {
    if attribute == "ram_total" {
      FirstFieldPrefix(attribute, '_', "ram");
    } else if attribute == "ram_available" {
      FirstFieldPrefix(attribute, '_', "ram");
    } else if attribute == "ram_used" {
      FirstFieldPrefix(attribute, '_', "ram");
    } else if attribute == "ram_used_percent" {
      FirstFieldPrefix(attribute, '_', "ram");
    } else if attribute == "ram_free" {
      FirstFieldPrefix(attribute, '_', "ram");
    } else {
      FirstFieldPrefix(attribute, '_', "ram");
    }
  }

  /** `fmt.Sprintf("%v%%", int(p))`: the whole part of a percentage and a percent sign. */
  function PercentText(p: real): string {
    IntText(TruncReal(p)) + "%"
  }

  /**
   * The text of the data block. Each case reads only the record its family
   * fetched; the preconditions say a record is there when its family is
   * selected, and nothing else.
   */
  function AttributeText(attribute: string, swp: Option<SwapStat>, ram: Option<VirtualStat>, ibytes: nat -> string): string
    requires Source(attribute) == "swap" ==> swp.Some?
    requires Source(attribute) == "ram" ==> ram.Some?
  {
    if attribute == "swap_used" then SwapName(attribute); ibytes(swp.value.used)
    else if attribute == "swap_free" then SwapName(attribute); ibytes(swp.value.free)
    else if attribute == "swap_used_percent" then SwapName(attribute); PercentText(swp.value.usedPercent)
    else if attribute == "swap_string" then SwapName(attribute); swp.value.text
    else if attribute == "ram_total" then RamName(attribute); ibytes(ram.value.total)
    else if attribute == "ram_available" then RamName(attribute); ibytes(ram.value.available)
    else if attribute == "ram_used" then RamName(attribute); ibytes(ram.value.used)
    else if attribute == "ram_used_percent" then RamName(attribute); PercentText(ram.value.usedPercent)
    else if attribute == "ram_free" then RamName(attribute); ibytes(ram.value.free)
    else if attribute == "ram_string" then RamName(attribute); ram.value.text
    else ""
  }

  /** Whether the fetch the attribute's family needs failed. */
  predicate FetchFailed(c: Config, swap: Result<SwapStat, string>, ram: Result<VirtualStat, string>) {
    (Source(c.attribute) == "swap" && swap.Failure?) || (Source(c.attribute) == "ram" && ram.Failure?)
  }

  /** The data block when its fetch succeeded. */
  function DataBlock(c: Config, swap: Result<SwapStat, string>, ram: Result<VirtualStat, string>, ibytes: nat -> string, getColor: real -> string): Block
    requires !FetchFailed(c, swap, ram)
  {
    var src := Source(c.attribute);
    var swp := if src == "swap" then Some(swap.value) else None;
    var vm := if src == "ram" then Some(ram.value) else None;
    var colour :=
      if src == "swap" then PercentColour(getColor, swap.value.usedPercent)
      else if src == "ram" then PercentColour(getColor, ram.value.usedPercent)
      else "";
    Finalised(NewBlock(c.base.finalSeparatorWidth), c.base).(color := colour, fullText := AttributeText(c.attribute, swp, vm, ibytes))
  }

  /** MakeBlocks' result: the label, then the data block unless its fetch failed. */
  function MemoryBlocks(c: Config, swap: Result<SwapStat, string>, ram: Result<VirtualStat, string>, ibytes: nat -> string, getColor: real -> string): seq<Block> {
    LabelBlocks(c.base.labelText, c.base.blockSeparatorWidth) +
    if FetchFailed(c, swap, ram) then [] else [DataBlock(c, swap, ram, ibytes, getColor)]
  }

  /**
   * The label comes first when there is one; the data block, when there is
   * one, comes last, at the final width, with the bar's default separator
   * exactly when FinalSeparator is set.
   */
  lemma MemoryShape(c: Config, swap: Result<SwapStat, string>, ram: Result<VirtualStat, string>, ibytes: nat -> string, getColor: real -> string)
    ensures var bs := MemoryBlocks(c, swap, ram, ibytes, getColor);
      var l := if c.base.labelText == "" then 0 else 1;
      && |bs| == l + (if FetchFailed(c, swap, ram) then 0 else 1)
      && (l == 1 ==> bs[0].fullText == c.base.labelText)
      && (!FetchFailed(c, swap, ram) ==>
            bs[l].separatorBlockWidth == c.base.finalSeparatorWidth
            && (bs[l].separator == Unset <==> c.base.finalSeparator))
  {
  }

  /**
   * The swap statistics matter only to a swap attribute and the RAM
   * statistics only to a RAM attribute: any other attribute gives the same
   * blocks whatever those fetches would have returned.
   */
  lemma OnlySelectedSourceRead(c: Config, swap: Result<SwapStat, string>, swap': Result<SwapStat, string>,
                               ram: Result<VirtualStat, string>, ram': Result<VirtualStat, string>,
                               ibytes: nat -> string, getColor: real -> string)
    ensures Source(c.attribute) != "swap" ==> MemoryBlocks(c, swap, ram, ibytes, getColor) == MemoryBlocks(c, swap', ram, ibytes, getColor)
    ensures Source(c.attribute) != "ram" ==> MemoryBlocks(c, swap, ram, ibytes, getColor) == MemoryBlocks(c, swap, ram', ibytes, getColor)
  {
  }

  /** An attribute the module does not know still gives a data block, with empty text. */
  lemma UnknownAttributeEmpty(c: Config, swap: Result<SwapStat, string>, ram: Result<VirtualStat, string>, ibytes: nat -> string, getColor: real -> string)
    requires !FetchFailed(c, swap, ram)
    requires c.attribute !in {"swap_used", "swap_free", "swap_used_percent", "swap_string", "ram_total",
                              "ram_available", "ram_used", "ram_used_percent", "ram_free", "ram_string"}
    ensures DataBlock(c, swap, ram, ibytes, getColor).fullText == ""
  {
  }

  /**
   * The default attribute reads the RAM statistics, whatever the swap fetch
   * gives, and shows the whole RAM percentage followed by `%`.
   */
  lemma DefaultAttribute(base: BaseConfig, swap: Result<SwapStat, string>, ram: VirtualStat, ibytes: nat -> string, getColor: real -> string)
    ensures Source(NewMemoryConfig(map[], base).attribute) == "ram"
    ensures var c := NewMemoryConfig(map[], base);
      DataBlock(c, swap, Success(ram), ibytes, getColor).fullText == IntText(TruncReal(ram.usedPercent)) + "%"
  {
    RamName("ram_used_percent");
  }

  /**
   * MakeBlocks: the label, then a block at the final width built field by
   * field. Only the family the attribute names is fetched, and its failure
   * returns what has been built so far.
   */
  method MakeBlocks(c: Config, swapQuery: Result<SwapStat, string>, ramQuery: Result<VirtualStat, string>, ibytes: nat -> string, getColor: real -> string) returns (b: seq<Block>)
    ensures b == MemoryBlocks(c, swapQuery, ramQuery, ibytes, getColor)
  {
    b := AppendLabel([], c.base.labelText, c.base.blockSeparatorWidth);
    var block := new BlockRef(c.base.finalSeparatorWidth);
    if c.base.finalSeparator {
      block.AddSeparator();
    }
    var swp: Option<SwapStat> := None;
    if Source(c.attribute) == "swap" {
      if swapQuery.Failure? {
        return;
      }
      swp := Some(swapQuery.value);
      block.val := block.val.(color := PercentColour(getColor, swp.value.usedPercent));
    }
    var ram: Option<VirtualStat> := None;
    if Source(c.attribute) == "ram" {
      if ramQuery.Failure? {
        return;
      }
      ram := Some(ramQuery.value);
      block.val := block.val.(color := PercentColour(getColor, ram.value.usedPercent));
    }
    block.val := block.val.(fullText := AttributeText(c.attribute, swp, ram, ibytes));
    b := b + [block.val];
  }
}
