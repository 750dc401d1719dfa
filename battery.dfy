/**
 * The battery module: the label, then one block per battery showing its
 * charge percentage or its state. Its blocks are made with the width-less
 * NewBlock, whose width `w0` is left unspecified here. The battery query, the
 * percentage text and the colour scale are inputs.
 */
module Battery {
  import opened Wrappers
  import opened Settings
  import opened Blocks
  import opened Base

  /** What the module reads of a battery. */
  datatype Info = Info(current: real, full: real, state: string)

  datatype Config = Config(base: BaseConfig, attribute: string)

  /** newBatteryConfig: `attribute` as a string, or "percent". */
  function NewBatteryConfig(mc: ModuleConfig, base: BaseConfig): (c: Config)
    ensures c.base == base
    ensures HasString(mc, "attribute") ==> c.attribute == mc["attribute"].s
    ensures !HasString(mc, "attribute") ==> c.attribute == "percent"
  {
    Config(base, StringOr(mc, "attribute", "percent"))
  }

  /** The whole percentage of current over full charge, as text. */
  function ChargeText(info: Info, percentText: (real, real) -> string): string {
    percentText(info.current, info.full)
  }

  /** The colour of the fraction of full charge left. */
  function ChargeColour(info: Info, fractionColour: (real, real) -> string): string {
    fractionColour(info.current, info.full)
  }

  /**
   * The block for one battery. "percent" shows the whole percentage of
   * current over full charge with its colour, "state" the state's name
   * uncoloured, any other attribute empty text uncoloured. `percentText`
   * and `fractionColour` stand for the float arithmetic on current and full.
   */
  function BatteryBlock(c: Config, w0: int, info: Info, percentText: (real, real) -> string, fractionColour: (real, real) -> string): Block {
    var text := if c.attribute == "percent" then ChargeText(info, percentText)
      else if c.attribute == "state" then info.state else "";
    var colour := if c.attribute == "percent" then ChargeColour(info, fractionColour) else "";
    NewBlock(w0).(fullText := text, color := colour)
  }

  /** The blocks for the first k batteries. */
  function BatteryBlocks(c: Config, w0: int, bats: seq<Info>, percentText: (real, real) -> string, fractionColour: (real, real) -> string, k: nat): seq<Block>
    requires k <= |bats|
  {
    if k == 0 then [] else BatteryBlocks(c, w0, bats, percentText, fractionColour, k - 1) + [BatteryBlock(c, w0, bats[k - 1], percentText, fractionColour)]
  }

  /** MakeBlocks' result. */
  function BatteryModuleBlocks(c: Config, w0: int, bats: Result<seq<Info>, string>, percentText: (real, real) -> string, fractionColour: (real, real) -> string): seq<Block> {
    LabelBlocks(c.base.labelText, w0) +
    if bats.Failure? then [] else BatteryBlocks(c, w0, bats.value, percentText, fractionColour, |bats.value|)
  }

  /**
   * One block per battery, in order, each with an explicit-false separator:
   * the final-separator setting is never applied. "state" and unknown
   * attributes leave the colour empty.
   */
  lemma {:induction false} BatteryBlocksShape(c: Config, w0: int, bats: seq<Info>, percentText: (real, real) -> string, fractionColour: (real, real) -> string, k: nat)
    requires k <= |bats|
    ensures |BatteryBlocks(c, w0, bats, percentText, fractionColour, k)| == k
    ensures forall i :: 0 <= i < k ==> BatteryBlocks(c, w0, bats, percentText, fractionColour, k)[i] == BatteryBlock(c, w0, bats[i], percentText, fractionColour)
    ensures forall i :: 0 <= i < k ==> BatteryBlocks(c, w0, bats, percentText, fractionColour, k)[i].separator == Set(false)
    ensures c.attribute == "state" ==> forall i :: 0 <= i < k ==>
      BatteryBlocks(c, w0, bats, percentText, fractionColour, k)[i].fullText == bats[i].state &&
      BatteryBlocks(c, w0, bats, percentText, fractionColour, k)[i].color == ""
    ensures c.attribute != "state" && c.attribute != "percent" ==> forall i :: 0 <= i < k ==>
      BatteryBlocks(c, w0, bats, percentText, fractionColour, k)[i].fullText == "" &&
      BatteryBlocks(c, w0, bats, percentText, fractionColour, k)[i].color == ""
  {
    if k > 0 {
      BatteryBlocksShape(c, w0, bats, percentText, fractionColour, k - 1);
    }
  }

  /**
   * MakeBlocks. The label block's separator is set to explicit false, and
   * so is every battery block's, because the index of a battery is never
   * equal to the number of batteries. A failed query leaves only the label.
   */
  method MakeBlocks(c: Config, w0: int, bats: Result<seq<Info>, string>, percentText: (real, real) -> string, fractionColour: (real, real) -> string) returns (b: seq<Block>)
    ensures b == BatteryModuleBlocks(c, w0, bats, percentText, fractionColour)
  {
    b := AppendLabelRemovingSeparator([], c.base.labelText, w0);
    if bats.Failure? {
      return;
    }
    var bs := bats.value;
    var i := 0;
    while i < |bs|
      invariant 0 <= i <= |bs|
      invariant b == LabelBlocks(c.base.labelText, w0) + BatteryBlocks(c, w0, bs, percentText, fractionColour, i)
    {
      var tb := bs[i];
      var text := "";
      var colour := "";
      if c.attribute == "percent" {
        text := ChargeText(tb, percentText);
        colour := ChargeColour(tb, fractionColour);
      } else if c.attribute == "state" {
        text := tb.state;
      }
      var block := new BlockRef(w0);
      block.val := block.val.(fullText := text);
      if colour != "" {
        block.val := block.val.(color := colour);
      }
      if i != |bs| {
        block.RemoveSeparator();
      }
      b := b + [block.val];
      i := i + 1;
    }
  }
}
