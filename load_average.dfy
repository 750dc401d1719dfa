/**
 * The load-average module: the label, then the 1, 5 and 15 minute load
 * averages, each coloured by its load per core. The core count, the load
 * query, the number formatting and the colour scale are inputs.
 */
module LoadAverage {
  import opened Wrappers
  import opened Blocks
  import opened Base

  datatype Load = Load(load1: real, load5: real, load15: real)

  /** The core count the colours divide by: the query's answer, or 1 when it fails. */
  function Cores(counts: Result<int, string>): (n: int)
    ensures counts.Failure? ==> n == 1
    ensures counts.Success? ==> n == counts.value
  {
    if counts.Failure? then 1 else counts.value
  }

  /** One load block: the formatted average coloured by its load per core. */
  function LoadBlock(width: int, avg: real, cores: int, loadText: real -> string, colour: (real, int) -> string): Block {
    NewBlock(width).(fullText := loadText(avg), color := colour(avg, cores))
  }

  /** The three reading blocks, the last one finalised. */
  function Readings(c: BaseConfig, l: Load, cores: int, loadText: real -> string, colour: (real, int) -> string): seq<Block> {
    [LoadBlock(c.blockSeparatorWidth, l.load1, cores, loadText, colour),
     LoadBlock(c.blockSeparatorWidth, l.load5, cores, loadText, colour),
     Finalised(LoadBlock(c.blockSeparatorWidth, l.load15, cores, loadText, colour), c)]
  }

  /** MakeBlocks' result. */
  function LoadBlocks(c: BaseConfig, counts: Result<int, string>, avg: Result<Load, string>,
                      loadText: real -> string, colour: (real, int) -> string): seq<Block>
  {
    LabelBlocks(c.labelText, c.blockSeparatorWidth) +
    if avg.Failure? then [] else Readings(c, avg.value, Cores(counts), loadText, colour)
  }

  /**
   * The label (when there is one) and then, when the load query succeeds,
   * exactly three blocks: 1, 5 and 15 minutes in that order. The first two
   * keep the block width and an explicit-false separator, the third has the
   * final width and the bar's default separator exactly when asked for.
   */
  lemma LoadShape(c: BaseConfig, counts: Result<int, string>, avg: Result<Load, string>,
                  loadText: real -> string, colour: (real, int) -> string)
    ensures var bs := LoadBlocks(c, counts, avg, loadText, colour);
      var l := if c.labelText == "" then 0 else 1;
      && |bs| == l + (if avg.Success? then 3 else 0)
      && (l == 1 ==> bs[0].fullText == c.labelText && bs[0].separatorBlockWidth == c.blockSeparatorWidth)
      && (avg.Success? ==>
            && bs[l].fullText == loadText(avg.value.load1)
            && bs[l + 1].fullText == loadText(avg.value.load5)
            && bs[l + 2].fullText == loadText(avg.value.load15)
            && bs[l].separator == Set(false) && bs[l].separatorBlockWidth == c.blockSeparatorWidth
            && bs[l + 1].separator == Set(false) && bs[l + 1].separatorBlockWidth == c.blockSeparatorWidth
            && bs[l + 2].separatorBlockWidth == c.finalSeparatorWidth
            && (bs[l + 2].separator == Unset <==> c.finalSeparator))
  {
  }

  /** A failed core count colours by load over 1; the blocks otherwise do not depend on it. */
  lemma CoreCountOnlyColours(c: BaseConfig, e: string, avg: Result<Load, string>,
                             loadText: real -> string, colour: (real, int) -> string)
    ensures LoadBlocks(c, Failure(e), avg, loadText, colour) == LoadBlocks(c, Success(1), avg, loadText, colour)
  {
  }

  /** A new block holding one reading: its text and its colour. */
  method NewReading(width: int, text: string, col: string) returns (v: Block)
    ensures v == NewBlock(width).(fullText := text, color := col)
  {
    var block := new BlockRef(width);
    block.val := block.val.(fullText := text);
    block.val := block.val.(color := col);
    v := block.val;
  }

  /** MakeBlocks. */
  method MakeBlocks(c: BaseConfig, counts: Result<int, string>, avg: Result<Load, string>,
                    loadText: real -> string, colour: (real, int) -> string) returns (b: seq<Block>)
    ensures b == LoadBlocks(c, counts, avg, loadText, colour)
  {
    b := AppendLabel([], c.labelText, c.blockSeparatorWidth);
    var cores := 1;
    if counts.Success? {
      cores := counts.value;
    }
    if avg.Failure? {
      return;
    }
    var l := avg.value;
    var b1 := NewReading(c.blockSeparatorWidth, loadText(l.load1), colour(l.load1, cores));
    var b5 := NewReading(c.blockSeparatorWidth, loadText(l.load5), colour(l.load5, cores));
    var text15, colour15 := loadText(l.load15), colour(l.load15, cores);
    var block := new BlockRef(c.finalSeparatorWidth);
    if c.finalSeparator {
      block.AddSeparator();
    }
    block.val := block.val.(fullText := text15);
    block.val := block.val.(color := colour15);
    b := b + [b1, b5, block.val];
  }
}
