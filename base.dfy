/**
 * What every module shares: the base configuration (label, separator widths,
 * whether the last block keeps the bar's default separator), the optional
 * label block that opens a module's output, and the treatment of the block
 * that closes it. The base configuration is decoded by code outside this
 * model and is taken as given.
 */
module Base {
  import opened Blocks

  datatype BaseConfig = BaseConfig(
    labelText: string,
    blockSeparatorWidth: int,
    finalSeparatorWidth: int,
    finalSeparator: bool)

  /** The label block, if the label is not empty: its text, an explicit-false separator and the given width. */
  function LabelBlocks(labelText: string, width: int): (bs: seq<Block>)
    ensures |bs| == (if labelText == "" then 0 else 1)
    ensures labelText != "" ==> bs[0].fullText == labelText && bs[0].separator == Set(false) && bs[0].separatorBlockWidth == width
    ensures labelText != "" ==> bs[0].(fullText := "") == NewBlock(width)
  {
    if labelText == "" then [] else [NewBlock(width).(fullText := labelText)]
  }

  /**
   * Appends the label block when there is a label: a new block at `width`
   * whose text is the labelText.
   */
  method AppendLabel(b: seq<Block>, labelText: string, width: int) returns (b': seq<Block>)
    ensures b' == b + LabelBlocks(labelText, width)
  {
    b' := b;
    if labelText != "" {
      var block := new BlockRef(width);
      block.val := block.val.(fullText := labelText);
      b' := b' + [block.val];
    }
  }

  /**
   * The label as the modules that call NewBlock without a width build it:
   * the same block, with RemoveSeparator called on it, which keeps the
   * explicit false NewBlock already set.
   */
  method AppendLabelRemovingSeparator(b: seq<Block>, labelText: string, width: int) returns (b': seq<Block>)
    ensures b' == b + LabelBlocks(labelText, width)
  {
    b' := b;
    if labelText != "" {
      var block := new BlockRef(width);
      block.val := block.val.(fullText := labelText);
      block.RemoveSeparator();
      b' := b' + [block.val];
    }
  }

  /**
   * The last block of a module's output: the final separator width and,
   * when `finalSeparator` is set, the bar's default separator.
   */
  function Finalised(b: Block, c: BaseConfig): (r: Block)
    ensures r.separatorBlockWidth == c.finalSeparatorWidth
    ensures c.finalSeparator ==> r.separator == Unset
    ensures !c.finalSeparator ==> r.separator == b.separator
    ensures r.(separator := b.separator, separatorBlockWidth := b.separatorBlockWidth) == b
  {
    b.(separatorBlockWidth := c.finalSeparatorWidth, separator := if c.finalSeparator then Unset else b.separator)
  }

  /** Gives a block under construction the final width and, when asked for, the default separator. */
  method Finalise(r: BlockRef, c: BaseConfig)
    modifies r
    ensures r.val == Finalised(old(r.val), c)
  {
    r.val := r.val.(separatorBlockWidth := c.finalSeparatorWidth);
    if c.finalSeparator {
      r.AddSeparator();
    }
  }

  /**
   * The colour of a percentage: the colour scale applied to the percentage
   * taken as a fraction of one. The scale itself works on floating point and
   * is an input.
   */
  function PercentColour(getColor: real -> string, percent: real): string {
    getColor(percent / 100.0)
  }

  /** A block made by NewBlock and then finalised ends with the bar's default separator exactly when asked to. */
  lemma FinalisedSeparator(w: int, c: BaseConfig, b: Block)
    requires b.separator == NewBlock(w).separator
    ensures Finalised(b, c).separator == Unset <==> c.finalSeparator
    ensures !c.finalSeparator ==> Finalised(b, c).separator == Set(false)
  {
  }
}
