/**
 * The shell-command module: the label, then one block with the output of a
 * bash command, trimmed of surrounding white space. Running the command is
 * an input: the output, or the error it failed with.
 */
module ShellCommand {
  import opened Wrappers
  import opened Settings
  import opened Text
  import opened Blocks
  import opened Base

  datatype Config = Config(base: BaseConfig, cmd: string)

  /** newShellCommandConfig: `cmd` as a string, or empty. */
  function NewShellCommandConfig(mc: ModuleConfig, base: BaseConfig): (c: Config)
    ensures c.base == base
    ensures HasString(mc, "cmd") ==> c.cmd == mc["cmd"].s
    ensures !HasString(mc, "cmd") ==> c.cmd == ""
  {
    Config(base, StringOr(mc, "cmd", ""))
  }

  /** What running the configured command through bash gives: its output, or the error it failed with. */
  function CommandOutput(c: Config, run: string -> Result<string, string>): Result<string, string> {
    run(c.cmd)
  }

  /** The command block before its text is set: the final width, the default separator when asked for. */
  function CommandBlock(c: Config): Block {
    Finalised(NewBlock(c.base.finalSeparatorWidth), c.base)
  }

  /**
   * MakeBlocks' result as written: the label, then, for a non-empty command
   * that succeeds, its trimmed output. A failing command leaves only the
   * label; its error text is put in a block that is then dropped.
   */
  function ShellBlocks(c: Config, run: string -> Result<string, string>): seq<Block> {
    LabelBlocks(c.base.labelText, c.base.blockSeparatorWidth) +
    if c.cmd == "" then []
    else match CommandOutput(c, run)
      case Failure(_) => []
      case Success(out) => [CommandBlock(c).(fullText := TrimSpace(out))]
  }

  /**
   * The label first when there is one; for a command that succeeds, one
   * more block, last, whose text is the output with its leading and
   * trailing white space removed and nothing else, at the final width, with the bar's default separator
   * exactly when FinalSeparator is set.
   */
  lemma ShellShape(c: Config, run: string -> Result<string, string>)
    ensures var bs := ShellBlocks(c, run);
      var l := if c.base.labelText == "" then 0 else 1;
      && |bs| == l + (if c.cmd != "" && CommandOutput(c, run).Success? then 1 else 0)
      && (l == 1 ==> bs[0].fullText == c.base.labelText)
      && (c.cmd != "" && CommandOutput(c, run).Success? ==>
            var t := bs[l].fullText;
            && t == TrimSpace(CommandOutput(c, run).value)
            && (exists i, j {:trigger CommandOutput(c, run).value[i..j]} ::
                  && 0 <= i <= j <= |CommandOutput(c, run).value|
                  && t == CommandOutput(c, run).value[i..j]
                  && AllSpace(CommandOutput(c, run).value[..i])
                  && AllSpace(CommandOutput(c, run).value[j..]))
            && (t == [] || (!IsSpace(t[0]) && !IsSpace(t[|t| - 1])))
            && bs[l].separatorBlockWidth == c.base.finalSeparatorWidth
            && (bs[l].separator == Unset <==> c.base.finalSeparator))
  {
    if c.cmd != "" && CommandOutput(c, run).Success? {
      TrimSpaceSpec(CommandOutput(c, run).value);
    }
  }

  /** Allocates the command block, gives it the bar's default separator when asked for, and sets its text. */
  method FillBlock(c: Config, text: string) returns (v: Block)
    ensures v == CommandBlock(c).(fullText := text)
  {
    var block := new BlockRef(c.base.finalSeparatorWidth);
    if c.base.finalSeparator {
      block.AddSeparator();
    }
    block.val := block.val.(fullText := text);
    v := block.val;
  }

  /** MakeBlocks as written. */
  method MakeBlocks(c: Config, run: string -> Result<string, string>) returns (b: seq<Block>)
    ensures b == ShellBlocks(c, run)
  {
    b := AppendLabel([], c.base.labelText, c.base.blockSeparatorWidth);
    if c.cmd != "" {
      var output := CommandOutput(c, run);
      if output.Failure? {
        var dropped := FillBlock(c, output.error);
        return;
      }
      var v := FillBlock(c, TrimSpace(output.value));
      b := b + [v];
    }
  }

  /** As written, a failing command's error text never reaches the bar. */
  lemma ErrorTextDropped(c: Config, run: string -> Result<string, string>)
    requires c.cmd != "" && CommandOutput(c, run).Failure?
    ensures ShellBlocks(c, run) == LabelBlocks(c.base.labelText, c.base.blockSeparatorWidth)
    ensures forall b :: b in ShellBlocks(c, run) ==> b.fullText == c.base.labelText
  {
  }

  /** MakeBlocks as evidently intended: a failing command shows its error text in the command block. */
  function ShellBlocksIntended(c: Config, run: string -> Result<string, string>): seq<Block> {
    LabelBlocks(c.base.labelText, c.base.blockSeparatorWidth) +
    if c.cmd == "" then []
    else match CommandOutput(c, run)
      case Failure(e) => [CommandBlock(c).(fullText := e)]
      case Success(out) => [CommandBlock(c).(fullText := TrimSpace(out))]
  }

  /**
   * With the error kept, every non-empty command gets its block, last: the
   * error text on failure, the trimmed output on success; nothing else
   * differs from the code as written.
   */
  lemma IntendedShowsError(c: Config, run: string -> Result<string, string>)
    requires c.cmd != ""
    ensures var bs := ShellBlocksIntended(c, run);
      && |bs| == |LabelBlocks(c.base.labelText, c.base.blockSeparatorWidth)| + 1
      && (CommandOutput(c, run).Failure? ==> bs[|bs| - 1].fullText == CommandOutput(c, run).error)
      && (CommandOutput(c, run).Success? ==> bs == ShellBlocks(c, run))
  {
  }

  /** MakeBlocks with the error block appended. */
  method MakeBlocksIntended(c: Config, run: string -> Result<string, string>) returns (b: seq<Block>)
    ensures b == ShellBlocksIntended(c, run)
  {
    b := AppendLabel([], c.base.labelText, c.base.blockSeparatorWidth);
    if c.cmd != "" {
      var output := CommandOutput(c, run);
      var v;
      if output.Failure? {
        v := FillBlock(c, output.error);
      } else {
        v := FillBlock(c, TrimSpace(output.value));
      }
      b := b + [v];
    }
  }
}
