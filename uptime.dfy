/**
 * The uptime module: the label, then the time since boot laid out by a
 * duration format. The format "default" picks a layout that starts at the
 * largest non-zero unit. The uptime query and the duration formatter are
 * inputs.
 */
module Uptime {
  import opened Wrappers
  import opened Settings
  import opened Blocks
  import opened Base
  import Text

  const TWO_TO_63: int := 0x8000_0000_0000_0000

  const SECOND: int := 1_000_000_000

  /** `time.Duration(int64(ut)) * time.Second`: seconds to nanoseconds in 64-bit arithmetic. */
  function UptimeDuration(ut: nat): int {
    Text.ToInt64(Text.ToInt64(ut) * SECOND)
  }

  /** Up to about 292 years the duration is exact. */
  lemma DurationExact(ut: nat)
    requires ut * SECOND < TWO_TO_63
    ensures UptimeDuration(ut) == ut * SECOND
  {
  }

  /**
   * The duration formatter: the text and the error it returns for a
   * duration and a format.
   */
  type DurationFormat = (int, string) -> (string, Option<string>)

  const FULL_FORMAT: string := "%yy%ww%dd%hh%mm%ss"

  /**
   * getFormat: the layout that starts at the largest unit whose count is not
   * zero, going down from years through weeks, days and hours to minutes.
   */
  function GetFormat(d: int, durfmt: DurationFormat): (f: string)
    ensures f in {"%yy%ww%dd%hh%mm%ss", "%ww%dd%hh%mm%ss", "%dd%hh%mm%ss", "%hh%mm%ss", "%mm%ss"}
    ensures (f == FULL_FORMAT) <==> durfmt(d, "%yy").0 != "0y"
    ensures (f == "%ww%dd%hh%mm%ss") <==> durfmt(d, "%yy").0 == "0y" && durfmt(d, "%ww").0 != "0w"
    ensures (f == "%dd%hh%mm%ss") <==> durfmt(d, "%yy").0 == "0y" && durfmt(d, "%ww").0 == "0w" && durfmt(d, "%dd").0 != "0d"
    ensures (f == "%hh%mm%ss") <==> durfmt(d, "%yy").0 == "0y" && durfmt(d, "%ww").0 == "0w" && durfmt(d, "%dd").0 == "0d" && durfmt(d, "%hh").0 != "0h"
  {
    if durfmt(d, "%yy").0 != "0y" then "%yy%ww%dd%hh%mm%ss"
    else if durfmt(d, "%ww").0 != "0w" then "%ww%dd%hh%mm%ss"
    else if durfmt(d, "%dd").0 != "0d" then "%dd%hh%mm%ss"
    else if durfmt(d, "%hh").0 != "0h" then "%hh%mm%ss"
    else "%mm%ss"
  }

  /** Every layout getFormat picks is a tail of the full layout and ends with minutes and seconds. */
  lemma GetFormatIsTail(d: int, durfmt: DurationFormat)
    ensures var f := GetFormat(d, durfmt);
      && 6 <= |f| <= |FULL_FORMAT|
      && f == FULL_FORMAT[|FULL_FORMAT| - |f|..]
      && f[|f| - 6..] == "%mm%ss"
  {
    var f := GetFormat(d, durfmt);
    if f == "%yy%ww%dd%hh%mm%ss" {
    } else if f == "%ww%dd%hh%mm%ss" {
      assert FULL_FORMAT[3..] == f;
    } else if f == "%dd%hh%mm%ss" {
      assert FULL_FORMAT[6..] == f;
    } else if f == "%hh%mm%ss" {
      assert FULL_FORMAT[9..] == f;
    } else {
      assert FULL_FORMAT[12..] == f;
    }
  }

  datatype Config = Config(base: BaseConfig, format: string)

  /** newUptimeConfig as written: `format` as a string, or the literal "deafult". */
  function NewUptimeConfig(mc: ModuleConfig, base: BaseConfig): (c: Config)
    ensures c.base == base
    ensures HasString(mc, "format") ==> c.format == mc["format"].s
    ensures !HasString(mc, "format") ==> c.format == "deafult"
  {
    Config(base, StringOr(mc, "format", "deafult"))
  }

  /** The layout handed to the formatter: getFormat's choice for exactly "default", the configured text otherwise. */
  function EffectiveFormat(c: Config, d: int, durfmt: DurationFormat): (f: string)
    ensures c.format == "default" ==> f == GetFormat(d, durfmt)
    ensures c.format != "default" ==> f == c.format
  {
    if c.format == "default" then GetFormat(d, durfmt) else c.format
  }

  /** The uptime block's text: the formatted duration, or the formatter's error message. */
  function UptimeText(c: Config, ut: nat, durfmt: DurationFormat): string {
    var d := UptimeDuration(ut);
    var r := durfmt(d, EffectiveFormat(c, d, durfmt));
    if r.1.Some? then r.1.value else r.0
  }

  /** MakeBlocks' result. */
  function UptimeBlocks(c: Config, w0: int, uptime: Result<nat, string>, durfmt: DurationFormat): seq<Block> {
    LabelBlocks(c.base.labelText, w0) +
    if uptime.Failure? then [] else [NewBlock(w0).(fullText := UptimeText(c, uptime.value, durfmt))]
  }

  /**
   * The label first when there is one, then, unless the uptime query fails,
   * one block that is appended even when formatting fails, showing the error
   * message in that case.
   */
  lemma UptimeShape(c: Config, w0: int, uptime: Result<nat, string>, durfmt: DurationFormat)
    ensures var bs := UptimeBlocks(c, w0, uptime, durfmt);
      var l := if c.base.labelText == "" then 0 else 1;
      && |bs| == l + (if uptime.Success? then 1 else 0)
      && (l == 1 ==> bs[0].fullText == c.base.labelText && bs[0].separator == Set(false))
      && (uptime.Success? ==>
            var d := UptimeDuration(uptime.value);
            var r := durfmt(d, EffectiveFormat(c, d, durfmt));
            bs[l].fullText == (if r.1.Some? then r.1.value else r.0))
  {
  }

  /**
   * As written, a configuration without `format` never reaches getFormat:
   * the formatter is handed the literal "deafult" whatever the uptime.
   */
  lemma MissingFormatIsLiteral(base: BaseConfig, ut: nat, durfmt: DurationFormat)
    ensures var c := NewUptimeConfig(map[], base);
      var d := UptimeDuration(ut);
      EffectiveFormat(c, d, durfmt) == "deafult" && EffectiveFormat(c, d, durfmt) != GetFormat(d, durfmt)
  {
  }

  /** newUptimeConfig as evidently intended: a missing `format` means "default". */
  function NewUptimeConfigIntended(mc: ModuleConfig, base: BaseConfig): (c: Config)
    ensures c.base == base
    ensures HasString(mc, "format") ==> c.format == mc["format"].s
    ensures !HasString(mc, "format") ==> c.format == "default"
  {
    Config(base, StringOr(mc, "format", "default"))
  }

  /** With the intended default, a configuration without `format` gets getFormat's layout. */
  lemma MissingFormatUsesGetFormat(mc: ModuleConfig, base: BaseConfig, ut: nat, durfmt: DurationFormat)
    requires !HasString(mc, "format")
    ensures var c := NewUptimeConfigIntended(mc, base);
      var d := UptimeDuration(ut);
      EffectiveFormat(c, d, durfmt) == GetFormat(d, durfmt)
  {
  }

  /** MakeBlocks. The block is made before the query, and dropped when the query fails. */
  method MakeBlocks(c: Config, w0: int, uptime: Result<nat, string>, durfmt: DurationFormat) returns (b: seq<Block>)
    ensures b == UptimeBlocks(c, w0, uptime, durfmt)
  {
    b := AppendLabelRemovingSeparator([], c.base.labelText, w0);
    var block := new BlockRef(w0);
    if uptime.Failure? {
      return;
    }
    var d := UptimeDuration(uptime.value);
    var format := c.format;
    if c.format == "default" {
      format := GetFormat(d, durfmt);
    }
    var r := durfmt(d, format);
    block.val := block.val.(fullText := r.0);
    if r.1.Some? {
      block.val := block.val.(fullText := r.1.value);
    }
    b := b + [block.val];
  }
}
