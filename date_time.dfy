/**
 * The date-time module: the label, then the current time in a configured
 * zone and layout. Its blocks are made with the width-less NewBlock, whose
 * width `w0` is left unspecified here. The zone database, the clock and the
 * time formatter are inputs.
 */
module DateTime {
  import opened Settings
  import opened Blocks
  import opened Base

  /** A time zone by its database name; "Local" is the system's zone. */
  datatype Location = Location(name: string)

  const LOCAL: Location := Location("Local")

  datatype Config = Config(base: BaseConfig, format: string, location: Location)

  /**
   * newDateTimeConfig: `format` as a string or empty; `timezone` as a string
   * or "Local", loaded when `loadable` says the zone database knows it and
   * replaced by the local zone when it does not.
   */
  function NewDateTimeConfig(mc: ModuleConfig, base: BaseConfig, loadable: string -> bool): (c: Config)
    ensures c.base == base
    ensures HasString(mc, "format") ==> c.format == mc["format"].s
    ensures !HasString(mc, "format") ==> c.format == ""
    ensures !HasString(mc, "timezone") ==> c.location == LOCAL
    ensures HasString(mc, "timezone") && loadable(mc["timezone"].s) ==> c.location == Location(mc["timezone"].s)
    ensures c.location == LOCAL || loadable(c.location.name)
  {
    var timezone := StringOr(mc, "timezone", "Local");
    var loc := if loadable(timezone) then Location(timezone) else LOCAL;
    Config(base, StringOr(mc, "format", ""), loc)
  }

  /** A zone the database cannot load falls back to the local zone. */
  lemma UnknownZoneIsLocal(mc: ModuleConfig, base: BaseConfig, loadable: string -> bool)
    requires HasString(mc, "timezone") && !loadable(mc["timezone"].s)
    ensures NewDateTimeConfig(mc, base, loadable).location == LOCAL
  {
  }

  /** MakeBlocks' result: the label with an explicit-false separator, then the formatted time. */
  function DateTimeBlocks(c: Config, w0: int, now: int, timeFormat: (int, Location, string) -> string): seq<Block> {
    LabelBlocks(c.base.labelText, w0) + [NewBlock(w0).(fullText := timeFormat(now, c.location, c.format))]
  }

  /**
   * Exactly one time block follows the optional label, and it shows the
   * time in the configured zone and layout.
   */
  lemma DateTimeShape(c: Config, w0: int, now: int, timeFormat: (int, Location, string) -> string)
    ensures var bs := DateTimeBlocks(c, w0, now, timeFormat);
      var l := if c.base.labelText == "" then 0 else 1;
      && |bs| == l + 1
      && (l == 1 ==> bs[0].fullText == c.base.labelText && bs[0].separator == Set(false))
      && bs[l].fullText == timeFormat(now, c.location, c.format)
  {
  }

  /** MakeBlocks. `now` is the clock reading. */
  method MakeBlocks(c: Config, w0: int, now: int, timeFormat: (int, Location, string) -> string) returns (b: seq<Block>)
    ensures b == DateTimeBlocks(c, w0, now, timeFormat)
  {
    b := AppendLabelRemovingSeparator([], c.base.labelText, w0);
    var block := new BlockRef(w0);
    block.val := block.val.(fullText := timeFormat(now, c.location, c.format));
    b := b + [block.val];
  }
}
