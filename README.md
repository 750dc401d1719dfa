# goi3status in Dafny

goi3status is a status-line generator for the i3 window manager's bar. It
speaks version 1 of the i3bar protocol. A YAML file declares a list of
modules: CPU, Memory, LoadAverage, Network, Battery, ShellCommand, DateTime
and Uptime. Each module periodically builds an ordered list of *blocks*, the
segments of the bar. The status bar keeps one cache slot per module and drains
the modules' updates into those slots. Whenever a slot changes, it writes the
concatenation of all slots to standard output as one more element of an
endless JSON array.

This project models that core in Dafny and proves what it promises.

- **Blocks** (`blocks.dfy`). The block record has a three-state separator:
  nil, explicit false, or explicit true. `NewBlock`, `AddSeparator` and
  `RemoveSeparator` are modelled on a `BlockRef` class that stands for the Go
  `*Block`. The file also models the `omitempty` rules that decide which
  fields reach the JSON.
- **Header** (`header.dfy`). The header record and its serialisation. The
  version is always written, the optional fields only when set, and the
  module list never.
- **JSON** (`json.dfy`). A small model of encoding/json's output for the
  kinds the core uses: strings, ints, bools and `*bool`. Struct fields are
  written in declaration order.
- **Stream** (`stream.dfy`). The lines written to standard output: the header
  line, a `[` line, then one line per frame, each a JSON array followed by a
  comma. The array is never closed. A line reader gets every line back as it
  was written.
- **Status** (`status.dfy`):
  - module resolution through the registry;
  - the cache, an array of block lists with one slot per module;
  - `updateCache` as a non-blocking drain over per-module queues of pending
    values;
  - `flattenCache`;
  - one render step.

  A `Status` class holds the cache and the text written so far. Its invariant
  ties that text to the protocol layout.
- **Registry** (`registry.dfy`). The package-level map from module name to
  constructor, `addModMap` and `GetModule`.
- **Base** (`base.dfy`). What every module shares: the optional label block
  first, and the final width and separator given to a module's last block.
- **The eight modules** (`cpu.dfy`, `memory.dfy`, `load_average.dfy`,
  `network.dfy`, `battery.dfy`, `shell_command.dfy`, `date_time.dfy`,
  `uptime.dfy`). Each has its `newXConfig` default-filling and its
  `MakeBlocks`. Every system reading is an explicit input: an `Option` or
  `Result` where the Go code checks an error. Each `MakeBlocks` is a method
  that builds the list the way the Go code does. Each is proved equal to a
  specification function, and lemmas about that function state the shape of
  the output.
- **Text** (`text.dfy`). Go's behaviour where it matters:
  - `%v` on integers;
  - `strconv.Atoi` with its error ignored;
  - truncating `/` and `int(float)`;
  - `strings.TrimSpace`;
  - the first field of `strings.Split`.

  Wrap-around is explicit: 64-bit unsigned subtraction in the network
  module, int64 conversion in the uptime module, and the two int64
  subtractions of the CPU temperature colour. Whole numbers in a module
  configuration are Go ints, 64 bits wide.

Floating-point colour and number formatting, time zones, human-readable byte
sizes, the duration formatter and running a command are not modelled. They
are all function-typed parameters.

One might expect the latest value a module produced to win at each drain.
`updateCache` instead takes at most one value per module per pass: the one
that is ready, which is the oldest one pending when the module's channel is
buffered. `Status.Status.UpdateCache` states exactly that.

## Model

| member | source | states |
|---|---|---|
| Blocks.NewBlock | types/block.go:26-33 | The separator is explicit false, the separator width is the argument, and every other field is at its zero value. |
| Blocks.BlockRef.constructor | types/block.go:26-33 | A freshly allocated block holds exactly NewBlock's value. |
| Blocks.BlockRef.AddSeparator | types/block.go:37-39 | The separator becomes nil (the bar's default) and no other field changes. |
| Blocks.BlockRef.RemoveSeparator | types/block.go:42-46 | The separator becomes explicit false and no other field changes. |
| Blocks.SeparatorMoves | types/block.go:37-46 | From a new block: AddSeparator gives a nil separator and nothing else changed, a second AddSeparator changes nothing, RemoveSeparator then gives back NewBlock's block, and a second RemoveSeparator changes nothing. |
| Blocks.MarshalMembers | types/block.go:4-23 | Any listed fields give a member for a key exactly when that field is listed and written, and the member carries the field's encoded value. |
| Blocks.Fields | types/block.go:4-23 | A block's JSON members: one per field that is not omitted as empty, with its encoded value. |
| Blocks.BlockText | types/block.go:4-23 | The serialised block contains no control character, so it fits on one line. |
| Blocks.FullTextAlways | types/block.go:5 | `full_text` is written even when empty, and only with the block's text. |
| Blocks.SeparatorField | types/block.go:19-20 | `separator` is written exactly when the pointer is set, with its value; explicit false is written as false. |
| Blocks.OmitEmptyStrings | types/block.go:6-22 | Every string field other than `full_text` is written exactly when it is non-empty, with its value. |
| Blocks.OmitEmptyNumbers | types/block.go:10-21 | Every int and bool field is written exactly when it is non-zero or true, with its value. |
| Blocks.SeparatorOnTheWire | types/block.go:26-39 | NewBlock(w) writes `"separator":false` and, for w not 0, its width; after AddSeparator no `separator` member is written. |
| Json.TaggedField | types/block.go:6 | A tagged field gives at most one member, none exactly when the tag has `omitempty` and the value is empty, otherwise key and encoded value. |
| Header.MarshalMembers | types/config.go:4-10 | Any listed header fields give a member exactly when that field is listed and written, with its encoded value. |
| Header.MarshalReadsFields | types/config.go:9 | Two records with the same serialised fields marshal alike. |
| Header.Fields | types/config.go:4-10 | The header's members: one per written field with its encoded value. |
| Header.HeaderText | types/config.go:4-10 | The header is a single-line JSON object, starting with `{` and ending with `}`. |
| Header.VersionAlways | types/config.go:5 | `version` is always written, 0 included, and only with the record's version. |
| Header.OptionalFields | types/config.go:6-8 | `stop_signal`, `cont_signal` and `click_events` are written exactly when non-zero or true, with their values. |
| Header.ModulesNeverWritten | types/config.go:9 | Changing the module list never changes the header line. |
| Header.ProtocolHeader | main.go:32 | The header written has version 1 and otherwise equals the decoded configuration. |
| Header.AnnouncesVersionOne | main.go:30-32 | The header line always contains `"version":1`. |
| Stream.UnlinesCons | status.go:76-78 | Writing a line and then the rest leaves the line, a newline, then the rest. |
| Stream.LinesUnlines | status.go:76-78 | Lines without newlines are read back from the stream exactly as written. |
| Stream.PrintableOneLine | status.go:57-70 | Serialised JSON never contains a newline. |
| Stream.FrameText | status.go:65 | A frame is a single-line JSON array, starting with `[` and ending with `]`. |
| Stream.FrameLine | status.go:70 | The line written for a frame (the array and a comma) contains no control character, so it stays one line. |
| Stream.StreamOpened | status.go:57-58 | Before any frame, the stream is exactly the header line and the `[` line. |
| Stream.StreamLinesOneLine | status.go:51-78 | No line of the stream contains a newline. |
| Stream.ProtocolLayout | status.go:51-78 | A reader gets back exactly: the header, `[`, then for each frame its array followed by a comma, in rendering order. |
| Stream.NeverClosed | status.go:51-78 | No line of the stream is the closing `]`. |
| Stream.StreamLinesSnoc | status.go:60-72 | One more frame adds exactly its frame line at the end and keeps every earlier line. |
| Stream.StreamGrows | status.go:64-71 | Rendering one more frame appends exactly its line and a newline to what was written. |
| Status.ResolvedFatal | status.go:25-29 | Resolution fails exactly when some declaration has no string `name`, and then with "module name not defined". |
| Status.ResolvedOrder | status.go:25-37 | On success: one module per declaration whose name is registered, in declaration order, each built from its own `config`; rejected names are skipped. |
| Status.FatalPrefix | status.go:25-29 | Once a prefix of the declarations is fatal, the whole list resolves to the same failure. |
| Status.ResolveModules | status.go:24-37 | The resolution loop computes exactly the resolution function. |
| Status.FlattenLength | status.go:80-89 | The flattened cache is as long as all the slots together. |
| Status.FlattenPrefix | status.go:80-89 | Flattening a prefix of the slots gives a prefix of the flattened cache. |
| Status.FlattenIndex | status.go:80-89 | Block j of slot i sits right after all the blocks of the earlier slots: order is module order, then block order. |
| Status.Status.constructor | status.go:38-58 | The cache has one empty slot per module, and the stream holds only the header and `[` lines. |
| Status.Status.Write | status.go:76-78 | Writing a line appends it and a newline to standard output. |
| Status.Status.UpdateCache | status.go:110-121 | A slot is replaced by its module's oldest pending value when one is pending, and kept otherwise. At most one value per module is taken. The result is true exactly when some module had a value. The modules and the cache length do not change. |
| Status.Status.FlattenCache | status.go:80-89 | The result is the concatenation of the slots, in order. |
| Status.Status.RenderFrame | status.go:64-71 | Exactly one frame line, for the current flattened cache, is appended, and the stream keeps the protocol layout. |
| Status.Status.Step | status.go:91-101 | One drain, then a frame exactly when some slot was replaced; a pass with nothing pending writes nothing. |
| Status.NewStatus | status.go:23-48 | Fails with "module name not defined" exactly when resolution is fatal. Otherwise it holds the resolved modules and `c` as its configuration, the stream is opened with `c`'s header line and the "[" line, and after the first drain each slot holds its module's oldest value sent during construction, or nothing. |
| Registry.GetModule | modules/init.go:18-25 | A registered name gives its constructor applied to the config. Any other name gives the error "no module named N is registered" and no module. |
| Registry.Modules.constructor | modules/init.go:11-15 | After the modules' init functions the registry holds exactly the eight built-in names. |
| Registry.Modules.AddModMap | modules/init.go:13-15 | The name now maps to the new constructor, replacing any earlier entry, and every other name's look-up is unchanged. |
| Registry.AddThenGet | modules/init.go:13-24 | A look-up after registering gives the new constructor for that name and the old answer for every other name. |
| Registry.BuiltinLookup | modules/init.go:11-24 | For every name: it resolves exactly when one of the eight module kinds registers under it, and then to that kind's constructor. Every other name, other spellings included, gives the not-registered error. |
| Base.LabelBlocks | modules/cpu.go:105-109 | A label block exists exactly when the label is non-empty: its text, an explicit-false separator, the given width, and nothing else set. |
| Base.AppendLabel | modules/cpu.go:104-109 | Building the label block field by field appends exactly the label blocks. |
| Base.AppendLabelRemovingSeparator | modules/battery.go:69-74 | Calling RemoveSeparator on the label block leaves the same label blocks. |
| Base.Finalised | modules/cpu.go:166-171 | The last block gets the final width, and a nil separator exactly when FinalSeparator is set; nothing else changes. |
| Base.Finalise | modules/cpu.go:166-171 | The in-place final treatment gives exactly the finalised block. |
| Base.FinalisedSeparator | modules/cpu.go:166-171 | A finalised new block has a nil separator exactly when FinalSeparator is set, and explicit false otherwise. |
| Text.IntText | modules/cpu.go:138 | `%v` of an integer is non-empty, made of digits with at most a leading minus. |
| Text.Atoi | modules/cpu.go:135 | The result lies within int64. Any text that is not an optionally signed numeral gives 0, including a lone sign or a sign before other text. A numeral gives its decimal value with the sign applied, held at the nearest int64 bound when it does not fit. |
| Text.AtoiIntText | modules/cpu.go:135-138 | Reading back a printed int64 gives the same number. |
| Text.TruncDiv | modules/cpu.go:136 | Integer division truncates toward zero: the remainder a - q*b is less than b in size and has the sign of a (zero included). |
| Text.ToInt64 | modules/uptime.go:84 | int64 conversion keeps values in range and wraps others modulo 2^64. |
| Text.TruncReal | modules/cpu.go:183 | `int(x)` truncates toward zero: within one of x, on the side of zero. |
| Text.TrimSpaceSpec | modules/shell_command.go:87 | The trimmed text is a contiguous middle of the input. Only white space is dropped around it, and none is left at either end. |
| Text.TrimSpaceIdempotent | modules/shell_command.go:87 | Trimming twice is trimming once. |
| Text.FirstField | modules/memory.go:85 | The result is a separator-free prefix of the text, followed by the separator or by the end of the text. |
| Text.FirstFieldOf | modules/memory.go:85 | A separator-free prefix followed by the separator is the first field. |
| CPU.NewCPUConfig | modules/cpu.go:33-62 | Each key is taken when it has the right type; otherwise "graph", false, 40 and 80. |
| CPU.CPUDefaults | modules/cpu.go:35-53 | An empty configuration gives monitor "graph", average false, green 40 and red 80. |
| CPU.PercentagesSelectGlyph | modules/cpu.go:181 | A reading from 0 to 100 percent selects one of the eight glyphs, and 100 selects the highest. |
| CPU.UtilBlockFields | modules/cpu.go:177-190 | Graph mode shows a glyph. Percent mode shows the truncated value with min width "99" and right alignment. The colour is the reading's fraction on the scale. Every other field is as NewBlock left it. |
| CPU.GetUtilBlock | modules/cpu.go:177-190 | Setting the fields of a new block one by one gives the utilisation block. |
| CPU.UtilBlocksIndex | modules/cpu.go:164-174 | There is one block per reading, in reading order. |
| CPU.UtilSeparators | modules/cpu.go:164-174 | Only the last utilisation block gets the final width and a nil separator exactly when FinalSeparator is set. All others keep the block width and explicit false. |
| CPU.MakeUtilBlocks | modules/cpu.go:156-175 | The utilisation query asks for per-CPU readings exactly when `average` is off. The loop then builds exactly one block per returned reading, the last one finalised. |
| CPU.BuildUtilBlocks | modules/cpu.go:164-174 | Over readings that each select a glyph in graph mode, the loop builds exactly one block per reading, the last one finalised. |
| CPU.ColourBase | modules/cpu.go:139-142 | The colour base is the int64 difference of the temperature and green, clamped at 0. Without overflow it is the temperature above green, clamped at 0. A difference above int64's range wraps negative and gives 0; one below it wraps to 2^64 more. |
| CPU.NewTempBlock | modules/cpu.go:135-150 | Filling a new block field by field, with the wrapping int64 subtraction, gives the package zone's block. |
| CPU.TempBlocksIndex | modules/cpu.go:130-151 | There is one block per `x86_pkg_temp` zone, in zone order, and other zones are skipped. |
| CPU.TempBlocksText | modules/cpu.go:130-138 | Every temperature block shows some package zone's reading, divided by 1000 with truncation, followed by ℃. |
| CPU.TempFinalOnlyForLastZone | modules/cpu.go:144-149 | When the last listed zone is not a package zone, no temperature block gets the final treatment. |
| CPU.MakeTempBlocks | modules/cpu.go:122-154 | A failed zone listing gives no blocks. Otherwise the loop builds exactly the blocks of the package zones. |
| CPU.MakeBlocks | modules/cpu.go:103-120 | The label comes first. "graph" and "percent" add the utilisation blocks for the readings the query returns, per CPU unless `average` is set. "temp" adds the temperature blocks, and any other monitor type nothing. |
| Memory.NewMemoryConfig | modules/memory.go:29-41 | `attribute` when it is a string, "ram_used_percent" otherwise. |
| Memory.SwapName | modules/memory.go:105-112 | Every swap attribute's text before `_` is "swap". |
| Memory.RamName | modules/memory.go:113-124 | Every RAM attribute's text before `_` is "ram". |
| Memory.MemoryShape | modules/memory.go:70-130 | The label comes first. When the selected fetch succeeds, exactly one data block comes last, with the final width and a nil separator exactly when FinalSeparator is set. When it fails, only the label is returned. |
| Memory.OnlySelectedSourceRead | modules/memory.go:84-125 | A non-swap attribute's blocks do not depend on the swap query, and a non-RAM attribute's blocks do not depend on the RAM query. |
| Memory.UnknownAttributeEmpty | modules/memory.go:104-127 | An unknown attribute still gives a data block, with empty text. |
| Memory.DefaultAttribute | modules/memory.go:32-35 | The default attribute reads RAM and shows its truncated used percentage followed by `%`. |
| Memory.MakeBlocks | modules/memory.go:70-130 | Building the block field by field, with the early returns, gives exactly the specified blocks. |
| LoadAverage.Cores | modules/load_average.go:71-76 | The core count from the query, or 1 when the query fails. |
| LoadAverage.LoadShape | modules/load_average.go:63-103 | Label first. On success, exactly three blocks: 1, 5 and 15 minutes. The first two have the block width and explicit false. The third has the final width and a nil separator exactly when FinalSeparator is set. On failure, only the label. |
| LoadAverage.CoreCountOnlyColours | modules/load_average.go:71-76 | A failed core count behaves exactly as a count of 1. |
| LoadAverage.NewReading | modules/load_average.go:84-87 | A reading block is a new block with the reading's text and colour. |
| LoadAverage.MakeBlocks | modules/load_average.go:63-103 | Reassigning and filling the block three times gives exactly the specified blocks. |
| Network.Sub64 | modules/network.go:94-95 | uint64 subtraction wraps modulo 2^64 below zero. |
| Network.NewNetworkConfig | modules/network.go:30-42 | `interface` when it is a string, "all" otherwise. |
| Network.StatBlocksShape | modules/network.go:90-101 | There are as many blocks as shown records, every one at the block width with explicit false. With "all", every record is shown. |
| Network.StatBlocksIndex | modules/network.go:90-101 | Record order is kept: shown record i's block sits right after the blocks of the shown records before it, and is a new block showing that record's "<up> up - <dn> dn". |
| Network.StatBlocksText | modules/network.go:90-101 | Every block reads "<up> up - <dn> dn" for some shown record. |
| Network.Network.constructor | modules/network.go:45-51 | The last-seen counts start at 0. |
| Network.Network.MakeBlocks | modules/network.go:71-104 | Per-interface counters are asked for exactly when the interface is not "all". The loop gives the label, then the filtered blocks. A failed query gives only the label. The last-seen counts are not changed. |
| Network.TotalsShown | modules/network.go:26-27 | With the counts never updated, each block shows the counters' totals. |
| Battery.NewBatteryConfig | modules/battery.go:27-39 | `attribute` when it is a string, "percent" otherwise. |
| Battery.BatteryBlocksShape | modules/battery.go:82-103 | One block per battery, in order, each with an explicit-false separator. "state" shows the state uncoloured, and an unknown attribute gives empty, uncoloured text. |
| Battery.MakeBlocks | modules/battery.go:67-106 | The loop gives the label with explicit false, then the battery blocks. A failed query gives only the label. |
| ShellCommand.NewShellCommandConfig | modules/shell_command.go:26-37 | `cmd` when it is a string, empty otherwise. |
| ShellCommand.ShellShape | modules/shell_command.go:66-92 | Label first. A non-empty command that succeeds adds one last block, at the final width, with a nil separator exactly when FinalSeparator is set. Its text is the trimmed output: a contiguous middle of the output with only white space dropped on either side and none left at either end. Anything else adds nothing. |
| ShellCommand.FillBlock | modules/shell_command.go:75-78 | The command block gets the final width, the default separator when asked for, and the given text. |
| ShellCommand.MakeBlocks | modules/shell_command.go:66-92 | The code as written gives exactly the specified blocks, including the early return on failure. |
| ShellCommand.ErrorTextDropped | modules/shell_command.go:81-84 | As written, a failing command leaves only the label, and its error text never reaches the bar. |
| ShellCommand.IntendedShowsError | modules/shell_command.go:81-84 | As intended, every non-empty command gets one last block, showing the error text on failure. On success the result is the same as the code as written. |
| ShellCommand.MakeBlocksIntended | modules/shell_command.go:66-92 | The corrected method gives exactly the intended blocks. |
| DateTime.NewDateTimeConfig | modules/date_time.go:25-47 | `format` when it is a string, empty otherwise. `timezone` when it is a string and loadable. The result is always either the local zone or a loadable one. |
| DateTime.UnknownZoneIsLocal | modules/date_time.go:37-40 | A zone that cannot be loaded falls back to the local zone. |
| DateTime.DateTimeShape | modules/date_time.go:75-90 | The label comes first with explicit false. Exactly one block follows, showing the time formatted in the configured zone and layout. |
| DateTime.MakeBlocks | modules/date_time.go:75-90 | The method gives exactly the specified blocks. |
| Uptime.DurationExact | modules/uptime.go:84 | Below 2^63 nanoseconds, the duration is exactly the uptime in nanoseconds. |
| Uptime.GetFormat | modules/uptime.go:109-127 | One of the five layouts. It starts at years, weeks, days or hours exactly when that unit is the first non-zero one, and at minutes otherwise. |
| Uptime.GetFormatIsTail | modules/uptime.go:112-126 | Every layout is a tail of "%yy%ww%dd%hh%mm%ss" and ends with "%mm%ss". |
| Uptime.NewUptimeConfig | modules/uptime.go:27-39 | As written: `format` when it is a string, the literal "deafult" otherwise. |
| Uptime.EffectiveFormat | modules/uptime.go:85-88 | getFormat is used exactly when the format is "default"; any other format is used verbatim. |
| Uptime.UptimeShape | modules/uptime.go:67-97 | The label comes first with explicit false. If the query succeeds, one block follows, even when formatting fails, and then it shows the error message. A failed query gives only the label. |
| Uptime.MissingFormatIsLiteral | modules/uptime.go:30-33 | As written, a configuration without `format` hands the formatter "deafult" and never getFormat's layout. |
| Uptime.NewUptimeConfigIntended | modules/uptime.go:30-33 | As intended, a missing `format` means "default". |
| Uptime.MissingFormatUsesGetFormat | modules/uptime.go:85-88 | With the intended default, a configuration without `format` gets getFormat's layout. |
| Uptime.MakeBlocks | modules/uptime.go:67-97 | The method gives exactly the specified blocks. |

## Left out

- Concurrency and timing are not modelled. This covers:
  - every module's goroutine, ticker, update channel, `Stop` and `Done`;
  - `render` and `watchModules` running concurrently;
  - the 100 ms pacing;
  - `Status.Stop`.

  One pass of `watchModules` followed by the frame it triggers is the sequential `Status.Status.Step`. The race between a render and a later drain is not modelled.
- main.go's flag parsing, file reading, YAML decoding and signal handling are process I/O and are left out. Only its forcing of version 1 is modelled (`Header.ProtocolHeader`).
- The base module configuration is not part of this model, because the code that decodes it is not available: label, refresh, block and final separator widths, and FinalSeparator. It is an input, `BaseConfig`.
- BaseModule and types/module.go hold no behaviour to prove. Modules are values of `Registry.Module`.
- `GetColor` and all floating-point arithmetic and formatting are function-typed parameters and are not modelled. This covers colours, `%01.02v` load text, battery percentages, and load-per-core ratios.
- The CPU graph-glyph index is computed on exact reals, not on float64.
- The code in the libraries is not modelled; each library call is a parameter:
  - gopsutil queries;
  - battery.GetAll;
  - humanize.IBytes;
  - durationfmt.Format;
  - time.LoadLocation and Format;
  - exec.Command;
  - the swap and virtual-memory records' `String`.
- `readLine`'s file reading is not modelled. A thermal zone is given as its two first lines.
- A failure to serialise a frame is not modelled: it cannot happen for the block record, whose fields are all strings, ints and bools.
- The separator width of blocks built by `NewBlock()` without an argument is a free parameter `w0`, and nothing is proved about it. This is the label and data block in battery.go, date_time.go and uptime.go.
- Blocks are values once appended. The Go code appends pointers, but no module changes a block after appending it.
- Logging is not modelled.
- Strings are sequences of Unicode characters. Go strings are bytes, and json.Marshal writes each byte that is not valid UTF-8 as `\ufffd`; that replacement is not modelled.
- String escaping follows json.Marshal before Go 1.22. Go 1.22 and later write backspace and form feed as `\b` and `\f`, where the model writes `\u0008` and `\u000c`.
- CPU.MakeBlocks: requires each graph-mode reading to select one of the eight glyphs. A reading outside that range would index past the glyph table and make Go panic, and that panic is not modelled. The same applies to CPU.MakeUtilBlocks, CPU.BuildUtilBlocks and CPU.GetUtilBlock.

## Findings

| source | as written | input that shows it | evidently intended | confidence | as-written member | corrected member |
|---|---|---|---|---|---|---|
| modules/shell_command.go:81-84 | A failing command's error text is written into the command block, and then the function returns without appending that block. | `cmd: "false"`: bash exits with status 1, and the bar shows only the label. | The error text is shown in the command block. | not executed | ShellCommand.ErrorTextDropped | ShellCommand.IntendedShowsError |
| modules/uptime.go:30-33 | A missing `format` key defaults to "deafult". It never equals "default", so getFormat is never used, and the formatter receives "deafult" as a layout. | A configuration without `format`. | The missing key defaults to "default", which chooses the layout with getFormat. | not executed | Uptime.MissingFormatIsLiteral | Uptime.MissingFormatUsesGetFormat |
