/**
 * The status stream on standard output as the i3bar protocol lays it out:
 * the header object on a line of its own, a line holding `[` that opens the
 * endless array of status lines, then one line per frame, each frame a JSON
 * array of blocks followed by a comma. The array is never closed.
 */
module Stream {
  import opened Text
  import opened Json
  import opened Blocks
  import Header

  /** What successive writes of `line + "\n"` leave on the stream. */
  function Unlines(lines: seq<string>): string {
    if |lines| == 0 then "" else Unlines(lines[..|lines| - 1]) + lines[|lines| - 1] + "\n"
  }

  lemma {:induction false} UnlinesCons(l: string, rest: seq<string>)
    ensures Unlines([l] + rest) == l + "\n" + Unlines(rest)
  {
    if |rest| > 0 {
      var init := rest[..|rest| - 1];
      UnlinesCons(l, init);
      assert ([l] + rest)[..|rest|] == [l] + init;
    } else {
      assert ([l] + rest)[..0] == [];
    }
  }

  /** How a line-oriented reader such as i3bar splits the stream back into lines. */
  function Lines(s: string): seq<string>
    decreases |s|
  {
    if s == "" then []
    else
      var l := FirstField(s, '\n');
      if |l| == |s| then [s] else [l] + Lines(s[|l| + 1..])
  }

  /** Lines without a newline in them are read back exactly as they were written. */
  lemma {:induction false} LinesUnlines(lines: seq<string>)
    requires forall i :: 0 <= i < |lines| ==> '\n' !in lines[i]
    ensures Lines(Unlines(lines)) == lines
  {
    if |lines| > 0 {
      var rest := lines[1..];
      assert lines == [lines[0]] + rest;
      UnlinesCons(lines[0], rest);
      var s := lines[0] + "\n" + Unlines(rest);
      FirstFieldOf(lines[0], '\n', Unlines(rest));
      assert s[|lines[0]| + 1..] == Unlines(rest);
      LinesUnlines(rest);
    }
  }

  lemma PrintableOneLine(t: string)
    requires Printable(t)
    ensures '\n' !in t
  {
  }

  /** One frame: json.Marshal of the flattened block list. */
  function FrameText(bs: seq<Block>): (t: string)
    ensures Printable(t)
    ensures |t| >= 2 && t[0] == '[' && t[|t| - 1] == ']'
  {
    ArrayText(seq(|bs|, i requires 0 <= i < |bs| => BlockText(bs[i])))
  }

  /** The line render writes for a frame: the array followed by a comma. */
  function FrameLine(bs: seq<Block>): (t: string)
    ensures Printable(t)
  {
    var f := FrameText(bs);
    PrintableAppend(f, ",");
    f + ","
  }

  /** Every line written so far: the header, `[`, then the frames in the order rendered. */
  function StreamLines(c: Header.Config, frames: seq<seq<Block>>): seq<string> {
    [Header.HeaderText(c), "["] + seq(|frames|, i requires 0 <= i < |frames| => FrameLine(frames[i]))
  }

  /** Before the first frame the stream holds the header line and the `[` line, nothing else. */
  lemma StreamOpened(c: Header.Config)
    ensures Unlines(StreamLines(c, [])) == Header.HeaderText(c) + "\n" + "[" + "\n"
  {
    var h := Header.HeaderText(c);
    assert StreamLines(c, []) == [h, "["];
    assert [h, "["][..1] == [h] && [h][..0] == [];
    assert Unlines([h]) == h + "\n";
  }

  /** Every line of the stream is a single line: none holds a newline. */
  lemma StreamLinesOneLine(c: Header.Config, frames: seq<seq<Block>>)
    ensures forall i :: 0 <= i < |StreamLines(c, frames)| ==> '\n' !in StreamLines(c, frames)[i]
  {
    var lines := StreamLines(c, frames);
    forall i | 0 <= i < |lines|
      ensures '\n' !in lines[i]
    {
      if i == 0 {
        PrintableOneLine(Header.HeaderText(c));
      } else if i >= 2 {
        PrintableOneLine(FrameLine(frames[i - 2]));
      }
    }
  }

  /**
   * A reader recovers exactly the header line, the `[` line and one line per
   * frame, each frame line an array followed by a comma.
   */
  lemma ProtocolLayout(c: Header.Config, frames: seq<seq<Block>>)
    ensures Lines(Unlines(StreamLines(c, frames))) == StreamLines(c, frames)
    ensures |StreamLines(c, frames)| == |frames| + 2
    ensures StreamLines(c, frames)[0] == Header.HeaderText(c) && StreamLines(c, frames)[1] == "["
    ensures forall i :: 0 <= i < |frames| ==> StreamLines(c, frames)[i + 2] == FrameText(frames[i]) + ","
  {
    StreamLinesOneLine(c, frames);
    LinesUnlines(StreamLines(c, frames));
  }

  /** The array of status lines is never closed: no line of the stream is `]`. */
  lemma NeverClosed(c: Header.Config, frames: seq<seq<Block>>)
    ensures forall i :: 0 <= i < |StreamLines(c, frames)| ==> StreamLines(c, frames)[i] != "]"
  {
    var lines := StreamLines(c, frames);
    forall i | 0 <= i < |lines|
      ensures lines[i] != "]"
    {
      if i >= 2 {
        var l := FrameLine(frames[i - 2]);
        assert l[|l| - 1] == ',';
      } else if i == 0 {
        var h := Header.HeaderText(c);
        assert h[0] == '{';
      }
    }
  }

  /** One more frame adds exactly one line, its frame line, at the end. */
  lemma StreamLinesSnoc(c: Header.Config, frames: seq<seq<Block>>, f: seq<Block>)
    ensures var a := StreamLines(c, frames + [f]);
      |a| == |frames| + 3 && a[..|frames| + 2] == StreamLines(c, frames) && a[|frames| + 2] == FrameLine(f)
  {
    var a := StreamLines(c, frames + [f]);
    var b := StreamLines(c, frames);
    assert forall i :: 0 <= i < |b| ==> a[i] == b[i];
    assert a[..|b|] == b;
  }

  /** Rendering one more frame writes exactly one more line. */
  lemma StreamGrows(c: Header.Config, frames: seq<seq<Block>>, f: seq<Block>)
    ensures Unlines(StreamLines(c, frames + [f])) == Unlines(StreamLines(c, frames)) + FrameLine(f) + "\n"
  {
    StreamLinesSnoc(c, frames, f);
  }
}
