/** The rendering half of `formatter` (code/index.js:172-199): the window around the target
    line and the text of each rendered line, given validated options and the file's lines. */
module Formatter {
  import opened Text
  import opened Source
  import opened Options

  /** `(mask + lineNumber).slice(-mask.length)` with `mask = " ".repeat(width)`. */
  function NumberField(width: nat, n: int): string
  {
    var s := Spaces(width) + IntToString(n);
    Slice(s, -(width as int), |s|)
  }

  /** The 0-based index of the line the pointer marks: `line + lineOffset - 1`. */
  function TargetIndex(line: int, o: FormatOptions): int
  {
    line + o.lineOffset - 1
  }

  /** `code.slice(start, finish)`: only the target in brief mode, otherwise the surround. */
  function Window(code: seq<CodeLine>, t: int, o: FormatOptions): seq<CodeLine>
  {
    var start := if o.brief then t else Max(0, t - o.surroundBefore);
    var finish := if o.brief then t + 1 else t + o.surroundAfter + 1;
    Slice(code, start, finish)
  }

  /** Whether a separate file-name line heads the output. */
  function HasHeader(o: FormatOptions): bool
  {
    !o.brief && o.showFileName
  }

  /** Number of header lines. */
  function Header(o: FormatOptions): nat
  {
    if HasHeader(o) then 1 else 0
  }

  /** First document index the window shows, for a target index that is not negative:
      the target itself in brief mode, else `surroundBefore` lines earlier, clipped to the document. */
  function WindowStart(n: nat, line: int, o: FormatOptions): int
  {
    var t := TargetIndex(line, o);
    if o.brief then Min(t, n) else Min(Max(0, t - o.surroundBefore), n)
  }

  /** One past the last document index the window shows, clipped to the document. */
  function WindowEnd(n: nat, line: int, o: FormatOptions): int
  {
    var t := TargetIndex(line, o);
    if o.brief then Min(t + 1, n) else Min(t + o.surroundAfter + 1, n)
  }

  /** What precedes the marker column on a line: the number field and its colon, then the
      `[fileName]` tag in brief mode. */
  function LinePrefix(fileName: string, lineNumber: int, o: FormatOptions): string
    requires o.lineNumberWidth >= 0
  {
    (if o.showLineNumber then NumberField(o.lineNumberWidth, lineNumber) + ":" else "")
    + (if o.brief && o.showFileName then "[" + fileName + "]" else "")
  }

  function RenderLine(fileName: string, f: CodeLine, t: int, o: FormatOptions): string
    requires o.lineNumberWidth >= 0
  {
    LinePrefix(fileName, f.lineNumber, o)
    + (if f.lineNumber == t + 1 then o.pointer else Spaces(|o.pointer|))
    + f.text
  }

  /** The output lines before they are joined. */
  function RenderLines(fileName: string, code: seq<CodeLine>, line: int, o: FormatOptions): seq<string>
    requires o.lineNumberWidth >= 0
  {
    var t := TargetIndex(line, o);
    var w := Window(code, t, o);
    (if HasHeader(o) then [fileName] else [])
    + seq(|w|, i requires 0 <= i < |w| => RenderLine(fileName, w[i], t, o))
  }

  /** The formatted text: the output lines joined with "\n". */
  function Render(fileName: string, code: seq<CodeLine>, line: int, o: FormatOptions): string
    requires o.lineNumberWidth >= 0
  {
    Join(RenderLines(fileName, code, line, o), "\n")
  }

  /** The line-number field is the last `width` characters of `width` spaces followed by the
      number: the number right-justified when it fits, its leading digits cut when it does
      not, and the bare number when the width is 0 (`slice(-0)` keeps everything). */
  lemma NumberFieldShape(width: nat, n: int)
    ensures var d := IntToString(n); var f := NumberField(width, n);
      && (width == 0 ==> f == d)
      && (width > 0 ==> |f| == width)
      && (width > 0 && |d| <= width ==> f == Spaces(width - |d|) + d)
      && (width > 0 && |d| > width ==> f == d[|d| - width..])
  {
    var d := IntToString(n);
    var s := Spaces(width) + d;
    if width > 0 && |d| <= width {
      assert s[|s| - width..] == Spaces(width - |d|) + d;
    } else if width > 0 {
      assert s[|s| - width..] == d[|d| - width..];
    }
  }

  /** For a target at or after the first line (and non-negative surround settings outside brief
      mode) the window is the run of lines `code[lo..hi]`: just the target in brief mode,
      otherwise up to `surroundBefore` lines before it and `surroundAfter` after it, clipped
      to the document without error. */
  lemma WindowSpan(code: seq<CodeLine>, line: int, o: FormatOptions)
    requires TargetIndex(line, o) >= 0
    requires !o.brief ==> o.surroundBefore >= 0 && o.surroundAfter >= 0
    ensures var lo, hi, t := WindowStart(|code|, line, o), WindowEnd(|code|, line, o), TargetIndex(line, o);
      && 0 <= lo <= hi <= |code|
      && Window(code, t, o) == code[lo..hi]
      && (lo <= t < hi <==> t < |code|)
      && hi - lo <= (if o.brief then 1 else o.surroundBefore + o.surroundAfter + 1)
  {
  }

  /** Brief mode shows at most one line whatever the target, even one before the start. */
  lemma BriefWindowAtMostOne(code: seq<CodeLine>, t: int, o: FormatOptions)
    requires o.brief
    ensures |Window(code, t, o)| <= 1
  {
  }

  /** The output lines, one per window line, after the optional header. */
  lemma RenderLinesAt(fileName: string, code: seq<CodeLine>, line: int, o: FormatOptions)
    requires o.lineNumberWidth >= 0
    ensures var t := TargetIndex(line, o); var w := Window(code, t, o);
      var out := RenderLines(fileName, code, line, o);
      && |out| == Header(o) + |w|
      && (HasHeader(o) ==> out[0] == fileName)
      && forall j :: 0 <= j < |w| ==> out[Header(o) + j] == RenderLine(fileName, w[j], t, o)
  {
  }

  /** Document line `i` sits at position `i - WindowStart` of the window. */
  lemma WindowAt(code: seq<CodeLine>, line: int, o: FormatOptions, i: int)
    requires TargetIndex(line, o) >= 0
    requires !o.brief ==> o.surroundBefore >= 0 && o.surroundAfter >= 0
    requires WindowStart(|code|, line, o) <= i < WindowEnd(|code|, line, o)
    ensures var w, lo := Window(code, TargetIndex(line, o), o), WindowStart(|code|, line, o);
      0 <= i - lo < |w| && w[i - lo] == code[i]
  {
    WindowSpan(code, line, o);
  }

  /** Output line `Header(o) + j` renders window line `j`. */
  lemma RenderLineAtIndex(fileName: string, code: seq<CodeLine>, line: int, o: FormatOptions, j: int)
    requires o.lineNumberWidth >= 0
    requires 0 <= j < |Window(code, TargetIndex(line, o), o)|
    ensures |RenderLines(fileName, code, line, o)| == Header(o) + |Window(code, TargetIndex(line, o), o)|
    ensures RenderLines(fileName, code, line, o)[Header(o) + j]
            == RenderLine(fileName, Window(code, TargetIndex(line, o), o)[j], TargetIndex(line, o), o)
  {
  }

  /** A line numbered `i + 1` is marked exactly when `i` is the target index. */
  lemma MarkedLine(fileName: string, f: CodeLine, i: int, t: int, o: FormatOptions)
    requires o.lineNumberWidth >= 0 && f.lineNumber == i + 1
    ensures RenderLine(fileName, f, t, o)
            == LinePrefix(fileName, i + 1, o) + (if i == t then o.pointer else Spaces(|o.pointer|)) + f.text
  {
  }

  /** Output line `Header(o) + i - WindowStart` renders document line `i`. */
  lemma RenderedLineAt(fileName: string, code: seq<CodeLine>, line: int, o: FormatOptions, i: int)
    requires o.lineNumberWidth >= 0
    requires TargetIndex(line, o) >= 0
    requires !o.brief ==> o.surroundBefore >= 0 && o.surroundAfter >= 0
    requires WindowStart(|code|, line, o) <= i < WindowEnd(|code|, line, o)
    ensures var out := RenderLines(fileName, code, line, o); var k := Header(o) + i - WindowStart(|code|, line, o);
      0 <= k < |out| && 0 <= i < |code| && out[k] == RenderLine(fileName, code[i], TargetIndex(line, o), o)
  {
    var lo := WindowStart(|code|, line, o);
    WindowAt(code, line, o, i);
    RenderLineAtIndex(fileName, code, line, o, i - lo);
  }

  /** The rendered output in document terms: an optional file-name line, then each document
      line of the window rendered as RenderedLineAt says. Some line carries the pointer
      exactly when the target lies inside the document. */
  lemma RenderedWindow(fileName: string, code: seq<CodeLine>, line: int, o: FormatOptions)
    requires o.lineNumberWidth >= 0 && Numbered(code)
    requires TargetIndex(line, o) >= 0
    requires !o.brief ==> o.surroundBefore >= 0 && o.surroundAfter >= 0
    ensures |RenderLines(fileName, code, line, o)| == Header(o) + WindowEnd(|code|, line, o) - WindowStart(|code|, line, o)
    ensures HasHeader(o) ==> RenderLines(fileName, code, line, o)[0] == fileName
    ensures forall i :: WindowStart(|code|, line, o) <= i < WindowEnd(|code|, line, o) ==>
              RenderLines(fileName, code, line, o)[Header(o) + i - WindowStart(|code|, line, o)]
              == LinePrefix(fileName, i + 1, o)
                 + (if i == TargetIndex(line, o) then o.pointer else Spaces(|o.pointer|))
                 + code[i].text
    ensures WindowStart(|code|, line, o) <= TargetIndex(line, o) < WindowEnd(|code|, line, o)
            <==> TargetIndex(line, o) < |code|
  {
    WindowSpan(code, line, o);
    RenderLinesAt(fileName, code, line, o);
    forall i | WindowStart(|code|, line, o) <= i < WindowEnd(|code|, line, o)
      ensures RenderLines(fileName, code, line, o)[Header(o) + i - WindowStart(|code|, line, o)]
              == LinePrefix(fileName, i + 1, o)
                 + (if i == TargetIndex(line, o) then o.pointer else Spaces(|o.pointer|))
                 + code[i].text
    {
      RenderedLineAt(fileName, code, line, o, i);
      MarkedLine(fileName, code[i], i, TargetIndex(line, o), o);
    }
  }

  /** Brief mode has no header line, at most one code line, and ignores the surround settings. */
  lemma BriefRendering(fileName: string, code: seq<CodeLine>, line: int, o: FormatOptions, before: int, after: int)
    requires o.brief && o.lineNumberWidth >= 0
    ensures var out := RenderLines(fileName, code, line, o);
      && !HasHeader(o)
      && |out| <= 1
      && out == RenderLines(fileName, code, line, o.(surroundBefore := before, surroundAfter := after))
  {
    var o' := o.(surroundBefore := before, surroundAfter := after);
    var t := TargetIndex(line, o);
    BriefWindowAtMostOne(code, t, o);
    RenderLinesAt(fileName, code, line, o);
    RenderLinesAt(fileName, code, line, o');
    assert Window(code, t, o) == Window(code, t, o');
    assert TargetIndex(line, o') == t;
    var w := Window(code, t, o);
    forall j | 0 <= j < |w| ensures RenderLine(fileName, w[j], t, o) == RenderLine(fileName, w[j], t, o') {
      assert LinePrefix(fileName, w[j].lineNumber, o) == LinePrefix(fileName, w[j].lineNumber, o');
    }
  }

  /** Every code line puts its text, verbatim, after a marker column exactly as wide as the pointer. */
  lemma MarkerColumn(fileName: string, f: CodeLine, t: int, o: FormatOptions)
    requires o.lineNumberWidth >= 0
    ensures var l := RenderLine(fileName, f, t, o); var p := |LinePrefix(fileName, f.lineNumber, o)|;
      && |l| == p + |o.pointer| + |f.text|
      && l[p + |o.pointer|..] == f.text
      && l[p..p + |o.pointer|] == (if f.lineNumber == t + 1 then o.pointer else Spaces(|o.pointer|))
  {
  }

  lemma NumberFieldHasNoNewline(width: nat, n: int)
    ensures '\n' !in NumberField(width, n)
  {
    var d := IntToString(n);
    var s := Spaces(width) + d;
    assert forall c :: c in s ==> c == ' ' || c == '-' || IsDigit(c);
  }

  lemma RenderLineHasNoNewline(fileName: string, f: CodeLine, t: int, o: FormatOptions)
    requires o.lineNumberWidth >= 0
    requires '\n' !in fileName && '\n' !in o.pointer && '\n' !in f.text
    ensures '\n' !in RenderLine(fileName, f, t, o)
  {
    NumberFieldHasNoNewline(o.lineNumberWidth, f.lineNumber);
  }

  /** When neither the file name, the pointer nor any line text holds a line feed, the
      formatted text splits on "\n" back into exactly the rendered lines. */
  lemma RenderSplitsIntoLines(fileName: string, code: seq<CodeLine>, line: int, o: FormatOptions)
    requires o.lineNumberWidth >= 0
    requires '\n' !in fileName && '\n' !in o.pointer
    requires forall i :: 0 <= i < |code| ==> '\n' !in code[i].text
    requires |RenderLines(fileName, code, line, o)| >= 1
    ensures Split(Render(fileName, code, line, o)) == RenderLines(fileName, code, line, o)
  {
    var out := RenderLines(fileName, code, line, o);
    var t := TargetIndex(line, o);
    var w := Window(code, t, o);
    RenderLinesAt(fileName, code, line, o);
    assert forall j :: 0 <= j < |w| ==> w[j] in code by {
      forall j | 0 <= j < |w| ensures w[j] in code {
        SliceElement(code, if o.brief then t else Max(0, t - o.surroundBefore),
                     if o.brief then t + 1 else t + o.surroundAfter + 1, j);
      }
    }
    forall k | 0 <= k < |out| ensures '\n' !in out[k] {
      if k >= Header(o) {
        var f := w[k - Header(o)];
        assert f in code;
        RenderLineHasNoNewline(fileName, f, t, o);
      }
    }
    SplitJoin(out);
  }

  /** Every element of a slice is an element of the sequence. */
  lemma SliceElement<T>(s: seq<T>, start: int, end: int, j: int)
    requires 0 <= j < |Slice(s, start, end)|
    ensures Slice(s, start, end)[j] in s
  {
  }

  /** A ten-line file, line 5, default options: a file-name line, then lines 3 to 7 with the
      pointer on line 5 and a four-space indent on the others. */
  lemma DefaultWindowOfTen(fileName: string, code: seq<CodeLine>)
    requires |code| == 10 && Numbered(code)
    ensures var o := FormatOptions(0, 2, 2, true, true, false, 4, "--> ");
      var out := RenderLines(fileName, code, 5, o);
      && |out| == 6
      && out[0] == fileName
      && (forall i :: 2 <= i < 7 ==>
            out[i - 1] == NumberField(4, i + 1) + ":" + (if i == 4 then "--> " else "    ") + code[i].text)
  {
    var o := FormatOptions(0, 2, 2, true, true, false, 4, "--> ");
    RenderedWindow(fileName, code, 5, o);
    assert Spaces(4) == "    ";
  }

  /** Line 1 with two lines before it clips to the start of the file: lines 1 to 3. */
  lemma WindowClipsAtStart(fileName: string, code: seq<CodeLine>)
    requires |code| >= 3 && Numbered(code)
    ensures var o := FormatOptions(0, 2, 2, true, true, false, 4, "--> ");
      var out := RenderLines(fileName, code, 1, o);
      && |out| == 4
      && out[0] == fileName
      && out[1] == NumberField(4, 1) + ":" + "--> " + code[0].text
      && out[2] == NumberField(4, 2) + ":" + "    " + code[1].text
      && out[3] == NumberField(4, 3) + ":" + "    " + code[2].text
  {
    var o := FormatOptions(0, 2, 2, true, true, false, 4, "--> ");
    RenderedWindow(fileName, code, 1, o);
    assert Spaces(4) == "    ";
  }

  /** The same file in brief mode: one line, the target, tagged with the file name inline. */
  lemma BriefLineOfTen(fileName: string, code: seq<CodeLine>)
    requires |code| == 10 && Numbered(code)
    ensures var o := FormatOptions(0, 2, 2, true, true, true, 4, "--> ");
      RenderLines(fileName, code, 5, o) == [NumberField(4, 5) + ":" + "[" + fileName + "]" + "--> " + code[4].text]
  {
    var o := FormatOptions(0, 2, 2, true, true, true, 4, "--> ");
    RenderedWindow(fileName, code, 5, o);
    var out := RenderLines(fileName, code, 5, o);
    assert out[0] == LinePrefix(fileName, 5, o) + "--> " + code[4].text;
    assert LinePrefix(fileName, 5, o) == NumberField(4, 5) + ":" + ("[" + fileName + "]");
    var x := NumberField(4, 5) + ":" + "[" + fileName + "]" + "--> " + code[4].text;
    assert out[0] == x;
    assert |out| == 1;
    assert out == [x];
  }
}
