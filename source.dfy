/** The source text of one file as numbered lines (code/index.js:32-37, 54-85). */
module Source {
  import opened Wrappers
  import opened Text

  /** `CodeContent`: one physical line and its 1-based number. */
  datatype CodeLine = CodeLine(lineNumber: int, text: string)

  /** Line `i` of the sequence carries the number `i + 1`. */
  predicate Numbered(code: seq<CodeLine>)
  {
    forall i :: 0 <= i < |code| ==> code[i].lineNumber == i + 1
  }

  /** The concatenated texts, separated by line feeds. */
  function JoinTexts(code: seq<CodeLine>): string
  {
    Join(seq(|code|, i requires 0 <= i < |code| => code[i].text), "\n")
  }

  /** `text.split("\n").map((text, i) => ({lineNumber: i + 1, text}))`: numbered from 1,
      one line per line feed plus one, no line holding a line feed, and nothing lost. */
  function Lines(text: string): (r: seq<CodeLine>)
    ensures Numbered(r)
    ensures |r| == NewlineCount(text) + 1
    ensures forall i :: 0 <= i < |r| ==> '\n' !in r[i].text
    ensures JoinTexts(r) == text
  {
    var pieces := Split(text);
    SplitLength(text);
    SplitPiecesHaveNoNewline(text);
    JoinSplit(text);
    var r := seq(|pieces|, i requires 0 <= i < |pieces| => CodeLine(i + 1, pieces[i]));
    assert seq(|r|, i requires 0 <= i < |r| => r[i].text) == pieces;
    r
  }

  /** `getResource`: the backend's text, or '' when the backend fails or finds nothing. */
  function Resource(fetch: string -> Option<string>, fileName: string): string
  {
    match fetch(fileName)
    case Some(text) => text
    case None => ""
  }

  /** A failed fetch gives a document of exactly one empty line. */
  lemma FailedFetchOneEmptyLine(fetch: string -> Option<string>, fileName: string)
    requires fetch(fileName).None?
    ensures Lines(Resource(fetch, fileName)) == [CodeLine(1, "")]
  {
  }
}
