# code-locator, modelled in Dafny

`CodeLocator` (code/index.js) reports where its caller sits in the source. It captures the
call stack, picks the frame at the requested depth, fetches that file's text, and renders a
window of lines around the frame's line, with line numbers, a file-name header and a pointer
at the target line. This project models the text-processing and bookkeeping half of it:

- `Wrappers`: `Option` and `Result`.
- `Text`: `split("\n")`, `join("\n")`, `" ".repeat(n)`, JavaScript `slice` with its
  negative-index rules, and decimal rendering of integers with its inverse.
- `FileNames`: the normalisation `replace(/^.*:\/\//, "")` applied to every frame's file name.
- `Source`: `CodeLine` and the numbering of a fetched text, plus `getResource`'s "'' on failure".
- `Options`: option values by `typeof`, the built-in defaults, `checkFormatOptions`, and the
  three-layer merge defaults <- installed overrides <- per-call options.
- `Formatter`: the window arithmetic and the rendering of each line, as pure functions with
  lemmas that describe the output in document terms.
- `Locator`: the class `CodeLocator`, which holds the source cache and the installed
  overrides, with `GetCodeContent`, `SetFormatOptions`, `Format`, `GetCode` and `WhoCalled`.
  Each method is tied to a pure function (`Formatted`, `Report`), and lemmas about those
  functions state the reporting rules.

The resource backend is the constructor parameter `fetch: string -> Option<string>`. `None`
stands for a backend that threw or found no blob. The stack capture is not modelled:
`GetCode` and `WhoCalled` take the captured `locations` as a parameter. A ghost log of
fetched names records that each file is fetched at most once.

Details of the code that the model follows:

- The line-number field keeps the last `lineNumberWidth` characters of the spaces followed by
  the number (`slice(-width)`). A number wider than the field therefore loses its leading
  digits. A width of 0 keeps the whole number, because
  `slice(-0)` is `slice(0)`.
- `formatter` validates the merged option object; `setFormatOptions` validates the overrides
  when they are installed. With well-typed overrides this rejects exactly the mistyped per-call options
  (`Options.ResolveRejects`).
- A negative `lineNumberWidth` passes the type check, but `" ".repeat` then throws a
  RangeError. The model returns `Err(RangeError)`.
- A key that has no default is compared against `typeof undefined`. So an unknown key is
  accepted only when its value is `undefined`.

## Model

| member | source | states |
|---|---|---|
| Text.SplitLength | code/index.js:57 | `split("\n")` gives one piece per line feed plus one |
| Text.SplitPiecesHaveNoNewline | code/index.js:57 | no piece of the split contains a line feed |
| Text.JoinSplit | code/index.js:57 | joining the pieces with "\n" gives back the text, so splitting loses nothing |
| Text.SplitJoin | code/index.js:199 | splitting the "\n"-join of one or more line-feed-free pieces gives back the pieces |
| Text.Decimal | code/index.js:193 | the decimal text of a line number is non-empty, all digits, with no leading zero |
| Text.DecimalRoundTrip | code/index.js:193 | the decimal text of a number reads back as that number |
| Text.IntRoundTrip | code/index.js:214 | the text `${depth}` of any integer, sign included, reads back as that integer |
| Source.Lines | code/index.js:57-60 | the lines are numbered from 1 (element i has number i + 1); there are line-feed count + 1 of them; none holds a line feed; their texts joined with "\n" give back the fetched text |
| Source.FailedFetchOneEmptyLine | code/index.js:80-84 | a failed fetch yields '' and so a document of exactly one empty line numbered 1 |
| FileNames.LongestMatch | code/index.js:103 | finds the end of the longest prefix that ends in "://" and has no line terminator, or 0 when there is none |
| FileNames.StripScheme | code/index.js:103 | the normalised name is a suffix of the raw name; it is the whole name exactly when `^.*://` does not match; otherwise the removed prefix is a match of `^.*://`, and no match is left in what remains, so the removed prefix is the longest match |
| FileNames.StripSchemeIdempotent | code/index.js:103 | normalising an already normalised name changes nothing |
| FileNames.StripFileUrl | code/index.js:103 | "file:///a/b.js" normalises to "/a/b.js" |
| Options.CheckFormatOptions | code/index.js:139-145 | all or nothing: the options come back unchanged exactly when every key has its default's type (a key without default: undefined); otherwise the error names exactly the mistyped keys |
| Options.MergePrecedence | code/index.js:166-170 | a per-call value wins over an installed override, which wins over the built-in default; the merge has every default key |
| Options.MergeWellTyped | code/index.js:166-170 | with well-typed overrides, the merged options are well typed exactly when the per-call options are |
| Options.Resolve | code/index.js:166-170 | `formatter`'s options succeed exactly when the merged object is well typed; otherwise it throws naming the merged object's mistyped keys |
| Options.ResolveRejects | code/index.js:166-170 | with well-typed overrides, `formatter` throws exactly for mistyped per-call options and names exactly their mistyped keys |
| Options.ResolveLayers | code/index.js:166-170 | for each of the eight options, the resolved value is the per-call value, else the installed override, else the built-in default |
| Options.DefaultOptions | code/index.js:117-126 | with nothing overridden the options are offset 0, surround 2 and 2, file name and line numbers shown, not brief, width 4, pointer "--> " |
| Options.RejectsMistypedOffset | code/index.js:139-143 | `{lineOffset: "oops"}` is rejected, naming `lineOffset` |
| Formatter.NumberFieldShape | code/index.js:193 | with width w > 0 the field is w characters: the number right-justified with spaces when it fits, its last w digits when it does not; with w = 0 it is the bare number |
| Formatter.WindowSpan | code/index.js:183-186 | for a target index t >= 0 the window is the run `code[lo..hi]`: only t in brief mode, else from t - surroundBefore to t + surroundAfter, clipped to the document without error; it holds the target iff t is inside the document; it has at most 1 (brief) or surroundBefore + surroundAfter + 1 lines |
| Formatter.BriefWindowAtMostOne | code/index.js:184-186 | in brief mode the window has at most one line, whatever the target, negative indices included |
| Formatter.RenderedWindow | code/index.js:183-199 | in document terms: header iff not brief and file names shown; one output line per document line lo..hi-1, each its prefix, then the pointer iff it is the target index (else equal-width spaces), then its text; some line is marked iff the target lies in the document |
| Formatter.BriefRendering | code/index.js:184-194 | brief mode has no header line and at most one line, and its output does not depend on the surround settings |
| Formatter.MarkerColumn | code/index.js:174-196 | every rendered line has a marker column exactly as wide as the pointer, holding the pointer when the line is the target, then the line's text verbatim |
| Formatter.RenderSplitsIntoLines | code/index.js:191-199 | when no file name, pointer or line text holds a line feed, the formatted text splits on "\n" back into exactly the rendered lines |
| Formatter.DefaultWindowOfTen | code/index.js:183-199 | ten lines, line 5, default options: file-name line, then lines 3 to 7, with "--> " on line 5 and four spaces on the others |
| Formatter.WindowClipsAtStart | code/index.js:184 | line 1 with two lines before it clips to the header then lines 1, 2, 3 in order, line 1 with the pointer and lines 2 and 3 with a four-space indent |
| Formatter.BriefLineOfTen | code/index.js:184-194 | brief mode on line 5 gives the single line "number:[file]--> text" |
| Locator.ReportLocation | code/index.js:209-215 | the report has no location exactly when depth + 1 indexes no captured frame; then it does not throw and its message ends in the depth, which reads back; otherwise the location is the frame at depth + 1 |
| Locator.ReportThrows | code/index.js:209-220 | with well-typed overrides a report throws exactly when a frame is found and the per-call options are mistyped (naming those keys) or the width is negative; otherwise it carries the frame and the rendering of that file's lines with the merged options |
| Locator.CodeLocator.constructor | code/index.js:156-157 | the locator starts with an empty cache, no overrides and nothing fetched |
| Locator.CodeLocator.GetCodeContent | code/index.js:54-64 | returns the numbered lines of the fetched text; a cached name returns the stored lines and changes nothing; a new name is fetched once and added, with other entries untouched |
| Locator.CodeLocator.SetFormatOptions | code/index.js:151-154 | succeeds exactly when the options are well typed and then installs them wholesale; on failure the previous overrides stay |
| Locator.CodeLocator.Format | code/index.js:165-201 | returns the `formatter` result for the installed overrides; the file is fetched or looked up only after the options pass, and the cache is otherwise unchanged |
| Locator.CodeLocator.GetCode | code/index.js:209-221 | returns the `getCode` report for the captured locations; overrides are unchanged; the found frame's file is cached (fetched only if it was not cached) when the report succeeds, and the cache and fetch log are untouched otherwise |
| Locator.CodeLocator.WhoCalled | code/index.js:229-234 | returns exactly the report of `getCode` one depth further, with the same effect on the cache and fetch log |

## Left out

- The stack capture of `getLocations` (code/index.js:90-112). It relies on the V8 hooks `Error.prepareStackTrace` and `Error.captureStackTrace` and on call-site objects. The locations are a parameter; only the file-name normalisation at line 103 is modelled (`FileNames`).
- The two resource backends (`readFileSync` and `ScriptApp.getResource`) and the `isGas` probe. They are foreign I/O; `fetch` is a parameter of the locator.
- The console output of `getResource` and `whoCalled`. It is logging only.
- Option values that are not integers, booleans, strings or `undefined` (objects, functions, symbols, fractional numbers, NaN). Numbers are modelled as integers.
- Keys inherited from `Object.prototype` (`toString`, ...), which `_defaultFormatOptions[k]` would find. Symbol keys are not modelled either.
- The text of the invalid-options error: the model carries the set of mistyped keys, not the `JSON.stringify`'d array in insertion order.
- String lengths: `|pointer|` counts characters, while JavaScript counts UTF-16 code units. They differ for characters outside the Basic Multilingual Plane.
- Number-to-text for integers of 10^21 and above, which JavaScript writes in exponent notation.
- Value semantics for the installed options and the cached lines. `setFormatOptions` installs the caller's own object (code/index.js:144, 152), and `getCodeContent` returns the cached array itself (code/index.js:63). A caller that later mutates either changes the overrides without validation or changes later output. The model copies values, so in the source neither `WellTyped(overrides)` nor `cache[f] == Lines(Resource(fetch, f))` is guaranteed once a caller mutates those objects.
- Formatter.RenderedWindow: states the rendered window only for a target index >= 0 and, outside brief mode, non-negative surround settings. For other values `Window` follows JavaScript `slice` exactly (a negative index counts from the end), but no lemma describes the result.
- Formatter.WindowSpan: same restriction as RenderedWindow; `BriefWindowAtMostOne` covers brief mode for every target.
