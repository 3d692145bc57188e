/** The stateful half of `CodeLocator` (code/index.js:39-243): the source cache, the installed
    format-option overrides, `formatter`, and the reports of `getCode` and `whoCalled`. The
    stack capture is outside the model: the captured locations are an input. */
module Locator {
  import opened Wrappers
  import opened Text
  import opened Source
  import opened Options
  import opened Formatter

  /** `CodeLocation`: a frame's depth, its normalised file name and its line. */
  datatype Location = Location(depth: nat, fileName: string, line: int)

  /** `CodeReport`: the location found, or none, and the printable text. */
  datatype CodeReport = CodeReport(location: Option<Location>, formatted: string)

  /** What `formatter` throws: mistyped options, or the RangeError of `" ".repeat(n)` for n < 0. */
  datatype FormatError = InvalidOptions(keys: set<string>) | RangeError

  const NotFoundPrefix: string := "Couldn't find location at depth "

  /** What `formatter(location, options)` returns or throws, given the backend and the
      installed overrides: validate the merged options, build the width mask, then render the
      file's lines. */
  function Formatted(fetch: string -> Option<string>, overrides: OptionMap, location: Location, options: OptionMap)
    : Result<string, FormatError>
  {
    match Resolve(overrides, options)
    case Err(bad) => Err(InvalidOptions(bad))
    case Ok(o) =>
      if o.lineNumberWidth < 0 then Err(RangeError)
      else Ok(Render(location.fileName, Lines(Resource(fetch, location.fileName)), location.line, o))
  }

  /** What `getCode(depth, options)` returns or throws for the captured `locations`. */
  function Report(fetch: string -> Option<string>, overrides: OptionMap, locations: seq<Location>, depth: int, options: OptionMap)
    : Result<CodeReport, FormatError>
  {
    if 0 <= depth + 1 < |locations| then
      match Formatted(fetch, overrides, locations[depth + 1], options)
      case Err(e) => Err(e)
      case Ok(text) => Ok(CodeReport(Some(locations[depth + 1]), text))
    else
      Ok(CodeReport(None, NotFoundPrefix + IntToString(depth)))
  }

  /** The report has no location exactly when `depth + 1` indexes no captured frame; then it
      never throws and its text names the depth, which reads back from it. Otherwise the
      location is the frame at `depth + 1`. */
  lemma {:induction false} ReportLocation(fetch: string -> Option<string>, overrides: OptionMap, locations: seq<Location>, depth: int, options: OptionMap)
    ensures var r := Report(fetch, overrides, locations, depth, options);
      && (r.Ok? && r.value.location.None? <==> !(0 <= depth + 1 < |locations|))
      && (r.Ok? && r.value.location.Some? ==> r.value.location.value == locations[depth + 1])
      && (!(0 <= depth + 1 < |locations|) ==>
            |r.value.formatted| > |NotFoundPrefix|
            && r.value.formatted[..|NotFoundPrefix|] == NotFoundPrefix
            && ParseInt(r.value.formatted[|NotFoundPrefix|..]) == depth)
  {
    if !(0 <= depth + 1 < |locations|) {
      var text := NotFoundPrefix + IntToString(depth);
      assert text[|NotFoundPrefix|..] == IntToString(depth);
      IntRoundTrip(depth);
    }
  }

  /** With well-typed overrides installed, a report throws exactly when a frame is found and
      the per-call options are mistyped (naming their mistyped keys) or the merged options ask
      for a negative line-number width; otherwise it carries the frame and the rendering of
      its file's lines with the merged options. */
  lemma ReportThrows(fetch: string -> Option<string>, overrides: OptionMap, locations: seq<Location>, depth: int, options: OptionMap)
    requires WellTyped(overrides)
    ensures var r, o := Report(fetch, overrides, locations, depth, options), Resolve(overrides, options);
      && (r.Err? <==> 0 <= depth + 1 < |locations| && (!WellTyped(options) || o.value.lineNumberWidth < 0))
      && (r.Err? && !WellTyped(options) ==> r.error == InvalidOptions(BadKeys(options)))
      && (0 <= depth + 1 < |locations| && r.Ok? ==>
            var loc := locations[depth + 1];
            o.Ok? && o.value.lineNumberWidth >= 0
            && r.value == CodeReport(Some(loc), Render(loc.fileName, Lines(Resource(fetch, loc.fileName)), loc.line, o.value)))
  {
    ResolveRejects(overrides, options);
  }

  /** `CodeLocator`: the cache of file lines and the installed format-option overrides. */
  class CodeLocator {
    /** The resource backend: the file's text, or None when it throws or finds nothing. */
    const fetch: string -> Option<string>
    /** `codeCache`. */
    var cache: map<string, seq<CodeLine>>
    /** `_formatOptions`. */
    var overrides: OptionMap
    /** The file names fetched so far, in order. */
    ghost var fetched: seq<string>

    /** Every cached entry is the numbered text of its file, the cached names are exactly the
        fetched ones, no name was fetched twice, and the installed overrides are well typed. */
    ghost predicate Valid()
      reads this
    {
      && (forall f :: f in cache ==> cache[f] == Lines(Resource(fetch, f)))
      && (forall f :: f in cache <==> f in fetched)
      && (forall i, j :: 0 <= i < j < |fetched| ==> fetched[i] != fetched[j])
      && WellTyped(overrides)
    }

    /** Module start-up: an empty cache and `setFormatOptions({})`. */
    constructor(fetch: string -> Option<string>)
      ensures Valid()
      ensures this.fetch == fetch && cache == map[] && overrides == map[] && fetched == []
    {
      this.fetch := fetch;
      cache := map[];
      overrides := map[];
      fetched := [];
    }

    /** `getCodeContent`: the file's numbered lines, fetched once and cached. */
    method GetCodeContent(fileName: string) returns (code: seq<CodeLine>)
      requires Valid()
      modifies this`cache, this`fetched
      ensures Valid()
      ensures code == Lines(Resource(fetch, fileName))
      ensures fileName in old(cache) ==> code == old(cache)[fileName] && cache == old(cache) && fetched == old(fetched)
      ensures fileName !in old(cache) ==> cache == old(cache)[fileName := code] && fetched == old(fetched) + [fileName]
    {
      if fileName !in cache {
        var text := Resource(fetch, fileName);
        cache := cache[fileName := Lines(text)];
        fetched := fetched + [fileName];
      }
      code := cache[fileName];
    }

    /** `setFormatOptions`: install the options wholesale when they are well typed, leave the
        previous overrides in place when they are not. */
    method SetFormatOptions(options: OptionMap := map[]) returns (r: Result<OptionMap, set<string>>)
      requires Valid()
      modifies this`overrides
      ensures Valid()
      ensures r == CheckFormatOptions(options)
      ensures overrides == if r.Ok? then options else old(overrides)
    {
      r := CheckFormatOptions(options);
      if r.Ok? {
        overrides := r.value;
      }
    }

    /** `formatter`: the file is fetched (or found in the cache) only once the options pass. */
    method Format(location: Location, options: OptionMap) returns (r: Result<string, FormatError>)
      requires Valid()
      modifies this`cache, this`fetched
      ensures Valid()
      ensures r == Formatted(fetch, overrides, location, options)
      ensures r.Err? ==> cache == old(cache) && fetched == old(fetched)
      ensures r.Ok? ==> cache == old(cache)[location.fileName := Lines(Resource(fetch, location.fileName))]
      ensures r.Ok? ==> fetched == if location.fileName in old(cache) then old(fetched) else old(fetched) + [location.fileName]
    {
      var checked := Resolve(overrides, options);
      if checked.Err? {
        return Err(InvalidOptions(checked.error));
      }
      var o := checked.value;
      if o.lineNumberWidth < 0 {
        return Err(RangeError);
      }
      var code := GetCodeContent(location.fileName);
      r := Ok(Render(location.fileName, code, location.line, o));
    }

    /** `getCode(depth, options)` over the captured `locations`. */
    method GetCode(locations: seq<Location>, depth: int := 1, options: OptionMap := map[])
      returns (r: Result<CodeReport, FormatError>)
      requires Valid()
      modifies this`cache, this`fetched
      ensures Valid() && overrides == old(overrides)
      ensures r == Report(fetch, overrides, locations, depth, options)
      ensures var found := 0 <= depth + 1 < |locations|;
        found && r.Ok? ==> cache == old(cache)[locations[depth + 1].fileName := Lines(Resource(fetch, locations[depth + 1].fileName))]
      ensures var found := 0 <= depth + 1 < |locations|;
        found && r.Ok? ==> var f := locations[depth + 1].fileName;
          fetched == if f in old(cache) then old(fetched) else old(fetched) + [f]
      ensures !(0 <= depth + 1 < |locations| && r.Ok?) ==> cache == old(cache) && fetched == old(fetched)
    {
      if !(0 <= depth + 1 < |locations|) {
        return Ok(CodeReport(None, NotFoundPrefix + IntToString(depth)));
      }
      var location := locations[depth + 1];
      var text := Format(location, options);
      match text
      case Err(e) => r := Err(e);
      case Ok(t) => r := Ok(CodeReport(Some(location), t));
    }

    /** `whoCalled(depth, options)`: one frame deeper than `getCode`, for its own frame. */
    method WhoCalled(locations: seq<Location>, depth: int := 1, options: OptionMap := map[])
      returns (r: Result<CodeReport, FormatError>)
      requires Valid()
      modifies this`cache, this`fetched
      ensures Valid() && overrides == old(overrides)
      ensures r == Report(fetch, overrides, locations, depth + 1, options)
      ensures var found := 0 <= depth + 1 + 1 < |locations|;
        found && r.Ok? ==> cache == old(cache)[locations[depth + 1 + 1].fileName := Lines(Resource(fetch, locations[depth + 1 + 1].fileName))]
      ensures var found := 0 <= depth + 1 + 1 < |locations|;
        found && r.Ok? ==> var f := locations[depth + 1 + 1].fileName;
          fetched == if f in old(cache) then old(fetched) else old(fetched) + [f]
      ensures !(0 <= depth + 1 + 1 < |locations| && r.Ok?) ==> cache == old(cache) && fetched == old(fetched)
    {
      r := GetCode(locations, depth + 1, options);
    }
  }
}
