/** Format options (code/index.js:114-170): the built-in defaults, the `typeof` check of
    `checkFormatOptions`, and the spread merge defaults <- installed overrides <- per call. */
module Options {
  import opened Wrappers

  /** An option value as far as `typeof` can tell: JavaScript numbers are taken to be integers. */
  datatype Value = Number(n: int) | Boolean(b: bool) | Str(s: string) | Undefined

  /** The answer of `typeof`. */
  datatype TypeTag = NumberType | BooleanType | StringType | UndefinedType

  /** An options object: its own keys and their values. */
  type OptionMap = map<string, Value>

  function TypeOf(v: Value): TypeTag
  {
    match v
    case Number(_) => NumberType
    case Boolean(_) => BooleanType
    case Str(_) => StringType
    case Undefined => UndefinedType
  }

  /** `_defaultFormatOptions`. */
  const Defaults: OptionMap := map[
    "lineOffset" := Number(0),
    "surroundBefore" := Number(2),
    "surroundAfter" := Number(2),
    "showFileName" := Boolean(true),
    "showLineNumber" := Boolean(true),
    "brief" := Boolean(false),
    "lineNumberWidth" := Number(4),
    "pointer" := Str("--> ")]

  /** `typeof _defaultFormatOptions[k]`: a key without a default reads as undefined. */
  function DefaultType(k: string): TypeTag
  {
    if k in Defaults then TypeOf(Defaults[k]) else UndefinedType
  }

  /** The keys `checkFormatOptions` reports. */
  function BadKeys(o: OptionMap): set<string>
  {
    set k | k in o && TypeOf(o[k]) != DefaultType(k)
  }

  predicate WellTyped(o: OptionMap)
  {
    forall k :: k in o ==> TypeOf(o[k]) == DefaultType(k)
  }

  /** `checkFormatOptions`: all or nothing. The object comes back unchanged when every key
      has its default's type; otherwise the call fails naming exactly the mistyped keys. */
  function CheckFormatOptions(o: OptionMap): (r: Result<OptionMap, set<string>>)
    ensures r.Ok? <==> WellTyped(o)
    ensures r.Ok? ==> r.value == o
    ensures r.Err? ==> r.error != {} && forall k :: k in r.error <==> k in o && TypeOf(o[k]) != DefaultType(k)
  {
    var bad := BadKeys(o);
    assert forall k :: k in o && TypeOf(o[k]) != DefaultType(k) ==> k in bad;
    if bad == {} then Ok(o)
    else Err(bad)
  }

  /** `{..._defaultFormatOptions, ..._formatOptions, ...options}`. */
  function Merge(overrides: OptionMap, call: OptionMap): OptionMap
  {
    Defaults + overrides + call
  }

  /** Precedence of the merge: a per-call value wins, then an installed override, then the
      built-in default; the merged object always has every default key. */
  lemma MergePrecedence(overrides: OptionMap, call: OptionMap, k: string)
    ensures Defaults.Keys <= Merge(overrides, call).Keys
    ensures k in Merge(overrides, call) <==> k in Defaults || k in overrides || k in call
    ensures k in call ==> Merge(overrides, call)[k] == call[k]
    ensures k !in call && k in overrides ==> Merge(overrides, call)[k] == overrides[k]
    ensures k !in call && k !in overrides && k in Defaults ==> Merge(overrides, call)[k] == Defaults[k]
  {
  }

  /** With well-typed overrides installed, the merged options are rejected exactly when
      the per-call options are. */
  lemma MergeWellTyped(overrides: OptionMap, call: OptionMap)
    requires WellTyped(overrides)
    ensures WellTyped(Merge(overrides, call)) <==> WellTyped(call)
  {
    var m := Merge(overrides, call);
    if WellTyped(call) {
      forall k | k in m ensures TypeOf(m[k]) == DefaultType(k) {
        MergePrecedence(overrides, call, k);
      }
    } else {
      var k :| k in call && TypeOf(call[k]) != DefaultType(k);
      MergePrecedence(overrides, call, k);
    }
  }

  /** The options the formatter reads, once validated. */
  datatype FormatOptions = FormatOptions(
    lineOffset: int,
    surroundBefore: int,
    surroundAfter: int,
    showFileName: bool,
    showLineNumber: bool,
    brief: bool,
    lineNumberWidth: int,
    pointer: string)

  /** Reading the fields of a validated options object that has every default key. */
  function ToRecord(o: OptionMap): FormatOptions
    requires WellTyped(o) && Defaults.Keys <= o.Keys
  {
    assert TypeOf(o["lineOffset"]) == NumberType && TypeOf(o["surroundBefore"]) == NumberType;
    assert TypeOf(o["surroundAfter"]) == NumberType && TypeOf(o["lineNumberWidth"]) == NumberType;
    assert TypeOf(o["showFileName"]) == BooleanType && TypeOf(o["showLineNumber"]) == BooleanType;
    assert TypeOf(o["brief"]) == BooleanType && TypeOf(o["pointer"]) == StringType;
    FormatOptions(
      o["lineOffset"].n, o["surroundBefore"].n, o["surroundAfter"].n,
      o["showFileName"].b, o["showLineNumber"].b, o["brief"].b,
      o["lineNumberWidth"].n, o["pointer"].s)
  }

  /** The first statement of `formatter`: merge the layers and validate the result, giving
      the options the rest of `formatter` reads, or the mistyped keys it throws for. */
  function Resolve(overrides: OptionMap, call: OptionMap): (r: Result<FormatOptions, set<string>>)
    ensures r.Ok? <==> WellTyped(Merge(overrides, call))
    ensures r.Err? ==> r.error == BadKeys(Merge(overrides, call)) && r.error != {}
  {
    MergePrecedence(overrides, call, "");
    match CheckFormatOptions(Merge(overrides, call))
    case Err(bad) => Err(bad)
    case Ok(merged) => Ok(ToRecord(merged))
  }

  /** With well-typed overrides installed, `formatter` rejects exactly the mistyped per-call
      options, and then names exactly their mistyped keys. */
  lemma ResolveRejects(overrides: OptionMap, call: OptionMap)
    requires WellTyped(overrides)
    ensures Resolve(overrides, call).Err? <==> !WellTyped(call)
    ensures Resolve(overrides, call).Err? ==> Resolve(overrides, call).error == BadKeys(call)
  {
    MergeWellTyped(overrides, call);
    var m := Merge(overrides, call);
    forall k | k in m && TypeOf(m[k]) != DefaultType(k) ensures k in call {
      MergePrecedence(overrides, call, k);
    }
    forall k | k in call ensures k in m && m[k] == call[k] {
      MergePrecedence(overrides, call, k);
    }
  }

  /** The value the merge gives key `k`: per call, else installed override, else default. */
  function Layered(overrides: OptionMap, call: OptionMap, k: string): Value
    requires k in Defaults
  {
    if k in call then call[k] else if k in overrides then overrides[k] else Defaults[k]
  }

  /** Every field of the resolved options comes from the highest layer that sets it: a
      per-call value wins over an installed override, which wins over the built-in default. */
  lemma ResolveLayers(overrides: OptionMap, call: OptionMap)
    requires Resolve(overrides, call).Ok?
    ensures var o := Resolve(overrides, call).value;
      && o.lineOffset == Layered(overrides, call, "lineOffset").n
      && o.surroundBefore == Layered(overrides, call, "surroundBefore").n
      && o.surroundAfter == Layered(overrides, call, "surroundAfter").n
      && o.showFileName == Layered(overrides, call, "showFileName").b
      && o.showLineNumber == Layered(overrides, call, "showLineNumber").b
      && o.brief == Layered(overrides, call, "brief").b
      && o.lineNumberWidth == Layered(overrides, call, "lineNumberWidth").n
      && o.pointer == Layered(overrides, call, "pointer").s
  {
    MergePrecedence(overrides, call, "lineOffset");
    MergePrecedence(overrides, call, "surroundBefore");
    MergePrecedence(overrides, call, "surroundAfter");
    MergePrecedence(overrides, call, "showFileName");
    MergePrecedence(overrides, call, "showLineNumber");
    MergePrecedence(overrides, call, "brief");
    MergePrecedence(overrides, call, "lineNumberWidth");
    MergePrecedence(overrides, call, "pointer");
  }

  /** With nothing overridden the formatter uses the documented defaults. */
  lemma DefaultOptions()
    ensures Resolve(map[], map[]) == Ok(FormatOptions(0, 2, 2, true, true, false, 4, "--> "))
  {
    assert Merge(map[], map[]) == Defaults;
  }

  /** A mistyped value such as `{lineOffset: "oops"}` is rejected. */
  lemma RejectsMistypedOffset()
    ensures CheckFormatOptions(map["lineOffset" := Str("oops")]) == Err({"lineOffset"})
  {
    var o := map["lineOffset" := Str("oops")];
    assert BadKeys(o) == {"lineOffset"};
  }
}
