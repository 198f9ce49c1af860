/**
 * The payload types of the extension commands, each with the JSON decoding
 * rules serde derives for it (or that the source writes by hand), the JSON
 * that `serde_json::to_value` produces for it, and the range validators.
 */
module Parameters {
  import opened Basics
  import opened Json

  // ----- Context switching ---------------------------------------------------

  datatype GeckoContext = Content | Chrome

  datatype GeckoContextParameters = GeckoContextParameters(context: GeckoContext)

  /** The lowercase token serde uses for each context. */
  function ContextToken(c: GeckoContext): string
  {
    match c
    case Content => "content"
    case Chrome => "chrome"
  }

  function DecodeGeckoContext(j: Json): Result<GeckoContext, DecodeError>
  {
    if j == Str("content") then Ok(Content)
    else if j == Str("chrome") then Ok(Chrome)
    else if j.Str? then Err(UnknownVariant("context", j.s))
    else Err(InvalidType("context"))
  }

  /** `GeckoContextParameters`: one required key `context`; other keys are ignored. */
  function DecodeContextParameters(body: Json): (r: Result<GeckoContextParameters, DecodeError>)
    ensures r.Ok? <==> body.Obj? && "context" in body.fields
                       && body.fields["context"] in {Str("content"), Str("chrome")}
    ensures r.Ok? ==> body.fields["context"] == Str(ContextToken(r.value.context))
  {
    if !body.Obj? then Err(NotAnObject)
    else if "context" !in body.fields then Err(MissingField("context"))
    else
      var context :- DecodeGeckoContext(body.fields["context"]);
      Ok(GeckoContextParameters(context))
  }

  function EncodeContextParameters(p: GeckoContextParameters): Json
  {
    Obj(map["context" := Str(ContextToken(p.context))])
  }

  // ----- Add-on uninstall ----------------------------------------------------

  datatype AddonUninstallParameters = AddonUninstallParameters(id: string)

  /** `AddonUninstallParameters`: a required string `id`; other keys are ignored. */
  function DecodeUninstallParameters(body: Json): (r: Result<AddonUninstallParameters, DecodeError>)
    ensures r.Ok? <==> body.Obj? && "id" in body.fields && body.fields["id"].Str?
    ensures r.Ok? ==> body.fields["id"] == Str(r.value.id)
  {
    if !body.Obj? then Err(NotAnObject)
    else
      var id :- StringField(body.fields, "id");
      Ok(AddonUninstallParameters(id))
  }

  function EncodeUninstallParameters(p: AddonUninstallParameters): Json
  {
    Obj(map["id" := Str(p.id)])
  }

  // ----- Anonymous-content locator -------------------------------------------

  datatype XblLocatorParameters = XblLocatorParameters(name: string, value: string)

  /** `XblLocatorParameters`: required strings `name` and `value`; other keys are ignored. */
  function DecodeLocatorParameters(body: Json): (r: Result<XblLocatorParameters, DecodeError>)
    ensures r.Ok? <==> body.Obj? && "name" in body.fields && body.fields["name"].Str?
                       && "value" in body.fields && body.fields["value"].Str?
    ensures r.Ok? ==> body.fields["name"] == Str(r.value.name) && body.fields["value"] == Str(r.value.value)
  {
    if !body.Obj? then Err(NotAnObject)
    else
      var name :- StringField(body.fields, "name");
      var value :- StringField(body.fields, "value");
      Ok(XblLocatorParameters(name, value))
  }

  function EncodeLocatorParameters(p: XblLocatorParameters): Json
  {
    Obj(map["name" := Str(p.name), "value" := Str(p.value)])
  }

  // ----- Add-on install: the two input shapes ---------------------------------

  datatype AddonInstallParameters = AddonInstallParameters(path: string, temporary: Option<bool>)

  /** Which helper struct of the untagged enum matched, with its fields. */
  datatype AddonShape =
    | Inline(addon: string, temporary: Option<bool>)   // the `Base64` helper
    | ByPath(path: string, temporary: Option<bool>)    // the `Path` helper

  /** An optional `temporary` key holds what an `Option<bool>` accepts. */
  predicate TemporaryOk(fields: map<string, Json>)
  {
    "temporary" !in fields || fields["temporary"] == Null || fields["temporary"].Bool?
  }

  function TemporaryOf(fields: map<string, Json>): Option<bool>
  {
    if "temporary" in fields && fields["temporary"].Bool? then Some(fields["temporary"].b) else None
  }

  /** The object the `Base64` helper accepts: `addon` string, optional `temporary`, nothing else. */
  predicate InlineForm(body: Json)
  {
    && body.Obj?
    && body.fields.Keys <= {"addon", "temporary"}
    && "addon" in body.fields && body.fields["addon"].Str?
    && TemporaryOk(body.fields)
  }

  /** The object the `Path` helper accepts: `path` string, optional `temporary`, nothing else. */
  predicate PathForm(body: Json)
  {
    && body.Obj?
    && body.fields.Keys <= {"path", "temporary"}
    && "path" in body.fields && body.fields["path"].Str?
    && TemporaryOk(body.fields)
  }

  /** The inline helper shape: a string `addon`, an optional boolean `temporary`, and no other key. */
  function DecodeInlineShape(body: Json): Result<AddonShape, DecodeError>
  {
    if !body.Obj? then Err(NotAnObject)
    else
      var known :- OnlyFields(body.fields, {"addon", "temporary"});
      var addon :- StringField(body.fields, "addon");
      var temporary :- OptionalBoolField(body.fields, "temporary");
      Ok(Inline(addon, temporary))
  }

  /** The path helper shape: a string `path`, an optional boolean `temporary`, and no other key. */
  function DecodePathShape(body: Json): Result<AddonShape, DecodeError>
  {
    if !body.Obj? then Err(NotAnObject)
    else
      var known :- OnlyFields(body.fields, {"path", "temporary"});
      var path :- StringField(body.fields, "path");
      var temporary :- OptionalBoolField(body.fields, "temporary");
      Ok(ByPath(path, temporary))
  }

  /**
   * The untagged `Helper` enum: the `Base64` variant is tried first, then
   * `Path`; when neither matches the inner errors are dropped.
   */
  function DecodeAddonShape(body: Json): (r: Result<AddonShape, DecodeError>)
    ensures r.Ok? <==> InlineForm(body) || PathForm(body)
    ensures InlineForm(body) ==> r == Ok(Inline(body.fields["addon"].s, TemporaryOf(body.fields)))
    ensures PathForm(body) ==> r == Ok(ByPath(body.fields["path"].s, TemporaryOf(body.fields)))
    ensures r.Err? ==> r.error == NoMatchingShape
  {
    match DecodeInlineShape(body)
    case Ok(shape) => Ok(shape)
    case Err(_) =>
      match DecodePathShape(body)
      case Ok(shape) => Ok(shape)
      case Err(_) => Err(NoMatchingShape)
  }

  /** No object has both shapes, so the try order never decides between two matches. */
  lemma ShapesExclusive(body: Json)
    ensures !(InlineForm(body) && PathForm(body))
  {
  }

  /** The bodies the source's tests reject, and every body naming both shapes. */
  lemma AddonShapeRejects(body: Json)
    requires || body == Null
             || body == Obj(map[])
             || body == Obj(map["temporary" := Bool(true)])
             || (body.Obj? && "path" in body.fields && "addon" in body.fields)
             || (body.Obj? && "path" !in body.fields && "addon" !in body.fields)
    ensures DecodeAddonShape(body) == Err(NoMatchingShape)
  {
    if body.Obj? && "path" in body.fields && "addon" in body.fields {
      assert "path" in body.fields.Keys && "addon" in body.fields.Keys;
    }
  }

  /** The JSON `serde_json::to_value` gives: `temporary` is always present, `null` for `None`. */
  function EncodeInstallParameters(p: AddonInstallParameters): Json
  {
    Obj(map["path" := Str(p.path), "temporary" := OptionalBool(p.temporary)])
  }

  // ----- Range validators -----------------------------------------------------

  /** `deserialize_to_positive_f64` once the number is read: negatives are refused. */
  function NonNegative(v: real): (r: Result<real, DecodeError>)
    ensures r.Ok? <==> v >= 0.0
    ensures r.Ok? ==> r.value == v
    ensures r.Err? ==> r.error == Negative(v)
  {
    if v < 0.0 then Err(Negative(v)) else Ok(v)
  }

  /** `deserialize_to_print_scale_f64` once the number is read: the closed range 0.1 to 2. */
  function PrintScale(v: real): (r: Result<real, DecodeError>)
    ensures r.Ok? <==> 0.1 <= v <= 2.0
    ensures r.Ok? ==> r.value == v
    ensures r.Err? ==> r.error == OutsideScaleRange(v)
  {
    if v < 0.1 || v > 2.0 then Err(OutsideScaleRange(v)) else Ok(v)
  }

  /** A non-negative number field of a `#[serde(default)]` struct. */
  function NonNegativeFieldOr(fields: map<string, Json>, key: string, default: real): Result<real, DecodeError>
  {
    if key !in fields then Ok(default)
    else
      var v :- Number(key, fields[key]);
      NonNegative(v)
  }

  // ----- Printing ---------------------------------------------------------------

  datatype PrintOrientation = Landscape | Portrait

  datatype PrintPage = PrintPage(width: real, height: real)

  datatype PrintMargins = PrintMargins(top: real, bottom: real, left: real, right: real)

  datatype PrintParameters = PrintParameters(
    orientation: PrintOrientation,
    scale: real,
    background: bool,
    page: PrintPage,
    margin: PrintMargins,
    pageRanges: seq<string>,
    shrinkToFit: bool)

  /** `PrintPage::default()`: US Letter in centimetres. */
  function DefaultPage(): PrintPage
  {
    PrintPage(21.59, 27.94)
  }

  function DefaultMargins(): PrintMargins
  {
    PrintMargins(1.0, 1.0, 1.0, 1.0)
  }

  function DefaultPrintParameters(): PrintParameters
  {
    PrintParameters(Portrait, 1.0, false, DefaultPage(), DefaultMargins(), [], true)
  }

  /** What the validators guarantee of every decoded value. */
  predicate ValidPage(p: PrintPage)
  {
    p.width >= 0.0 && p.height >= 0.0
  }

  predicate ValidMargins(m: PrintMargins)
  {
    m.top >= 0.0 && m.bottom >= 0.0 && m.left >= 0.0 && m.right >= 0.0
  }

  predicate ValidPrint(p: PrintParameters)
  {
    0.1 <= p.scale <= 2.0 && ValidPage(p.page) && ValidMargins(p.margin)
  }

  lemma DefaultsValid()
    ensures ValidPrint(DefaultPrintParameters())
  {
  }

  function OrientationToken(o: PrintOrientation): string
  {
    match o
    case Landscape => "landscape"
    case Portrait => "portrait"
  }

  function DecodeOrientation(j: Json): Result<PrintOrientation, DecodeError>
  {
    if j == Str("landscape") then Ok(Landscape)
    else if j == Str("portrait") then Ok(Portrait)
    else if j.Str? then Err(UnknownVariant("orientation", j.s))
    else Err(InvalidType("orientation"))
  }

  /** `PrintPage` with `#[serde(default)]`: each absent field takes its own default. */
  function DecodePrintPage(j: Json): (r: Result<PrintPage, DecodeError>)
    ensures r.Ok? ==> ValidPage(r.value)
  {
    if !j.Obj? then Err(NotAnObject)
    else
      var width :- NonNegativeFieldOr(j.fields, "width", DefaultPage().width);
      var height :- NonNegativeFieldOr(j.fields, "height", DefaultPage().height);
      Ok(PrintPage(width, height))
  }

  function DecodePrintMargins(j: Json): (r: Result<PrintMargins, DecodeError>)
    ensures r.Ok? ==> ValidMargins(r.value)
  {
    if !j.Obj? then Err(NotAnObject)
    else
      var d := DefaultMargins();
      var top :- NonNegativeFieldOr(j.fields, "top", d.top);
      var bottom :- NonNegativeFieldOr(j.fields, "bottom", d.bottom);
      var left :- NonNegativeFieldOr(j.fields, "left", d.left);
      var right :- NonNegativeFieldOr(j.fields, "right", d.right);
      Ok(PrintMargins(top, bottom, left, right))
  }

  /** The JSON array serde writes for a `Vec<String>`. */
  function Strings(ss: seq<string>): (items: seq<Json>)
    ensures |items| == |ss|
    ensures forall i :: 0 <= i < |ss| ==> items[i] == Str(ss[i])
  {
    seq(|ss|, i requires 0 <= i < |ss| => Str(ss[i]))
  }

  /** A `Vec<String>`: every element must be a string. */
  function DecodeStrings(items: seq<Json>): (r: Result<seq<string>, DecodeError>)
    ensures r.Ok? <==> forall i :: 0 <= i < |items| ==> items[i].Str?
    ensures r.Ok? ==> Strings(r.value) == items
    decreases |items|
  {
    if items == [] then Ok([])
    else if !items[0].Str? then Err(InvalidType("pageRanges"))
    else
      var rest :- DecodeStrings(items[1..]);
      Ok([items[0].s] + rest)
  }

  function DecodePageRanges(j: Json): Result<seq<string>, DecodeError>
  {
    if j.Arr? then DecodeStrings(j.items) else Err(InvalidType("pageRanges"))
  }

  function OrientationField(f: map<string, Json>): Result<PrintOrientation, DecodeError>
  {
    if "orientation" in f then DecodeOrientation(f["orientation"]) else Ok(Portrait)
  }

  /** An absent `scale` takes the default without passing the validator. */
  function ScaleField(f: map<string, Json>): Result<real, DecodeError>
  {
    if "scale" in f then (var v :- Number("scale", f["scale"]); PrintScale(v)) else Ok(1.0)
  }

  function PageField(f: map<string, Json>): Result<PrintPage, DecodeError>
  {
    if "page" in f then DecodePrintPage(f["page"]) else Ok(DefaultPage())
  }

  function MarginField(f: map<string, Json>): Result<PrintMargins, DecodeError>
  {
    if "margin" in f then DecodePrintMargins(f["margin"]) else Ok(DefaultMargins())
  }

  function PageRangesField(f: map<string, Json>): Result<seq<string>, DecodeError>
  {
    if "pageRanges" in f then DecodePageRanges(f["pageRanges"]) else Ok([])
  }

  /**
   * `PrintParameters` with `#[serde(default, rename_all = "camelCase")]`:
   * unknown keys are ignored, absent fields take the default, present fields
   * go through their own decoder and validator.
   */
  function DecodePrintParameters(body: Json): (r: Result<PrintParameters, DecodeError>)
    ensures r.Ok? ==> ValidPrint(r.value)
  {
    if !body.Obj? then Err(NotAnObject)
    else
      var f := body.fields;
      var orientation :- OrientationField(f);
      var scale :- ScaleField(f);
      var background :- BoolFieldOr(f, "background", false);
      var page :- PageField(f);
      var margin :- MarginField(f);
      var pageRanges :- PageRangesField(f);
      var shrinkToFit :- BoolFieldOr(f, "shrinkToFit", true);
      Ok(PrintParameters(orientation, scale, background, page, margin, pageRanges, shrinkToFit))
  }

  function EncodePrintPage(p: PrintPage): Json
  {
    Obj(map["width" := Num(p.width), "height" := Num(p.height)])
  }

  function EncodePrintMargins(m: PrintMargins): Json
  {
    Obj(map["top" := Num(m.top), "bottom" := Num(m.bottom), "left" := Num(m.left), "right" := Num(m.right)])
  }

  function EncodePrintParameters(p: PrintParameters): Json
  {
    Obj(map[
      "orientation" := Str(OrientationToken(p.orientation)),
      "scale" := Num(p.scale),
      "background" := Bool(p.background),
      "page" := EncodePrintPage(p.page),
      "margin" := EncodePrintMargins(p.margin),
      "pageRanges" := Arr(Strings(p.pageRanges)),
      "shrinkToFit" := Bool(p.shrinkToFit)])
  }

  // ----- What a print body means, field by field --------------------------------

  /** `v` is what key `key` says, or `default` when the key is absent. */
  predicate NumberOr(fields: map<string, Json>, key: string, default: real, v: real)
  {
    if key in fields then fields[key] == Num(v) else v == default
  }

  predicate BoolOr(fields: map<string, Json>, key: string, default: bool, v: bool)
  {
    if key in fields then fields[key] == Bool(v) else v == default
  }

  predicate PageDescribes(j: Json, p: PrintPage)
  {
    && j.Obj?
    && NumberOr(j.fields, "width", DefaultPage().width, p.width)
    && NumberOr(j.fields, "height", DefaultPage().height, p.height)
  }

  predicate MarginsDescribe(j: Json, m: PrintMargins)
  {
    && j.Obj?
    && NumberOr(j.fields, "top", 1.0, m.top)
    && NumberOr(j.fields, "bottom", 1.0, m.bottom)
    && NumberOr(j.fields, "left", 1.0, m.left)
    && NumberOr(j.fields, "right", 1.0, m.right)
  }

  /**
   * An independent statement of the wire format: `body` is an object whose
   * known keys spell out `p`, and each absent key leaves the documented default
   * (per field, also inside `page` and `margin`). Other keys play no part.
   */
  predicate PrintDescribes(body: Json, p: PrintParameters)
  {
    && body.Obj?
    && var f := body.fields;
    && (if "orientation" in f then f["orientation"] == Str(OrientationToken(p.orientation))
        else p.orientation == Portrait)
    && NumberOr(f, "scale", 1.0, p.scale)
    && BoolOr(f, "background", false, p.background)
    && (if "page" in f then PageDescribes(f["page"], p.page) else p.page == DefaultPage())
    && (if "margin" in f then MarginsDescribe(f["margin"], p.margin) else p.margin == DefaultMargins())
    && (if "pageRanges" in f then f["pageRanges"] == Arr(Strings(p.pageRanges)) else p.pageRanges == [])
    && BoolOr(f, "shrinkToFit", true, p.shrinkToFit)
  }
}
