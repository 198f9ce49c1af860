/**
 * What the payload decoders promise: the values the source's tests expect,
 * the defaults and ranges of the print options, and that decoding what
 * `parameters_json` writes gives the payload back.
 */
module ParameterProperties {
  import opened Basics
  import opened Json
  import opened Parameters

  // ----- Simple payloads ------------------------------------------------------

  lemma ContextRoundTrip(p: GeckoContextParameters)
    ensures DecodeContextParameters(EncodeContextParameters(p)) == Ok(p)
  {
  }

  lemma UninstallRoundTrip(p: AddonUninstallParameters)
    ensures DecodeUninstallParameters(EncodeUninstallParameters(p)) == Ok(p)
  {
  }

  lemma LocatorRoundTrip(p: XblLocatorParameters)
    ensures DecodeLocatorParameters(EncodeLocatorParameters(p)) == Ok(p)
  {
  }

  /** Re-encoded install parameters always come back through the `Path` shape. */
  lemma InstallRoundTrip(p: AddonInstallParameters)
    ensures DecodeAddonShape(EncodeInstallParameters(p)) == Ok(ByPath(p.path, p.temporary))
  {
  }

  // ----- Print options --------------------------------------------------------

  lemma StringsInjective(a: seq<string>, b: seq<string>)
    requires Strings(a) == Strings(b)
    ensures a == b
  {
    assert |a| == |b|;
    forall i | 0 <= i < |a| ensures a[i] == b[i] {
      assert Strings(a)[i] == Strings(b)[i];
    }
  }

  lemma DecodeStringsExactly(items: seq<Json>, ss: seq<string>)
    ensures DecodeStrings(items) == Ok(ss) <==> items == Strings(ss)
  {
    if items == Strings(ss) {
      var r := DecodeStrings(items);
      assert r.Ok?;
      StringsInjective(r.value, ss);
    }
  }

  lemma PageExactly(j: Json, p: PrintPage)
    ensures DecodePrintPage(j) == Ok(p) <==> PageDescribes(j, p) && ValidPage(p)
  {
  }

  lemma MarginsExactly(j: Json, m: PrintMargins)
    ensures DecodePrintMargins(j) == Ok(m) <==> MarginsDescribe(j, m) && ValidMargins(m)
  {
  }

  lemma OrientationExactly(f: map<string, Json>, o: PrintOrientation)
    ensures OrientationField(f) == Ok(o) <==>
      if "orientation" in f then f["orientation"] == Str(OrientationToken(o)) else o == Portrait
  {
  }

  lemma ScaleExactly(f: map<string, Json>, v: real)
    ensures ScaleField(f) == Ok(v) <==> NumberOr(f, "scale", 1.0, v) && 0.1 <= v <= 2.0
  {
  }

  lemma BoolExactly(f: map<string, Json>, key: string, default: bool, b: bool)
    ensures BoolFieldOr(f, key, default) == Ok(b) <==> BoolOr(f, key, default, b)
  {
  }

  lemma PageRangesExactly(f: map<string, Json>, ss: seq<string>)
    ensures PageRangesField(f) == Ok(ss) <==>
      if "pageRanges" in f then f["pageRanges"] == Arr(Strings(ss)) else ss == []
  {
    if "pageRanges" in f && f["pageRanges"].Arr? {
      DecodeStringsExactly(f["pageRanges"].items, ss);
    }
  }

  /** Every field of the decoded value is what the body says, or the default. */
  lemma {:induction false} PrintSound(body: Json, p: PrintParameters)
    requires DecodePrintParameters(body) == Ok(p)
    ensures PrintDescribes(body, p) && ValidPrint(p)
  {
    var f := body.fields;
    OrientationExactly(f, p.orientation);
    ScaleExactly(f, p.scale);
    BoolExactly(f, "background", false, p.background);
    BoolExactly(f, "shrinkToFit", true, p.shrinkToFit);
    if "page" in f { PageExactly(f["page"], p.page); }
    if "margin" in f { MarginsExactly(f["margin"], p.margin); }
    PageRangesExactly(f, p.pageRanges);
  }

  /** Every in-range value is decoded from each body that spells it. */
  lemma {:induction false} PrintComplete(body: Json, p: PrintParameters)
    requires PrintDescribes(body, p) && ValidPrint(p)
    ensures DecodePrintParameters(body) == Ok(p)
  {
    var f := body.fields;
    OrientationExactly(f, p.orientation);
    ScaleExactly(f, p.scale);
    BoolExactly(f, "background", false, p.background);
    BoolExactly(f, "shrinkToFit", true, p.shrinkToFit);
    if "page" in f { PageExactly(f["page"], p.page); }
    if "margin" in f { MarginsExactly(f["margin"], p.margin); }
    PageRangesExactly(f, p.pageRanges);
    assert OrientationField(f) == Ok(p.orientation);
    assert ScaleField(f) == Ok(p.scale);
    assert PageField(f) == Ok(p.page);
    assert MarginField(f) == Ok(p.margin);
    assert PageRangesField(f) == Ok(p.pageRanges);
  }

  /**
   * A print body decodes to `p` exactly when it spells `p` field by field,
   * with defaults for absent fields, and `p` is in range.
   */
  lemma PrintExactly(body: Json, p: PrintParameters)
    ensures DecodePrintParameters(body) == Ok(p) <==> PrintDescribes(body, p) && ValidPrint(p)
  {
    if DecodePrintParameters(body) == Ok(p) { PrintSound(body, p); }
    if PrintDescribes(body, p) && ValidPrint(p) { PrintComplete(body, p); }
  }

  /** Decoding `{}` gives exactly `PrintParameters::default()`. */
  lemma PrintDefaults()
    ensures DecodePrintParameters(Obj(map[])) == Ok(DefaultPrintParameters())
  {
    PrintComplete(Obj(map[]), DefaultPrintParameters());
  }

  /** `{"scale": v}` is accepted exactly for 0.1 <= v <= 2, and then sets only the scale. */
  lemma PrintScaleRange(v: real)
    ensures DecodePrintParameters(Obj(map["scale" := Num(v)])) ==
      if 0.1 <= v <= 2.0 then Ok(DefaultPrintParameters().(scale := v)) else Err(OutsideScaleRange(v))
  {
    if 0.1 <= v <= 2.0 {
      PrintComplete(Obj(map["scale" := Num(v)]), DefaultPrintParameters().(scale := v));
    }
  }

  /** A page object naming only the width keeps the default height. */
  lemma PrintPartialPage(w: real)
    requires w >= 0.0
    ensures DecodePrintParameters(Obj(map["page" := Obj(map["width" := Num(w)])])) ==
      Ok(DefaultPrintParameters().(page := PrintPage(w, 27.94)))
  {
    PrintComplete(Obj(map["page" := Obj(map["width" := Num(w)])]), DefaultPrintParameters().(page := PrintPage(w, 27.94)));
  }

  /** A negative margin, on any side, refuses the whole body, naming the value. */
  lemma PrintNegativeMargin(side: string, v: real)
    requires side in {"top", "bottom", "left", "right"}
    requires v < 0.0
    ensures DecodePrintParameters(Obj(map["margin" := Obj(map[side := Num(v)])])) == Err(Negative(v))
  {
  }

  /** A negative page width or height refuses the whole body, naming the value. */
  lemma PrintNegativePage(dimension: string, v: real)
    requires dimension in {"width", "height"}
    requires v < 0.0
    ensures DecodePrintParameters(Obj(map["page" := Obj(map[dimension := Num(v)])])) == Err(Negative(v))
  {
  }

  /** The body of the source's print test and the value it expects. */
  lemma PrintExample()
    ensures DecodePrintParameters(Obj(map[
        "orientation" := Str("landscape"),
        "page" := Obj(map["width" := Num(10.0)]),
        "margin" := Obj(map["top" := Num(10.0)]),
        "scale" := Num(1.5)]))
      == Ok(PrintParameters(Landscape, 1.5, false, PrintPage(10.0, 27.94),
                            PrintMargins(10.0, 1.0, 1.0, 1.0), [], true))
  {
    PrintComplete(
      Obj(map[
        "orientation" := Str("landscape"),
        "page" := Obj(map["width" := Num(10.0)]),
        "margin" := Obj(map["top" := Num(10.0)]),
        "scale" := Num(1.5)]),
      PrintParameters(Landscape, 1.5, false, PrintPage(10.0, 27.94), PrintMargins(10.0, 1.0, 1.0, 1.0), [], true));
  }

  /** Keys the print options do not declare change nothing (no `deny_unknown_fields`). */
  lemma PrintIgnoresUnknownKeys(f: map<string, Json>, key: string, v: Json)
    requires key !in {"orientation", "scale", "background", "page", "margin", "pageRanges", "shrinkToFit"}
    ensures DecodePrintParameters(Obj(f[key := v])) == DecodePrintParameters(Obj(f))
  {
    var g := f[key := v];
    assert OrientationField(g) == OrientationField(f);
    assert ScaleField(g) == ScaleField(f);
    assert BoolFieldOr(g, "background", false) == BoolFieldOr(f, "background", false);
    assert PageField(g) == PageField(f);
    assert MarginField(g) == MarginField(f);
    assert PageRangesField(g) == PageRangesField(f);
    assert BoolFieldOr(g, "shrinkToFit", true) == BoolFieldOr(f, "shrinkToFit", true);
  }

  /** What `parameters_json` writes for print options decodes back exactly when they are in range. */
  lemma PrintRoundTrip(p: PrintParameters)
    ensures DecodePrintParameters(EncodePrintParameters(p)) == Ok(p) <==> ValidPrint(p)
  {
    var body := EncodePrintParameters(p);
    assert PrintDescribes(body, p);
    PrintExactly(body, p);
  }

  /**
   * The scale test decodes `{"scale": 3}` as add-on install parameters, which
   * refuse it for naming neither `addon` nor `path`; an in-range scale is
   * refused the same way, so the test cannot tell the scale rule apart.
   */
  lemma ScaleTestAsWritten()
    ensures DecodeAddonShape(Obj(map["scale" := Num(3.0)])) == Err(NoMatchingShape)
    ensures DecodeAddonShape(Obj(map["scale" := Num(1.0)])) == Err(NoMatchingShape)
  {
    AddonShapeRejects(Obj(map["scale" := Num(3.0)]));
    AddonShapeRejects(Obj(map["scale" := Num(1.0)]));
  }

  /** The same body decoded as print options, as the test's name intends. */
  lemma ScaleTestIntended()
    ensures DecodePrintParameters(Obj(map["scale" := Num(3.0)])) == Err(OutsideScaleRange(3.0))
    ensures DecodePrintParameters(Obj(map["scale" := Num(1.0)])) == Ok(DefaultPrintParameters())
  {
    PrintScaleRange(3.0);
    PrintScaleRange(1.0);
  }
}
