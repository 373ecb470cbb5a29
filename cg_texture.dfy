/** Render-target sizes (`TextureSemantic::getSize2` and `getSize3`,
    libvpvl2/include/vpvl2/cg/EngineCommon.h): a size comes from a viewport
    ratio, explicit dimensions, a width/height pair or the viewport itself,
    in that order of precedence, and every dimension is clamped to at least
    one. The viewport, which the render delegate reports, is a parameter. */
module CgTexture {
  import opened Geometry
  import opened CgAnnotations

  /** `btMax(1, v)`. */
  function AtLeastOne(v: int): (r: int)
    ensures r >= 1 && r >= v && (r == v || r == 1)
  {
    if v > 1 then v else 1
  }

  /** One dimension of a viewport-relative target: the viewport extent times
      the ratio, truncated, at least one. */
  function Scaled(extent: real, ratio: real): (r: int)
    ensures r >= 1
  {
    AtLeastOne(TruncToInt(extent * ratio))
  }

  /** The width and height `getSize2` derives, given the annotation whose
      int values are read on the `Dimensions` path: `dimensionsSource`. */
  function Size2From(anns: Annotations, viewport: Vec3, dimensionsSource: string): (r: (int, int))
    ensures r.0 >= 1 && r.1 >= 1
  {
    var ratio := FloatsOf(Lookup(anns, "ViewportRatio"));
    if |ratio| == 2 then
      (Scaled(viewport.x, ratio[0]), Scaled(viewport.y, ratio[1]))
    else if "Dimensions" in anns && |IntsOf(Lookup(anns, dimensionsSource))| == 2 then
      var values := IntsOf(Lookup(anns, dimensionsSource));
      (AtLeastOne(values[0]), AtLeastOne(values[1]))
    else if "Width" in anns && "Height" in anns then
      (AtLeastOne(ToInt(Lookup(anns, "Width"))), AtLeastOne(ToInt(Lookup(anns, "Height"))))
    else
      (AtLeastOne(TruncToInt(viewport.x)), AtLeastOne(TruncToInt(viewport.y)))
  }

  /** `getSize2` as written: once `Dimensions` is present, the values are
      read from the `ViewportRatio` annotation. */
  function GetSize2AsWritten(anns: Annotations, viewport: Vec3): (r: (int, int))
    ensures r.0 >= 1 && r.1 >= 1
  {
    Size2From(anns, viewport, "ViewportRatio")
  }

  /** `getSize2` reading the `Dimensions` values from `Dimensions`. */
  function GetSize2(anns: Annotations, viewport: Vec3): (r: (int, int))
    ensures r.0 >= 1 && r.1 >= 1
  {
    Size2From(anns, viewport, "Dimensions")
  }

  /** As written, the `Dimensions` annotation never decides the size when
      there is no `ViewportRatio`: removing it changes nothing. */
  lemma AsWrittenIgnoresDimensions(anns: Annotations, viewport: Vec3)
    requires "ViewportRatio" !in anns
    ensures GetSize2AsWritten(anns, viewport) == GetSize2AsWritten(anns - {"Dimensions"}, viewport)
  {
    assert Lookup(anns, "ViewportRatio") == None;
    assert Lookup(anns - {"Dimensions"}, "ViewportRatio") == None;
    assert Lookup(anns, "Width") == Lookup(anns - {"Dimensions"}, "Width");
    assert Lookup(anns, "Height") == Lookup(anns - {"Dimensions"}, "Height");
  }

  /** A 256×128 `Dimensions` annotation on an 800×600 viewport: as written the
      target takes the viewport size; reading `Dimensions` gives 256×128. */
  lemma Size2Counterexample()
    ensures GetSize2AsWritten(map["Dimensions" := IntValues([256, 128])], Vec3(800.0, 600.0, 0.0)) == (800, 600)
    ensures GetSize2(map["Dimensions" := IntValues([256, 128])], Vec3(800.0, 600.0, 0.0)) == (256, 128)
  {
    var anns := map["Dimensions" := IntValues([256, 128])];
    assert Lookup(anns, "ViewportRatio") == None;
    assert Lookup(anns, "Dimensions") == Some(IntValues([256, 128]));
    assert "Width" !in anns;
    assert TruncToInt(800.0) == 800 && TruncToInt(600.0) == 600;
  }

  /** Without a two-value viewport ratio, two `Dimensions` values give the
      size, clamped to at least one each. */
  lemma Size2HonoursDimensions(anns: Annotations, viewport: Vec3, width: int, height: int)
    requires |FloatsOf(Lookup(anns, "ViewportRatio"))| != 2
    requires "Dimensions" in anns && anns["Dimensions"] == IntValues([width, height])
    ensures GetSize2(anns, viewport) == (AtLeastOne(width), AtLeastOne(height))
  {
    assert IntsOf(Lookup(anns, "Dimensions")) == [width, height];
  }

  /** A two-value viewport ratio takes precedence over every other
      annotation. */
  lemma Size2RatioFirst(anns: Annotations, viewport: Vec3)
    requires |FloatsOf(Lookup(anns, "ViewportRatio"))| == 2
    ensures GetSize2(anns, viewport) == GetSize2(map["ViewportRatio" := anns["ViewportRatio"]], viewport)
  {
    var only := map["ViewportRatio" := anns["ViewportRatio"]];
    var ratio := FloatsOf(Lookup(anns, "ViewportRatio"));
    assert FloatsOf(Lookup(only, "ViewportRatio")) == ratio;
  }

  /** `TextureSemantic::getSize3`: width, height and depth from three
      `Dimensions` values, from a width/height/depth triple, or the viewport
      with a depth of 24. */
  function GetSize3(anns: Annotations, viewport: Vec3): (r: (int, int, int))
    ensures r.0 >= 1 && r.1 >= 1 && r.2 >= 1
  {
    var values := IntsOf(Lookup(anns, "Dimensions"));
    if |values| == 3 then
      (AtLeastOne(values[0]), AtLeastOne(values[1]), AtLeastOne(values[2]))
    else if "Width" in anns && "Height" in anns && "Depth" in anns then
      (AtLeastOne(ToInt(Lookup(anns, "Width"))), AtLeastOne(ToInt(Lookup(anns, "Height"))),
       AtLeastOne(ToInt(Lookup(anns, "Depth"))))
    else
      (AtLeastOne(TruncToInt(viewport.x)), AtLeastOne(TruncToInt(viewport.y)), 24)
  }

  /** Without three dimensions and without all of width, height and depth,
      the volume is 24 deep and as wide and high as the viewport, whatever
      else is annotated. */
  lemma Size3Fallback(anns: Annotations, viewport: Vec3)
    requires |IntsOf(Lookup(anns, "Dimensions"))| != 3
    requires !("Width" in anns && "Height" in anns && "Depth" in anns)
    ensures GetSize3(anns, viewport).2 == 24
    ensures GetSize3(anns, viewport) == GetSize3(map[], viewport)
  {
    assert Lookup(map[], "Dimensions") == None;
  }
}
