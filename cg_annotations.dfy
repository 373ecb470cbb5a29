/** Effect annotations as the Cg runtime hands them out
    (libvpvl2/include/vpvl2/cg/EngineCommon.h): the `Util` readers and the
    `Subset` filter of a technique. A parameter's or a technique's annotations
    are a map from annotation name to a typed value list; a name not in the
    map is an annotation `cgIsAnnotation` rejects. */
module CgAnnotations {
  import opened Geometry
  import opened Strings

  /** The value of an annotation, by Cg type. */
  datatype AnnotationValue =
    | BoolValues(bools: seq<bool>)
    | IntValues(ints: seq<int>)
    | FloatValues(floats: seq<real>)
    | StringValue(text: string)

  type Annotations = map<string, AnnotationValue>

  /** `cgGetNamed*Annotation`: the annotation of that name, if any. */
  function Lookup(anns: Annotations, name: string): (r: Option<AnnotationValue>)
    ensures r.Some? <==> name in anns
    ensures r.Some? ==> r.value == anns[name]
  {
    if name in anns then Some(anns[name]) else None
  }

  /** `cgGetBoolAnnotationValues`: the values of a bool annotation; any other
      annotation, or none, yields no values. */
  function BoolsOf(a: Option<AnnotationValue>): seq<bool>
  {
    if a.Some? && a.value.BoolValues? then a.value.bools else []
  }

  /** `cgGetIntAnnotationValues`. */
  function IntsOf(a: Option<AnnotationValue>): seq<int>
  {
    if a.Some? && a.value.IntValues? then a.value.ints else []
  }

  /** `cgGetFloatAnnotationValues`. */
  function FloatsOf(a: Option<AnnotationValue>): seq<real>
  {
    if a.Some? && a.value.FloatValues? then a.value.floats else []
  }

  /** `cgGetStringAnnotationValue`; an annotation of another type is read as
      the empty string. */
  function TextOf(a: Option<AnnotationValue>): string
  {
    if a.Some? && a.value.StringValue? then a.value.text else ""
  }

  /** `Util::toBool`: the first bool value, false when there is none. */
  function ToBool(a: Option<AnnotationValue>): (r: bool)
    ensures r <==> |BoolsOf(a)| > 0 && BoolsOf(a)[0]
    ensures a.None? ==> !r
  {
    var values := BoolsOf(a);
    if |values| > 0 then values[0] else false
  }

  /** `Util::toInt`: the first int value, 0 when there is none. */
  function ToInt(a: Option<AnnotationValue>): (r: int)
    ensures |IntsOf(a)| == 0 ==> r == 0
    ensures |IntsOf(a)| > 0 ==> r == IntsOf(a)[0]
  {
    var values := IntsOf(a);
    if |values| > 0 then values[0] else 0
  }

  /** `Util::isPassEquals`: an absent annotation accepts every pass; a
      present one names exactly the pass it accepts. */
  function IsPassEquals(a: Option<AnnotationValue>, target: string): (r: bool)
    ensures a.None? ==> r
    ensures a.Some? && a.value.StringValue? ==> (r <==> a.value.text == target)
  {
    a.None? || TextOf(a) == target
  }

  /** The bounds a range segment `from-to` of a `Subset` list stands for: a
      zero upper bound means "up to the material count", and reversed bounds
      are swapped. */
  function RangeBounds(segment: string, nmaterials: int): (int, int)
    requires '-' in segment
  {
    var offset := IndexOf(segment, '-');
    var from := Strtol(segment[..offset]);
    var to0 := Strtol(segment[offset + 1..]);
    var to := if to0 == 0 then nmaterials else to0;
    if from > to then (to, from) else (from, to)
  }

  /** One comma segment of a `Subset` list names `subset`: its leading
      number is `subset`, or it is a range that contains `subset`. */
  predicate SegmentNames(segment: string, subset: int, nmaterials: int)
  {
    Strtol(segment) == subset ||
    ('-' in segment && RangeBounds(segment, nmaterials).0 <= subset <= RangeBounds(segment, nmaterials).1)
  }

  /** Some segment of the list names `subset`. */
  predicate AnySegmentNames(segments: seq<string>, subset: int, nmaterials: int)
  {
    exists k :: 0 <= k < |segments| && SegmentNames(segments[k], subset, nmaterials)
  }

  /** What `containsSubset` answers. */
  predicate SubsetAccepts(a: Option<AnnotationValue>, subset: int, nmaterials: int)
  {
    a.None? || AnySegmentNames(GetlineSegments(TextOf(a), ','), subset, nmaterials)
  }

  /** The body of the `containsSubset` loop for one segment: its leading
      number, then the range it may spell. */
  method MatchSegment(segment: string, subset: int, nmaterials: int) returns (r: bool)
    ensures r <==> SegmentNames(segment, subset, nmaterials)
  {
    if Strtol(segment) == subset {
      return true;
    }
    if '-' in segment {
      var offset := IndexOf(segment, '-');
      var from := Strtol(segment[..offset]);
      var to := Strtol(segment[offset + 1..]);
      if to == 0 {
        to := nmaterials;
      }
      if from > to {
        from, to := to, from;
      }
      assert (from, to) == RangeBounds(segment, nmaterials);
      if from <= subset && subset <= to {
        return true;
      }
    }
    return false;
  }

  /** `Effect::containsSubset`: walks the comma segments of the annotation
      and stops at the first one that names `subset`. */
  method ContainsSubset(a: Option<AnnotationValue>, subset: int, nmaterials: int) returns (r: bool)
    ensures r <==> SubsetAccepts(a, subset, nmaterials)
    ensures a.None? ==> r
    ensures a == Some(StringValue("")) ==> !r
  {
    if a.None? {
      return true;
    }
    var segments := GetlineSegments(TextOf(a), ',');
    assert SubsetAccepts(a, subset, nmaterials) <==> AnySegmentNames(segments, subset, nmaterials);
    var i := 0;
    while i < |segments|
      invariant 0 <= i <= |segments|
      invariant forall k :: 0 <= k < i ==> !SegmentNames(segments[k], subset, nmaterials)
    {
      var found := MatchSegment(segments[i], subset, nmaterials);
      if found {
        return true;
      }
      i := i + 1;
    }
    return false;
  }

  /** A list that holds a plain number as one of its segments selects that
      subset, whatever the other segments say. */
  lemma SubsetNamesNumber(text: string, k: nat, digits: string, nmaterials: int)
    requires k < |GetlineSegments(text, ',')| && GetlineSegments(text, ',')[k] == digits
    requires digits != [] && forall c :: 0 <= c < |digits| ==> IsDigit(digits[c])
    ensures SubsetAccepts(Some(StringValue(text)), DigitsValue(digits), nmaterials)
  {
    StrtolOfDigits(digits);
    assert TextOf(Some(StringValue(text))) == text;
    assert SegmentNames(GetlineSegments(text, ',')[k], DigitsValue(digits), nmaterials);
    assert AnySegmentNames(GetlineSegments(text, ','), DigitsValue(digits), nmaterials);
  }

  /** A segment `a-b` of two plain numbers selects every subset between them,
      in either order, with `b = 0` standing for the material count. */
  lemma RangeSegment(a: string, b: string, subset: int, nmaterials: int)
    requires a != [] && forall c :: 0 <= c < |a| ==> IsDigit(a[c])
    requires b != [] && forall c :: 0 <= c < |b| ==> IsDigit(b[c])
    ensures var hi := if DigitsValue(b) == 0 then nmaterials else DigitsValue(b);
      var lo := DigitsValue(a);
      (lo <= subset <= hi || hi <= subset <= lo) ==> SegmentNames(a + "-" + b, subset, nmaterials)
  {
    var s := a + "-" + b;
    assert '-' !in a by {
      forall c | 0 <= c < |a| ensures a[c] != '-' { assert IsDigit(a[c]); }
    }
    IndexOfAfter(a, b);
    assert s[..|a|] == a;
    assert s[|a| + 1..] == b;
    StrtolOfDigits(a);
    StrtolOfDigits(b);
  }

  lemma IndexOfAfter(a: string, b: string)
    requires '-' !in a
    ensures '-' in a + "-" + b && IndexOf(a + "-" + b, '-') == |a|
  {
    var s := a + "-" + b;
    assert s[|a|] == '-';
    var i := IndexOf(s, '-');
  }
}
