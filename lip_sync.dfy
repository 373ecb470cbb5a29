/** Lip-sync motion generation (QMA1/LipSync.cc): a phoneme sequence
    `phone,msec,phone,msec,...` becomes a face motion. Each phone is looked
    up in the phone table, each duration is turned into a whole number of
    frames at 30 frames per second with the rounding error carried on, a
    closing frame is appended, long frames are preceded by a softer
    interpolation frame, and every expression receives one key frame per
    lip frame, weighted by the phone/expression blend table. */
module LipSync {
  import opened Geometry
  import opened Strings

  /** `LipKeyFrame`: a phone index, a duration in frames and a weight factor. */
  datatype LipKeyFrame = LipKeyFrame(phone: nat, duration: int, rate: real)

  /** A `vpvl::FaceKeyFrame` as `createMotion` fills it. */
  datatype FaceKeyFrame = FaceKeyFrame(name: string, frameIndex: int, weight: real)

  /** `LipSync::kInterpolationRate`, defined as `0.8f` in QMA1/LipSync.cc. */
  const InterpolationRate: real := 0.8

  /** The frame appended after the last phone: the mouth closes. */
  const Closing: LipKeyFrame := LipKeyFrame(0, 1, 0.0)

  /** The phone a token names: its first position in the table, or 0 when
      the table does not hold it. */
  function PhoneOf(phoneNames: seq<string>, token: string): (k: nat)
    ensures token in phoneNames ==> k < |phoneNames| && phoneNames[k] == token && token !in phoneNames[..k]
    ensures token !in phoneNames ==> k == 0
  {
    if token !in phoneNames then 0
    else if phoneNames[0] == token then 0
    else
      var k := 1 + PhoneOf(phoneNames[1..], token);
      assert phoneNames[..k] == [phoneNames[0]] + phoneNames[1..][..k - 1];
      k
  }

  /** A position that holds the token, with no earlier one, is the phone. */
  lemma PhoneOfAt(phoneNames: seq<string>, token: string, j: nat)
    requires j < |phoneNames| && phoneNames[j] == token && token !in phoneNames[..j]
    ensures PhoneOf(phoneNames, token) == j
  {
    assert phoneNames[j] in phoneNames;
  }

  /** The frames one duration token lasts, at 30 frames per second with the
      carried rounding error `diff` added, rounded to the nearest frame and
      at least one; and the new carry. */
  function Timing(value: real, diff: real): (r: (int, real))
    ensures r.0 >= 1
    ensures r.0 as real + r.1 == value * 0.03 + diff
    ensures value * 0.03 + diff >= 0.5 ==> -0.5 <= r.1 < 0.5
  {
    var msecf := value * 0.03 + diff;
    var msec := TruncToInt(msecf + 0.5);
    var duration := if msec > 1 then msec else 1;
    (duration, msecf - duration as real)
  }

  /** The phone, the carry and the frames after the first `n` tokens: even
      positions name phones, odd positions are durations in milliseconds. */
  function Scan(phoneNames: seq<string>, tokens: seq<string>, toFloat: string -> real, n: nat): (nat, real, seq<LipKeyFrame>)
    requires n <= |tokens|
  {
    if n == 0 then (0, 0.0, [])
    else
      var prev := Scan(phoneNames, tokens, toFloat, n - 1);
      if (n - 1) % 2 == 0 then (PhoneOf(phoneNames, tokens[n - 1]), prev.1, prev.2)
      else
        var t := Timing(toFloat(tokens[n - 1]), prev.1);
        (prev.0, t.1, prev.2 + [LipKeyFrame(prev.0, t.0, 1.0)])
  }

  /** The time the first `n` tokens ask for, in frames. */
  function Elapsed(tokens: seq<string>, toFloat: string -> real, n: nat): real
    requires n <= |tokens|
  {
    if n == 0 then 0.0
    else Elapsed(tokens, toFloat, n - 1) + (if (n - 1) % 2 == 1 then toFloat(tokens[n - 1]) * 0.03 else 0.0)
  }

  /** The frames of a sequence of lengths. */
  function TotalDuration(frames: seq<LipKeyFrame>): int
  {
    if frames == [] then 0 else TotalDuration(frames[..|frames| - 1]) + frames[|frames| - 1].duration
  }

  predicate AllPositive(frames: seq<LipKeyFrame>)
  {
    forall m :: 0 <= m < |frames| ==> frames[m].duration >= 1
  }

  predicate PhonesBelow(frames: seq<LipKeyFrame>, bound: nat)
  {
    forall m :: 0 <= m < |frames| ==> frames[m].phone < bound
  }

  lemma {:induction false} TotalDurationAppend(a: seq<LipKeyFrame>, b: seq<LipKeyFrame>)
    ensures TotalDuration(a + b) == TotalDuration(a) + TotalDuration(b)
    decreases |b|
  {
    if b != [] {
      var init := b[..|b| - 1];
      assert (a + b)[..|a + b| - 1] == a + init;
      assert (a + b)[|a + b| - 1] == b[|b| - 1];
      TotalDurationAppend(a, init);
    } else {
      assert a + b == a;
    }
  }

  /** Every duration token becomes one frame of the phone named just before
      it, at full rate and at least one frame long; a final phone without a
      duration yields no frame. */
  lemma {:induction false} ScanShape(phoneNames: seq<string>, tokens: seq<string>, toFloat: string -> real, n: nat)
    requires n <= |tokens|
    ensures var r := Scan(phoneNames, tokens, toFloat, n);
      |r.2| == n / 2 && (n % 2 == 1 ==> r.0 == PhoneOf(phoneNames, tokens[n - 1]))
    ensures var r := Scan(phoneNames, tokens, toFloat, n);
      forall m :: 0 <= m < |r.2| ==>
        r.2[m].phone == PhoneOf(phoneNames, tokens[2 * m]) && r.2[m].rate == 1.0 && r.2[m].duration >= 1
  {
    if n > 0 {
      ScanShape(phoneNames, tokens, toFloat, n - 1);
      var prev := Scan(phoneNames, tokens, toFloat, n - 1);
      var r := Scan(phoneNames, tokens, toFloat, n);
      if (n - 1) % 2 == 1 {
        assert r.2 == prev.2 + [r.2[|prev.2|]];
        assert 2 * |prev.2| == n - 2;
      }
    }
  }

  /** No time is lost to rounding: the frames handed out plus the carry left
      over are exactly the time the durations ask for. */
  lemma {:induction false} ScanCarry(phoneNames: seq<string>, tokens: seq<string>, toFloat: string -> real, n: nat)
    requires n <= |tokens|
    ensures var r := Scan(phoneNames, tokens, toFloat, n);
      TotalDuration(r.2) as real + r.1 == Elapsed(tokens, toFloat, n)
  {
    if n > 0 {
      ScanCarry(phoneNames, tokens, toFloat, n - 1);
      var prev := Scan(phoneNames, tokens, toFloat, n - 1);
      if (n - 1) % 2 == 1 {
        var r := Scan(phoneNames, tokens, toFloat, n);
        assert r.2[..|r.2| - 1] == prev.2;
      }
    }
  }

  /** The lip frames of a sequence, the closing frame last. */
  function LipFrames(phoneNames: seq<string>, sequence: string, toFloat: string -> real): seq<LipKeyFrame>
  {
    var tokens := Split(sequence, ',');
    Scan(phoneNames, tokens, toFloat, |tokens|).2 + [Closing]
  }

  /** One frame longer than the margin is preceded by `margin` frames at the
      interpolation rate and shortened by as much. */
  function ExpandFrame(f: LipKeyFrame, margin: int): seq<LipKeyFrame>
  {
    if f.duration > margin then
      [LipKeyFrame(f.phone, margin, f.rate * InterpolationRate), f.(duration := f.duration - margin)]
    else [f]
  }

  function Expand(frames: seq<LipKeyFrame>, margin: int): seq<LipKeyFrame>
  {
    if frames == [] then []
    else Expand(frames[..|frames| - 1], margin) + ExpandFrame(frames[|frames| - 1], margin)
  }

  /** Interpolation frames take their time from the frame they precede:
      the total length is unchanged. */
  lemma {:induction false} ExpandDuration(frames: seq<LipKeyFrame>, margin: int)
    ensures TotalDuration(Expand(frames, margin)) == TotalDuration(frames)
  {
    if frames != [] {
      var init := frames[..|frames| - 1];
      var f := frames[|frames| - 1];
      ExpandDuration(init, margin);
      TotalDurationAppend(Expand(init, margin), ExpandFrame(f, margin));
      var e := ExpandFrame(f, margin);
      if f.duration > margin {
        assert e[..1] == [e[0]];
        assert TotalDuration(e) == margin + (f.duration - margin);
      } else {
        assert TotalDuration(e) == TotalDuration([]) + f.duration;
      }
    }
  }

  /** Every frame keeps a positive length when the margin is positive, no
      new phone appears, and a last frame no longer than the margin stays
      last. */
  lemma {:induction false} ExpandKeeps(frames: seq<LipKeyFrame>, margin: int, bound: nat)
    ensures margin >= 1 && AllPositive(frames) ==> AllPositive(Expand(frames, margin))
    ensures PhonesBelow(frames, bound) ==> PhonesBelow(Expand(frames, margin), bound)
    ensures frames != [] && frames[|frames| - 1].duration <= margin ==>
      Expand(frames, margin) != [] && Expand(frames, margin)[|Expand(frames, margin)| - 1] == frames[|frames| - 1]
  {
    if frames != [] {
      var init := frames[..|frames| - 1];
      ExpandKeeps(init, margin, bound);
      assert forall m :: 0 <= m < |init| ==> init[m] == frames[m];
    }
  }

  /** Expansion works frame by frame and keeps the frame order: expanding
      two runs of frames one after the other is expanding their
      concatenation. */
  lemma {:induction false} ExpandAppend(a: seq<LipKeyFrame>, b: seq<LipKeyFrame>, margin: int)
    ensures Expand(a + b, margin) == Expand(a, margin) + Expand(b, margin)
    decreases |b|
  {
    if b == [] {
      assert a + b == a;
    } else {
      var init := b[..|b| - 1];
      ExpandAppend(a, init, margin);
      assert (a + b)[..|a + b| - 1] == a + init;
      assert (a + b)[|a + b| - 1] == b[|b| - 1];
    }
  }

  /** Where frame `k` lands after expansion: a frame longer than the margin
      becomes a lead-in of exactly the margin at the interpolation rate,
      followed by the rest of the frame at its own rate; any other frame is
      kept as it is. */
  lemma ExpandAt(frames: seq<LipKeyFrame>, margin: int, k: nat)
    requires k < |frames|
    ensures var e := Expand(frames, margin);
      var j := |Expand(frames[..k], margin)|;
      var f := frames[k];
      (f.duration > margin ==>
         j + 1 < |e| && e[j] == LipKeyFrame(f.phone, margin, f.rate * InterpolationRate) &&
         e[j + 1] == f.(duration := f.duration - margin)) &&
      (f.duration <= margin ==> j < |e| && e[j] == f)
  {
    var f := frames[k];
    assert frames == frames[..k] + [f] + frames[k + 1..];
    ExpandAppend(frames[..k] + [f], frames[k + 1..], margin);
    ExpandAppend(frames[..k], [f], margin);
    assert [f][..0] == [];
    assert Expand([f], margin) == ExpandFrame(f, margin);
  }

  /** Frames no longer than the margin get no interpolation frame: a
      sequence of such frames is left as it is. */
  lemma {:induction false} ExpandShort(frames: seq<LipKeyFrame>, margin: int)
    requires forall m :: 0 <= m < |frames| ==> frames[m].duration <= margin
    ensures Expand(frames, margin) == frames
  {
    if frames != [] {
      var init := frames[..|frames| - 1];
      ExpandShort(init, margin);
      assert init + [frames[|frames| - 1]] == frames;
    }
  }

  /** Frame boundaries grow by at least one frame per lip frame. */
  lemma {:induction false} PrefixDurations(frames: seq<LipKeyFrame>, a: nat, b: nat)
    requires AllPositive(frames) && a < b <= |frames|
    ensures TotalDuration(frames[..a]) < TotalDuration(frames[..b])
    decreases b - a
  {
    assert frames[..b][..b - 1] == frames[..b - 1];
    if a < b - 1 {
      PrefixDurations(frames, a, b - 1);
    }
  }

  lemma MulStep(i: nat, j: nat, rows: nat, columns: nat)
    requires i < rows && j < columns
    ensures i * columns + j < rows * columns
  {
    assert i * columns + j < (i + 1) * columns;
    assert (i + 1) * columns <= rows * columns;
  }

  lemma {:induction false} MulMonotone(a: nat, b: nat, c: nat)
    requires a <= b
    ensures a * c <= b * c
    decreases b - a
  {
    if a < b {
      MulMonotone(a + 1, b, c);
    }
  }

  /** Entry `j` of row `i` of a table stored row by row, `width` entries a
      row. */
  function Entry(table: seq<real>, width: nat, i: nat, j: nat): real
    requires i * width + j < |table|
  {
    table[i * width + j]
  }

  /** The weight of a key frame: the blend entry scaled by the lip frame's
      rate. */
  function Weighted(entry: real, rate: real): real
  {
    entry * rate
  }

  /** Every frame's phone has a table entry for expression `e`. */
  predicate Covered(frames: seq<LipKeyFrame>, table: seq<real>, width: nat, e: nat)
  {
    forall m :: 0 <= m < |frames| ==> frames[m].phone * width + e < |table|
  }

  /** The key frames of one expression, named `name` and in column `e` of
      the blend table: one per lip frame, each at the frame where the
      previous lip frames end. */
  function Track(name: string, table: seq<real>, width: nat, e: nat, frames: seq<LipKeyFrame>): (r: seq<FaceKeyFrame>)
    requires Covered(frames, table, width, e)
    ensures |r| == |frames|
  {
    if frames == [] then []
    else
      var init := frames[..|frames| - 1];
      var f := frames[|frames| - 1];
      assert forall m :: 0 <= m < |init| ==> init[m] == frames[m];
      Track(name, table, width, e, init) +
        [FaceKeyFrame(name, TotalDuration(init), Weighted(Entry(table, width, f.phone, e), f.rate))]
  }

  lemma TrackSnoc(name: string, table: seq<real>, width: nat, e: nat, frames: seq<LipKeyFrame>, f: LipKeyFrame)
    requires Covered(frames + [f], table, width, e)
    ensures Covered(frames, table, width, e) && f.phone * width + e < |table|
    ensures Track(name, table, width, e, frames + [f]) ==
      Track(name, table, width, e, frames) + [FaceKeyFrame(name, TotalDuration(frames), Weighted(Entry(table, width, f.phone, e), f.rate))]
  {
    var all := frames + [f];
    assert all[..|all| - 1] == frames;
    assert all[|all| - 1] == f;
    assert forall m :: 0 <= m < |frames| ==> frames[m] == all[m];
  }

  /** A prefix of covered frames is covered. */
  lemma CoveredPrefix(frames: seq<LipKeyFrame>, table: seq<real>, width: nat, e: nat, n: nat)
    requires Covered(frames, table, width, e) && n <= |frames|
    ensures Covered(frames[..n], table, width, e)
  {
    assert forall m :: 0 <= m < n ==> frames[..n][m] == frames[m];
  }

  /** Each key frame of a track carries the expression's name, starts where
      the earlier lip frames end and is weighted by the table entry of its
      phone times its rate. */
  lemma {:induction false} TrackAt(name: string, table: seq<real>, width: nat, e: nat, frames: seq<LipKeyFrame>, m: nat)
    requires Covered(frames, table, width, e) && m < |frames|
    ensures Track(name, table, width, e, frames)[m] ==
      FaceKeyFrame(name, TotalDuration(frames[..m]), Weighted(Entry(table, width, frames[m].phone, e), frames[m].rate))
    decreases |frames|
  {
    var init := frames[..|frames| - 1];
    assert forall k :: 0 <= k < |init| ==> init[k] == frames[k];
    if m < |init| {
      assert init[..m] == frames[..m];
      TrackAt(name, table, width, e, init, m);
    }
  }

  /** With positive durations a track starts at frame 0 and its frame
      indices strictly increase. */
  lemma TrackIndices(name: string, table: seq<real>, width: nat, e: nat, frames: seq<LipKeyFrame>)
    requires Covered(frames, table, width, e) && AllPositive(frames)
    ensures frames != [] ==> Track(name, table, width, e, frames)[0].frameIndex == 0
    ensures forall a, b :: 0 <= a < b < |frames| ==>
      Track(name, table, width, e, frames)[a].frameIndex < Track(name, table, width, e, frames)[b].frameIndex
  {
    if frames != [] {
      TrackAt(name, table, width, e, frames, 0);
    }
    forall a, b | 0 <= a < b < |frames|
      ensures Track(name, table, width, e, frames)[a].frameIndex < Track(name, table, width, e, frames)[b].frameIndex
    {
      TrackAt(name, table, width, e, frames, a);
      TrackAt(name, table, width, e, frames, b);
      PrefixDurations(frames, a, b);
    }
  }

  /** The motion generator: an expression list, a phone list and the blend
      table, one row of expression weights per phone. */
  class LipSync {
    var expressionNames: seq<string>
    var phoneNames: seq<string>
    var interpolation: seq<real>
    /** `LipSync::kInterpolationMargin`, declared in LipSync.h. */
    const interpolationMargin: int

    /** The shape a successful `load` leaves: a full blend table, and a phone
        for the closing frame to use whenever there is an expression. */
    predicate Valid()
      reads this
    {
      |interpolation| == |phoneNames| * |expressionNames| &&
      (|expressionNames| > 0 ==> |phoneNames| > 0)
    }

    /** The tables as `load` reads them; `load` itself is not modelled. */
    constructor(expressionNames: seq<string>, phoneNames: seq<string>, interpolation: seq<real>, interpolationMargin: int)
      ensures this.expressionNames == expressionNames && this.phoneNames == phoneNames
      ensures this.interpolation == interpolation && this.interpolationMargin == interpolationMargin
    {
      this.expressionNames := expressionNames;
      this.phoneNames := phoneNames;
      this.interpolation := interpolation;
      this.interpolationMargin := interpolationMargin;
    }

    /** `LipSync::blendRate`: the weight of expression `j` for phone `i`,
        from a table stored row by row. */
    function BlendRate(i: nat, j: nat): (r: real)
      reads this
      requires i * |expressionNames| + j < |interpolation|
      ensures r in interpolation
    {
      Entry(interpolation, |expressionNames|, i, j)
    }

    /** In a full table every phone/expression pair has an entry of its own. */
    lemma BlendRateLayout(i: nat, j: nat, i': nat, j': nat)
      requires Valid() && i < |phoneNames| && j < |expressionNames|
      requires i' < |phoneNames| && j' < |expressionNames| && (i, j) != (i', j')
      ensures i * |expressionNames| + j < |interpolation|
      ensures i * |expressionNames| + j != i' * |expressionNames| + j'
    {
      var n := |expressionNames|;
      MulStep(i, j, |phoneNames|, n);
      if i < i' {
        MulMonotone(i + 1, i', n);
        assert i * n + j < (i + 1) * n;
      } else if i' < i {
        MulMonotone(i' + 1, i, n);
        assert i' * n + j' < (i' + 1) * n;
      }
    }

    /** Under a full table, frames whose phones index the phone table have
        an entry for every expression. */
    lemma PhonesCovered(frames: seq<LipKeyFrame>, e: nat)
      requires Valid() && e < |expressionNames| && PhonesBelow(frames, |phoneNames|)
      ensures Covered(frames, interpolation, |expressionNames|, e)
    {
      forall m | 0 <= m < |frames| ensures frames[m].phone * |expressionNames| + e < |interpolation| {
        MulStep(frames[m].phone, e, |phoneNames|, |expressionNames|);
      }
    }

    /** The track of expression `e`. */
    function TrackOf(e: nat, frames: seq<LipKeyFrame>): (r: seq<FaceKeyFrame>)
      reads this
      requires Valid() && e < |expressionNames| && PhonesBelow(frames, |phoneNames|)
      ensures |r| == |frames|
    {
      PhonesCovered(frames, e);
      Track(expressionNames[e], interpolation, |expressionNames|, e, frames)
    }

    /** The key frames of the first `n` expressions, expression by
        expression. */
    function Keys(frames: seq<LipKeyFrame>, n: nat): (r: seq<FaceKeyFrame>)
      reads this
      requires Valid() && n <= |expressionNames| && (n == 0 || PhonesBelow(frames, |phoneNames|))
      ensures |r| == n * |frames|
    {
      if n == 0 then [] else Keys(frames, n - 1) + TrackOf(n - 1, frames)
    }

    /** Expression `e`'s track is the `e`-th block of the key frames. */
    lemma {:induction false} KeysTrack(frames: seq<LipKeyFrame>, n: nat, e: nat)
      requires Valid() && n <= |expressionNames| && PhonesBelow(frames, |phoneNames|) && e < n
      ensures e * |frames| + |frames| <= |Keys(frames, n)|
      ensures Keys(frames, n)[e * |frames|..e * |frames| + |frames|] == TrackOf(e, frames)
    {
      var prev := Keys(frames, n - 1);
      if e < n - 1 {
        KeysTrack(frames, n - 1, e);
        assert Keys(frames, n)[e * |frames|..e * |frames| + |frames|] == prev[e * |frames|..e * |frames| + |frames|];
      } else {
        assert e * |frames| == |prev|;
      }
    }

    /** The lip frames with the interpolation frames inserted. */
    function Expanded(sequence: string, toFloat: string -> real): seq<LipKeyFrame>
      reads this
    {
      Expand(LipFrames(phoneNames, sequence, toFloat), interpolationMargin)
    }

    /** The phones of the lip frames index the phone table, whenever some
        expression needs a blend entry. */
    lemma LipFramesPhones(sequence: string, toFloat: string -> real)
      requires Valid() && |expressionNames| > 0
      ensures PhonesBelow(LipFrames(phoneNames, sequence, toFloat), |phoneNames|)
      ensures PhonesBelow(Expanded(sequence, toFloat), |phoneNames|)
    {
      var tokens := Split(sequence, ',');
      ScanShape(phoneNames, tokens, toFloat, |tokens|);
      var frames := LipFrames(phoneNames, sequence, toFloat);
      assert PhonesBelow(frames, |phoneNames|) by {
        forall m | 0 <= m < |frames| ensures frames[m].phone < |phoneNames| {
          if m < |frames| - 1 {
            var token := tokens[2 * m];
            assert frames[m].phone == PhoneOf(phoneNames, token);
          }
        }
      }
      ExpandKeeps(frames, interpolationMargin, |phoneNames|);
    }

    /** The motion `createMotion` builds for a sequence. */
    function Motion(sequence: string, toFloat: string -> real): (r: seq<FaceKeyFrame>)
      reads this
      requires Valid()
      ensures |r| == |expressionNames| * |Expanded(sequence, toFloat)|
    {
      if |expressionNames| == 0 then []
      else
        LipFramesPhones(sequence, toFloat);
        Keys(Expanded(sequence, toFloat), |expressionNames|)
    }

    /** Expression `e`'s block of a motion is its track over the expanded
        lip frames. */
    lemma MotionBlock(sequence: string, toFloat: string -> real, e: nat)
      requires Valid() && e < |expressionNames|
      ensures PhonesBelow(Expanded(sequence, toFloat), |phoneNames|)
      ensures var n := |Expanded(sequence, toFloat)|;
        e * n + n <= |Motion(sequence, toFloat)| &&
        Motion(sequence, toFloat)[e * n..e * n + n] == TrackOf(e, Expanded(sequence, toFloat))
    {
      LipFramesPhones(sequence, toFloat);
      KeysTrack(Expanded(sequence, toFloat), |expressionNames|, e);
    }

    /** The lip frames of a sequence are all at least one frame long and end
        with the closing frame, which starts where the durations' time,
        less the final carry, ends. */
    lemma LipFramesShape(sequence: string, toFloat: string -> real)
      ensures var lip := LipFrames(phoneNames, sequence, toFloat);
        var tokens := Split(sequence, ',');
        AllPositive(lip) && lip[|lip| - 1] == Closing &&
        TotalDuration(lip[..|lip| - 1]) as real + Scan(phoneNames, tokens, toFloat, |tokens|).1 == Elapsed(tokens, toFloat, |tokens|)
    {
      var tokens := Split(sequence, ',');
      var scanned := Scan(phoneNames, tokens, toFloat, |tokens|);
      var lip := LipFrames(phoneNames, sequence, toFloat);
      ScanShape(phoneNames, tokens, toFloat, |tokens|);
      ScanCarry(phoneNames, tokens, toFloat, |tokens|);
      assert lip[..|lip| - 1] == scanned.2;
    }

    /** The same holds after the interpolation frames are inserted, once the
        margin is positive. */
    lemma ExpandedShape(sequence: string, toFloat: string -> real)
      requires interpolationMargin >= 1
      ensures var frames := Expanded(sequence, toFloat);
        var tokens := Split(sequence, ',');
        frames != [] && AllPositive(frames) && frames[|frames| - 1] == Closing &&
        TotalDuration(frames[..|frames| - 1]) as real + Scan(phoneNames, tokens, toFloat, |tokens|).1 == Elapsed(tokens, toFloat, |tokens|)
    {
      var lip := LipFrames(phoneNames, sequence, toFloat);
      var frames := Expanded(sequence, toFloat);
      LipFramesShape(sequence, toFloat);
      ExpandKeeps(lip, interpolationMargin, 0);
      ExpandDuration(lip, interpolationMargin);
      var last := |frames| - 1;
      assert frames == frames[..last] + [Closing];
      assert lip == lip[..|lip| - 1] + [Closing];
      TotalDurationAppend(frames[..last], [Closing]);
      TotalDurationAppend(lip[..|lip| - 1], [Closing]);
    }

    /** What every expression's track of a motion looks like: it starts at
        frame 0, its frames strictly increase, and it ends with the mouth
        closed (weight 0) at the time the durations ask for, rounded: that
        time less the carry left after the last duration. */
    lemma MotionTrack(sequence: string, toFloat: string -> real, e: nat)
      requires Valid() && interpolationMargin >= 1 && e < |expressionNames|
      ensures PhonesBelow(Expanded(sequence, toFloat), |phoneNames|)
      ensures var track := TrackOf(e, Expanded(sequence, toFloat));
        var tokens := Split(sequence, ',');
        track != [] && track[0].frameIndex == 0 &&
        (forall a, b :: 0 <= a < b < |track| ==> track[a].frameIndex < track[b].frameIndex) &&
        track[|track| - 1].name == expressionNames[e] && track[|track| - 1].weight == 0.0 &&
        track[|track| - 1].frameIndex as real + Scan(phoneNames, tokens, toFloat, |tokens|).1 == Elapsed(tokens, toFloat, |tokens|)
    {
      var frames := Expanded(sequence, toFloat);
      LipFramesPhones(sequence, toFloat);
      ExpandedShape(sequence, toFloat);
      PhonesCovered(frames, e);
      TrackIndices(expressionNames[e], interpolation, |expressionNames|, e, frames);
      TrackAt(expressionNames[e], interpolation, |expressionNames|, e, frames, |frames| - 1);
    }

    /** The phone loop of `createMotion`: the first phone whose name is the
        token, 0 when there is none. */
    method FindPhone(token: string) returns (k: nat)
      ensures k == PhoneOf(phoneNames, token)
    {
      var nPhones := |phoneNames|;
      var j := 0;
      while j < nPhones
        invariant 0 <= j <= nPhones
        invariant token !in phoneNames[..j]
      {
        if phoneNames[j] == token {
          PhoneOfAt(phoneNames, token, j);
          return j;
        }
        assert phoneNames[..j + 1] == phoneNames[..j] + [phoneNames[j]];
        j := j + 1;
      }
      assert phoneNames[..j] == phoneNames;
      return 0;
    }

    /** The token loop of `createMotion`. */
    method ReadFrames(tokens: seq<string>, toFloat: string -> real) returns (frames: seq<LipKeyFrame>)
      ensures frames == Scan(phoneNames, tokens, toFloat, |tokens|).2
    {
      frames := [];
      var i, k, diff := 0, 0, 0.0;
      while i < |tokens|
        invariant 0 <= i <= |tokens|
        invariant (k, diff, frames) == Scan(phoneNames, tokens, toFloat, i)
      {
        if i % 2 == 0 {
          k := FindPhone(tokens[i]);
        } else {
          var msecf := toFloat(tokens[i]) * 0.03 + diff;
          var msec := TruncToInt(msecf + 0.5);
          var duration := if msec > 1 then msec else 1;
          assert (duration, msecf - duration as real) == Timing(toFloat(tokens[i]), diff);
          frames := frames + [LipKeyFrame(k, duration, 1.0)];
          diff := msecf - duration as real;
        }
        i := i + 1;
      }
    }

    /** The interpolation loop of `createMotion`. */
    method ExpandFrames(frames: seq<LipKeyFrame>) returns (newFrames: seq<LipKeyFrame>)
      ensures newFrames == Expand(frames, interpolationMargin)
    {
      newFrames := [];
      var i := 0;
      while i < |frames|
        invariant 0 <= i <= |frames|
        invariant newFrames == Expand(frames[..i], interpolationMargin)
      {
        var f := frames[i];
        assert frames[..i + 1][..i] == frames[..i];
        if f.duration > interpolationMargin {
          newFrames := newFrames + [LipKeyFrame(f.phone, interpolationMargin, f.rate * InterpolationRate)];
          f := f.(duration := f.duration - interpolationMargin);
        }
        newFrames := newFrames + [f];
        i := i + 1;
      }
      assert frames[..i] == frames;
    }

    /** The inner key frame loop of `createMotion`, for expression `e`. */
    method EmitTrack(e: nat, frames: seq<LipKeyFrame>) returns (track: seq<FaceKeyFrame>)
      requires Valid() && e < |expressionNames| && PhonesBelow(frames, |phoneNames|)
      ensures track == TrackOf(e, frames)
    {
      PhonesCovered(frames, e);
      var name, table, width := expressionNames[e], interpolation, |expressionNames|;
      track := [];
      var currentFrame := 0;
      var m := 0;
      while m < |frames|
        invariant 0 <= m <= |frames|
        invariant Covered(frames[..m], table, width, e)
        invariant track == Track(name, table, width, e, frames[..m])
        invariant currentFrame == TotalDuration(frames[..m])
      {
        var f := frames[m];
        CoveredPrefix(frames, table, width, e, m + 1);
        assert frames[..m + 1] == frames[..m] + [f];
        TrackSnoc(name, table, width, e, frames[..m], f);
        track := track + [FaceKeyFrame(name, currentFrame, Weighted(BlendRate(f.phone, e), f.rate))];
        currentFrame := currentFrame + f.duration;
        m := m + 1;
      }
      assert frames[..m] == frames;
    }

    /** `LipSync::createMotion`: the key frames of every expression, in
        expression order; `toFloat` is `QString::toFloat`. */
    method CreateMotion(sequence: string, toFloat: string -> real) returns (motion: seq<FaceKeyFrame>)
      requires Valid()
      ensures motion == Motion(sequence, toFloat)
    {
      var tokens := Split(sequence, ',');
      var frames := ReadFrames(tokens, toFloat);
      frames := frames + [Closing];
      assert frames == LipFrames(phoneNames, sequence, toFloat);
      var newFrames := ExpandFrames(frames);
      if |expressionNames| > 0 {
        LipFramesPhones(sequence, toFloat);
      }
      motion := EmitKeys(newFrames);
    }

    /** The expression loop of `createMotion`: one track per expression, in
        expression order. */
    method EmitKeys(frames: seq<LipKeyFrame>) returns (motion: seq<FaceKeyFrame>)
      requires Valid() && (|expressionNames| == 0 || PhonesBelow(frames, |phoneNames|))
      ensures motion == Keys(frames, |expressionNames|)
    {
      motion := [];
      var nExpressionNames := |expressionNames|;
      var i := 0;
      while i < nExpressionNames
        invariant 0 <= i <= nExpressionNames
        invariant motion == Keys(frames, i)
      {
        var track := EmitTrack(i, frames);
        motion := motion + track;
        i := i + 1;
      }
    }

    /** `LipSync::release`: all three tables are emptied, which leaves a
        valid, empty generator. */
    method Release()
      modifies this
      ensures expressionNames == [] && phoneNames == [] && interpolation == []
      ensures Valid()
    {
      expressionNames := [];
      phoneNames := [];
      interpolation := [];
    }
  }
}
