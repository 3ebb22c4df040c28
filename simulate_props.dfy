/** Properties of the `/simulate` handler model: which answer a request gets, the
    shape of the frequency list, and where each ray and sample sits in the output. */
module SimulationProperties {
  import opened Json
  import opened Simulate

  // ---------------------------------------------------------------------------
  // Which answer

  /** A non-array component list is answered with 400 and the fixed error body; an
      array holding null with 500; every other request with CSV exactly when CSV is
      asked for, and with JSON otherwise. */
  lemma Outcomes(req: Request, raw: RawAmplitude)
    requires RequestModelled(req)
    ensures Simulation(req, raw).BadRequest? <==> !ComponentsOf(req.body).JArr?
    ensures Simulation(req, raw).BadRequest? ==> Simulation(req, raw).error == ErrorBody
    ensures Simulation(req, raw).ServerError? <==>
      ComponentsOf(req.body).JArr? && JNull in ComponentsOf(req.body).elems
    ensures Simulation(req, raw).CsvOk? <==>
      ComponentsOf(req.body).JArr? && JNull !in ComponentsOf(req.body).elems && WantsCsv(req)
    ensures Simulation(req, raw).JsonOk? <==>
      ComponentsOf(req.body).JArr? && JNull !in ComponentsOf(req.body).elems && !WantsCsv(req)
  {
  }

  /** The three places the component list can come from: the body itself when it is
      an array, else its truthy `components` member, else the empty list. */
  lemma ComponentSources(body: Json)
    ensures body.JArr? ==> ComponentsOf(body) == body
    ensures body.JObj? && Lookup(body.props, "components").Some? &&
            Truthy(Lookup(body.props, "components").value) ==>
      ComponentsOf(body) == Lookup(body.props, "components").value
    ensures body.JObj? && (Lookup(body.props, "components").None? ||
            !Truthy(Lookup(body.props, "components").value)) ==>
      ComponentsOf(body) == JArr([])
  {
  }

  /** An object whose `components` member is a truthy non-array (a number, a string,
      an object) is rejected with 400. */
  lemma NonArrayComponentsRejected(req: Request, raw: RawAmplitude)
    requires RequestModelled(req) && req.body.JObj?
    requires Lookup(req.body.props, "components").Some?
    requires var c := Lookup(req.body.props, "components").value; Truthy(c) && !c.JArr?
    ensures Simulation(req, raw) == BadRequest(ErrorBody)
  {
    ComponentSources(req.body);
  }

  /** A body without components holds none: the answer lists no rays and no samples. */
  lemma NoComponentsNoOutput(req: Request, raw: RawAmplitude)
    requires RequestModelled(req) && req.body.JObj?
    requires Lookup(req.body.props, "components").None?
    requires !WantsCsv(req)
    ensures Simulation(req, raw) == JsonOk([], [])
  {
    ComponentSources(req.body);
  }

  /** `format=CSV` in capitals still selects CSV, and so does an Accept header that
      lists text/csv among other types. */
  lemma CsvSelection(body: Json)
    ensures WantsCsv(Request(body, Some("CSV"), None))
    ensures WantsCsv(Request(body, None, Some("application/json, text/csv")))
    ensures !WantsCsv(Request(body, Some("json"), None))
  {
    assert LowerAscii("CSV") == "csv";
    var acc := "application/json, text/csv";
    assert acc[18..][..8] == "text/csv";
    ContainsAt(acc, "text/csv", 18);
    assert |LowerAscii("json")| != |"csv"|;
  }

  /** `format` spells "csv" in any letter case. */
  predicate SpellsCsv(s: string) {
    && |s| == 3
    && (s[0] == 'c' || s[0] == 'C')
    && (s[1] == 's' || s[1] == 'S')
    && (s[2] == 'v' || s[2] == 'V')
  }

  /** Lower-casing gives "csv" exactly for the eight spellings of csv. */
  lemma LowerIsCsv(s: string)
    ensures LowerAscii(s) == "csv" <==> SpellsCsv(s)
  {
    var r := LowerAscii(s);
    if |s| == 3 {
      assert r[0] == AsciiLower(s[0]) && r[1] == AsciiLower(s[1]) && r[2] == AsciiLower(s[2]);
      if SpellsCsv(s) {
        assert r == "csv";
      }
    }
  }

  /** CSV is chosen exactly when `format` spells csv in any case, or the Accept header
      holds "text/csv" at some position. */
  lemma CsvChoice(req: Request)
    ensures WantsCsv(req) <==>
      || (req.format.Some? && SpellsCsv(req.format.value))
      || (req.accept.Some? && exists i :: 0 <= i <= |req.accept.value| - 8 &&
                                   req.accept.value[i..][..8] == "text/csv")
  {
    if req.format.Some? {
      LowerIsCsv(req.format.value);
    }
    if req.accept.Some? {
      var a := req.accept.value;
      if Contains(a, "text/csv") {
        ContainsFrom(a, "text/csv");
      }
      if exists i :: 0 <= i <= |a| - 8 && a[i..][..8] == "text/csv" {
        var i :| 0 <= i <= |a| - 8 && a[i..][..8] == "text/csv";
        ContainsAt(a, "text/csv", i);
      }
    }
  }

  /** An occurrence found by `includes` sits at some position. */
  lemma {:induction false} ContainsFrom(s: string, t: string)
    requires Contains(s, t)
    ensures exists i :: 0 <= i <= |s| - |t| && s[i..][..|t|] == t
    decreases |s|
  {
    if s[..|t|] == t {
      assert s[0..][..|t|] == t;
    } else {
      ContainsFrom(s[1..], t);
      var i :| 0 <= i <= |s[1..]| - |t| && s[1..][i..][..|t|] == t;
      assert s[1..][i..] == s[i + 1..];
    }
  }

  lemma {:induction false} ContainsAt(s: string, t: string, i: nat)
    requires i + |t| <= |s| && s[i..][..|t|] == t
    ensures Contains(s, t)
    decreases i
  {
    if i > 0 {
      assert s[1..][i - 1..] == s[i..];
      ContainsAt(s[1..], t, i - 1);
    } else {
      assert s[..|t|] == t;
    }
  }

  // ---------------------------------------------------------------------------
  // The frequency list

  /** `typeof v === 'number'` for a property that may be undefined. */
  predicate IsNumber(v: Option<Json>) {
    v.Some? && v.value.JNum?
  }

  /** The test a sweep must pass: a truthy `freqSweep` whose start, stop and points are
      numbers, with points above 1. */
  predicate SweepRequested(options: Json) {
    var fs := OrElse(Get(options, "freqSweep"), JNull);
    && Truthy(fs)
    && IsNumber(Get(fs, "start")) && IsNumber(Get(fs, "stop")) && IsNumber(Get(fs, "points"))
    && Get(fs, "points").value.n > 1.0
  }

  /** A sweep is used exactly when the request passes the test. */
  lemma SweepIffRequested(options: Json)
    ensures SweepOf(options).Some? <==> SweepRequested(options)
  {
  }

  /** Every request that fails the test (no `freqSweep`, a null or false one, a
      non-number field, points of 1 or less) gets exactly the default list. */
  lemma DefaultWithoutSweep(options: Json)
    requires !SweepRequested(options)
    ensures Frequencies(options) == [100, 500, 1000, 5000, 10000]
  {
  }

  /** A sweep of n points has n entries; the first is round(start) and the last
      round(stop), both after clamping at 0. */
  lemma SweepEndpoints(options: Json)
    requires SweepOf(options).Some?
    ensures var sw := SweepOf(options).value;
      && |Frequencies(options)| == sw.points >= 2
      && Frequencies(options)[0] == Round(sw.start)
      && Frequencies(options)[sw.points - 1] == Round(sw.stop)
  {
    var sw := SweepOf(options).value;
    SweepPointEnds(sw);
    assert Frequencies(options)[0] == SweepPoint(sw, 0);
    assert Frequencies(options)[sw.points - 1] == SweepPoint(sw, sw.points - 1);
  }

  lemma SweepPointEnds(sw: Sweep)
    requires sw.points >= 2
    ensures SweepPoint(sw, 0) == Round(sw.start)
    ensures SweepPoint(sw, sw.points - 1) == Round(sw.stop)
  {
    var n := (sw.points - 1) as real;
    assert n / n == 1.0;
    assert 0 as real / n == 0.0;
  }

  lemma ScaleMonotone(c: real, x: real, y: real)
    requires c >= 0.0 && x <= y
    ensures c * x <= c * y
  {
  }

  lemma DivideMonotone(i: real, j: real, n: real)
    requires n > 0.0 && i <= j
    ensures i / n <= j / n
  {
  }

  lemma RoundMonotone(x: real, y: real)
    requires x <= y
    ensures Round(x) <= Round(y)
  {
  }

  lemma SweepMonotone(sw: Sweep, i: nat, j: nat)
    requires sw.points >= 2 && sw.start <= sw.stop && i <= j
    ensures SweepPoint(sw, i) <= SweepPoint(sw, j)
  {
    var n := (sw.points - 1) as real;
    var d := sw.stop - sw.start;
    var ti, tj := i as real / n, j as real / n;
    DivideMonotone(i as real, j as real, n);
    ScaleMonotone(d, ti, tj);
    RoundMonotone(sw.start + d * ti, sw.start + d * tj);
  }

  /** An ascending sweep (start <= stop) gives a non-decreasing frequency list. */
  lemma AscendingSweepSorted(options: Json, i: nat, j: nat)
    requires SweepOf(options).Some?
    requires SweepOf(options).value.start <= SweepOf(options).value.stop
    requires i <= j < |Frequencies(options)|
    ensures Frequencies(options)[i] <= Frequencies(options)[j]
  {
    var sw := SweepOf(options).value;
    SweepMonotone(sw, i, j);
    assert Frequencies(options)[i] == SweepPoint(sw, i);
    assert Frequencies(options)[j] == SweepPoint(sw, j);
  }

  /** A `freqSweep` object with numeric start, stop and more than one point is read
      as a sweep, clamped at 0 and with at least two whole points. */
  lemma SweepOfNumbers(options: Json, start: real, stop: real, points: real)
    requires Get(options, "freqSweep").Some? && Get(options, "freqSweep").value.JObj?
    requires var fs := Get(options, "freqSweep").value;
      && Get(fs, "start") == Some(JNum(start))
      && Get(fs, "stop") == Some(JNum(stop))
      && Get(fs, "points") == Some(JNum(points))
    requires points > 1.0
    ensures SweepOf(options) == Some(Sweep(Max(0.0, start), Max(0.0, stop), if points.Floor < 2 then 2 else points.Floor))
  {
  }

  /** The sweep 100..10000 in 5 points samples 100, 2575, 5050, 7525 and 10000 Hz. */
  lemma FiveStepSweep()
    ensures var sweep := JObj([Prop("start", JNum(100.0)), Prop("stop", JNum(10000.0)),
                               Prop("points", JNum(5.0))]);
      Frequencies(JObj([Prop("freqSweep", sweep)])) == [100, 2575, 5050, 7525, 10000]
  {
    var sweep := JObj([Prop("start", JNum(100.0)), Prop("stop", JNum(10000.0)),
                       Prop("points", JNum(5.0))]);
    var options := JObj([Prop("freqSweep", sweep)]);
    assert Get(options, "freqSweep") == Some(sweep);
    assert Get(sweep, "start") == Some(JNum(100.0));
    assert Get(sweep, "stop") == Some(JNum(10000.0));
    assert Get(sweep, "points") == Some(JNum(5.0));
    SweepOfNumbers(options, 100.0, 10000.0, 5.0);
    FiveStepPoints();
  }

  lemma FiveStepPoints()
    ensures var sw := Sweep(100.0, 10000.0, 5);
      seq(sw.points, i requires 0 <= i < sw.points => SweepPoint(sw, i)) == [100, 2575, 5050, 7525, 10000]
  {
    var sw := Sweep(100.0, 10000.0, 5);
    assert SweepPoint(sw, 0) == 100;
    assert SweepPoint(sw, 1) == 2575;
    assert SweepPoint(sw, 2) == 5050;
    assert SweepPoint(sw, 3) == 7525;
    assert SweepPoint(sw, 4) == 10000;
  }

  /** A point count of 1 is not a sweep: the default list is used. */
  lemma SinglePointIgnored()
    ensures var one := JObj([Prop("freqSweep", JObj([Prop("start", JNum(0.0)),
                              Prop("stop", JNum(10.0)), Prop("points", JNum(1.0))]))]);
      Frequencies(one) == DefaultFrequencies
  {
    var s1 := JObj([Prop("start", JNum(0.0)), Prop("stop", JNum(10.0)), Prop("points", JNum(1.0))]);
    assert Get(JObj([Prop("freqSweep", s1)]), "freqSweep") == Some(s1);
    assert Get(s1, "points") == Some(JNum(1.0));
  }

  /** A point count of 1.5 passes the `points > 1` test and is raised to two points. */
  lemma FractionalPointsRaised()
    ensures var half := JObj([Prop("freqSweep", JObj([Prop("start", JNum(0.0)),
                               Prop("stop", JNum(10.0)), Prop("points", JNum(1.5))]))]);
      Frequencies(half) == [0, 10]
  {
    var s2 := JObj([Prop("start", JNum(0.0)), Prop("stop", JNum(10.0)), Prop("points", JNum(1.5))]);
    assert Get(JObj([Prop("freqSweep", s2)]), "freqSweep") == Some(s2);
    assert Get(s2, "start") == Some(JNum(0.0));
    assert Get(s2, "stop") == Some(JNum(10.0));
    assert Get(s2, "points") == Some(JNum(1.5));
    SweepOfNumbers(JObj([Prop("freqSweep", s2)]), 0.0, 10.0, 1.5);
    SweepPointEnds(Sweep(0.0, 10.0, 2));
  }

  // ---------------------------------------------------------------------------
  // Rays

  /** Three rays per component. */
  lemma {:induction false} RayCount(comps: seq<Json>, angle: real)
    requires AllModelled(comps)
    ensures |RaysOf(comps, angle)| == 3 * |comps|
    decreases |comps|
  {
    if comps != [] {
      AllModelledPrefix(comps, |comps| - 1);
      RayCount(comps[..|comps| - 1], angle);
    }
  }

  /** Ray 3k + i is ray i of component k: the rays follow the component order. */
  lemma {:induction false} RayIndex(comps: seq<Json>, angle: real, k: nat, i: nat)
    requires AllModelled(comps) && k < |comps| && i < 3
    ensures 3 * k + i < |RaysOf(comps, angle)|
    ensures RaysOf(comps, angle)[3 * k + i] == RayAt(comps[k], angle, i)
  {
    RaysForIndex(comps, angle, k, i);
  }

  lemma {:induction false} RaysForIndex(comps: seq<Json>, angle: real, k: nat, i: nat)
    requires AllModelled(comps) && k < |comps| && i < 3
    ensures 3 * k + i < |RaysOf(comps, angle)|
    ensures RaysOf(comps, angle)[3 * k + i] == RaysFor(comps[k], angle)[i]
    decreases |comps|
  {
    var n := |comps| - 1;
    AllModelledPrefix(comps, n);
    RayCount(comps[..n], angle);
    var front, last := RaysOf(comps[..n], angle), RaysFor(comps[n], angle);
    assert RaysOf(comps, angle) == front + last;
    if k < n {
      RaysForIndex(comps[..n], angle, k, i);
      assert comps[..n][k] == comps[k];
      assert (front + last)[3 * k + i] == front[3 * k + i];
    } else {
      assert k == n;
      assert (front + last)[3 * k + i] == last[i];
    }
  }

  /** A ray carries the component's id (null when absent or falsy), its type ("unknown"
      when absent or falsy) and its x and y (0 when absent or null). */
  lemma RayDefaults(comp: Json, angle: real, i: nat)
    requires ComponentModelled(comp) && i < 3
    ensures Get(comp, "id").None? || !Truthy(Get(comp, "id").value) ==>
      RayAt(comp, angle, i).componentId == JNull
    ensures Get(comp, "type").None? || !Truthy(Get(comp, "type").value) ==>
      RayAt(comp, angle, i).componentType == JStr("unknown")
    ensures Get(comp, "id").Some? && Truthy(Get(comp, "id").value) ==>
      RayAt(comp, angle, i).componentId == Get(comp, "id").value
    ensures Get(comp, "type").Some? && Truthy(Get(comp, "type").value) ==>
      RayAt(comp, angle, i).componentType == Get(comp, "type").value
    ensures Get(comp, "x").None? || Get(comp, "x").value.JNull? ==> RayAt(comp, angle, i).origin.x == JNum(0.0)
    ensures Get(comp, "y").None? || Get(comp, "y").value.JNull? ==> RayAt(comp, angle, i).origin.y == JNum(0.0)
    ensures Get(comp, "x").Some? && !Get(comp, "x").value.JNull? ==>
      RayAt(comp, angle, i).origin.x == Get(comp, "x").value
    ensures Get(comp, "y").Some? && !Get(comp, "y").value.JNull? ==>
      RayAt(comp, angle, i).origin.y == Get(comp, "y").value
  {
  }

  /** A sample carries the component's id (null when absent or falsy), its type
      ("unknown" when absent or falsy) and the frequency it was taken at. */
  lemma SampleDefaults(comp: Json, f: int, raw: RawAmplitude)
    requires ComponentModelled(comp)
    ensures SampleAt(comp, f, raw).frequencyHz == f
    ensures Get(comp, "id").None? || !Truthy(Get(comp, "id").value) ==>
      SampleAt(comp, f, raw).componentId == JNull
    ensures Get(comp, "id").Some? && Truthy(Get(comp, "id").value) ==>
      SampleAt(comp, f, raw).componentId == Get(comp, "id").value
    ensures Get(comp, "type").None? || !Truthy(Get(comp, "type").value) ==>
      SampleAt(comp, f, raw).componentType == JStr("unknown")
    ensures Get(comp, "type").Some? && Truthy(Get(comp, "type").value) ==>
      SampleAt(comp, f, raw).componentType == Get(comp, "type").value
  {
  }

  /** Without a focal length the three rays are 100, 110 and 120 long. */
  lemma DefaultLengths(comp: Json, angle: real)
    requires ComponentModelled(comp)
    requires Get(comp, "focalLength").None?
    ensures RayAt(comp, angle, 0).length == 100
    ensures RayAt(comp, angle, 1).length == 110
    ensures RayAt(comp, angle, 2).length == 120
  {
    assert "focalLength" in NumericFields;
    assert FieldOr(comp, "focalLength", 100.0) == 100.0;
  }

  /** The direction is `(rotation + angle + 10 i) % 360`: when that sum is not
      negative it lies in [0, 360), and it differs from the sum by a multiple of 360. */
  lemma DirectionRange(comp: Json, angle: real, i: nat)
    requires ComponentModelled(comp) && i < 3
    ensures var sum := FieldOr(comp, "rotation", 0.0) + angle + 10.0 * i as real;
      && (sum >= 0.0 ==> 0.0 <= RayAt(comp, angle, i).directionDeg < 360.0)
      && (sum < 0.0 ==> -360.0 < RayAt(comp, angle, i).directionDeg <= 0.0)
      && ((sum - RayAt(comp, angle, i).directionDeg) / 360.0).Floor as real ==
         (sum - RayAt(comp, angle, i).directionDeg) / 360.0
  {
    assert "rotation" in NumericFields;
    var sum := FieldOr(comp, "rotation", 0.0) + angle + 10.0 * i as real;
    assert RayAt(comp, angle, i).directionDeg == Mod360(sum);
  }

  /** A component with non-negative reflectivity and sensitivity emits rays of
      non-negative intensity. */
  lemma IntensityNonNegative(comp: Json, angle: real, i: nat)
    requires ComponentModelled(comp) && i < 3
    requires FieldOr(comp, "reflectivity", 1.0) >= 0.0 && FieldOr(comp, "sensitivity", 1.0) >= 0.0
    ensures RayAt(comp, angle, i).intensity >= 0.0
  {
    assert "reflectivity" in NumericFields && "sensitivity" in NumericFields;
    var b := BaseIntensity(comp);
    ScaleMonotone(FieldOr(comp, "reflectivity", 1.0), 0.0, FieldOr(comp, "sensitivity", 1.0));
    assert b >= 0.0;
    assert Attenuate(b, i) >= 0.0;
  }

  // ---------------------------------------------------------------------------
  // Samples

  lemma MulStep(a: nat, f: nat)
    ensures (a + 1) * f == a * f + f
  {
  }

  lemma MulBelow(k: nat, n: nat, f: nat, j: nat)
    requires k < n && j < f
    ensures k * f + j < n * f
  {
    var d := n - k - 1;
    assert n == k + 1 + d;
    MulStep(k, f);
    assert n * f == (k + 1) * f + d * f;
  }

  /** One sample per component and frequency. */
  lemma {:induction false} SampleCount(comps: seq<Json>, freqs: seq<int>, raw: RawAmplitude)
    requires AllModelled(comps)
    ensures |SamplesOf(comps, freqs, raw)| == |comps| * |freqs|
    decreases |comps|
  {
    if comps != [] {
      var n := |comps| - 1;
      AllModelledPrefix(comps, n);
      SampleCount(comps[..n], freqs, raw);
      MulStep(n, |freqs|);
    }
  }

  /** Sample k |freqs| + j is component k at frequency j: samples are grouped by
      component, and within a component follow the frequency list. */
  lemma {:induction false} SampleIndex(comps: seq<Json>, freqs: seq<int>, raw: RawAmplitude, k: nat, j: nat)
    requires AllModelled(comps) && k < |comps| && j < |freqs|
    ensures k * |freqs| + j < |SamplesOf(comps, freqs, raw)|
    ensures SamplesOf(comps, freqs, raw)[k * |freqs| + j] == SampleAt(comps[k], freqs[j], raw)
    decreases |comps|
  {
    var n := |comps| - 1;
    AllModelledPrefix(comps, n);
    SampleCount(comps[..n], freqs, raw);
    SampleCount(comps, freqs, raw);
    MulBelow(k, |comps|, |freqs|, j);
    if k < n {
      MulBelow(k, n, |freqs|, j);
      SampleIndex(comps[..n], freqs, raw, k, j);
      assert comps[..n][k] == comps[k];
    } else {
      assert SamplesOf(comps, freqs, raw)[k * |freqs| + j] == SamplesFor(comps[n], freqs, raw)[j];
    }
  }

  /** A lens c1 with rotation 0, reflectivity and sensitivity 1, focal length 100 and
      noise 0. */
  const LensC1: Json := JObj([Prop("id", JStr("c1")), Prop("type", JStr("lens")), Prop("rotation", JNum(0.0)),
                              Prop("reflectivity", JNum(1.0)), Prop("sensitivity", JNum(1.0)),
                              Prop("focalLength", JNum(100.0)), Prop("noise", JNum(0.0))])

  lemma LensC1Fields()
    ensures Get(LensC1, "id") == Some(JStr("c1")) && Get(LensC1, "type") == Some(JStr("lens"))
    ensures Get(LensC1, "rotation") == Some(JNum(0.0)) && Get(LensC1, "focalLength") == Some(JNum(100.0))
    ensures Get(LensC1, "reflectivity") == Some(JNum(1.0)) && Get(LensC1, "sensitivity") == Some(JNum(1.0))
    ensures Get(LensC1, "noise") == Some(JNum(0.0))
  {
    var ps := LensC1.props;
    assert UniqueKeys(ps);
    LookupAt(ps, 0);
    LookupAt(ps, 1);
    LookupAt(ps, 2);
    LookupAt(ps, 3);
    LookupAt(ps, 4);
    LookupAt(ps, 5);
    LookupAt(ps, 6);
    ModelledByFields(LensC1);
  }

  /** A component is modelled once each arithmetic field is. */
  lemma ModelledByFields(comp: Json)
    requires NumericOrNullish(Get(comp, "rotation")) && NumericOrNullish(Get(comp, "focalLength"))
    requires NumericOrNullish(Get(comp, "reflectivity")) && NumericOrNullish(Get(comp, "sensitivity"))
    requires NumericOrNullish(Get(comp, "noise"))
    ensures ComponentModelled(comp)
  {
  }

  /** c1 turns by 0, has focal length 100 and base intensity 1, and is named c1 of type
      lens. */
  lemma LensC1Unit()
    ensures ComponentModelled(LensC1)
    ensures FieldOr(LensC1, "rotation", 0.0) == 0.0 && FieldOr(LensC1, "focalLength", 100.0) == 100.0
    ensures BaseIntensity(LensC1) == 1.0
    ensures ComponentId(LensC1) == JStr("c1") && ComponentType(LensC1) == JStr("lens")
  {
    LensC1Fields();
    UnitLensFromFields(LensC1, JStr("c1"), JStr("lens"));
  }

  /** The values a component with these fields computes with. */
  lemma UnitLensFromFields(comp: Json, id: Json, kind: Json)
    requires Truthy(id) && Truthy(kind)
    requires Get(comp, "id") == Some(id) && Get(comp, "type") == Some(kind)
    requires Get(comp, "rotation") == Some(JNum(0.0)) && Get(comp, "focalLength") == Some(JNum(100.0))
    requires Get(comp, "reflectivity") == Some(JNum(1.0)) && Get(comp, "sensitivity") == Some(JNum(1.0))
    requires Get(comp, "noise") == Some(JNum(0.0))
    ensures ComponentModelled(comp)
    ensures FieldOr(comp, "rotation", 0.0) == 0.0 && FieldOr(comp, "focalLength", 100.0) == 100.0
    ensures BaseIntensity(comp) == 1.0
    ensures ComponentId(comp) == id && ComponentType(comp) == kind
  {
    ModelledByFields(comp);
  }

  /** Ray i of a component with rotation 0, focal length 100 and base intensity 1, lit
      at angle 0, points at 10i degrees, is 100 + 10i long and has intensity 1 - 0.1i. */
  lemma UnitLensRay(comp: Json, i: nat)
    requires ComponentModelled(comp) && i < 3
    requires FieldOr(comp, "rotation", 0.0) == 0.0 && FieldOr(comp, "focalLength", 100.0) == 100.0
    requires BaseIntensity(comp) == 1.0
    ensures var r := RayAt(comp, 0.0, i);
      && r.componentId == ComponentId(comp) && r.componentType == ComponentType(comp)
      && r.directionDeg == 10.0 * i as real && r.length == 100 + 10 * i
      && r.intensity == 1.0 - 0.1 * i as real
  {
    var r := RayAt(comp, 0.0, i);
    assert r.directionDeg == Mod360(10.0 * i as real);
    assert r.length == Round(Lengthen(100.0, i));
    assert r.intensity == ToFixed3(Attenuate(1.0, i));
  }

  /** All three rays of such a component. */
  lemma UnitLensRays(comp: Json)
    requires ComponentModelled(comp)
    requires FieldOr(comp, "rotation", 0.0) == 0.0 && FieldOr(comp, "focalLength", 100.0) == 100.0
    requires BaseIntensity(comp) == 1.0
    ensures var rays := RaysFor(comp, 0.0);
      && |rays| == 3
      && rays[0].componentId == rays[1].componentId == rays[2].componentId == ComponentId(comp)
      && rays[0].componentType == rays[1].componentType == rays[2].componentType == ComponentType(comp)
      && rays[0].directionDeg == 0.0 && rays[1].directionDeg == 10.0 && rays[2].directionDeg == 20.0
      && rays[0].length == 100 && rays[1].length == 110 && rays[2].length == 120
      && rays[0].intensity == 1.0 && rays[1].intensity == 0.9 && rays[2].intensity == 0.8
  {
    UnitLensRay(comp, 0);
    UnitLensRay(comp, 1);
    UnitLensRay(comp, 2);
  }

  /** The c1 rays: directions 0, 10, 20, lengths 100, 110, 120 and intensities 1.0, 0.9,
      0.8, all three from c1. */
  lemma LensC1Rays()
    ensures ComponentModelled(LensC1)
    ensures var rays := RaysFor(LensC1, 0.0);
      && |rays| == 3
      && rays[0].componentId == JStr("c1") && rays[1].componentId == JStr("c1") && rays[2].componentId == JStr("c1")
      && rays[0].componentType == JStr("lens") && rays[1].componentType == JStr("lens") && rays[2].componentType == JStr("lens")
      && rays[0].directionDeg == 0.0 && rays[1].directionDeg == 10.0 && rays[2].directionDeg == 20.0
      && rays[0].length == 100 && rays[1].length == 110 && rays[2].length == 120
      && rays[0].intensity == 1.0 && rays[1].intensity == 0.9 && rays[2].intensity == 0.8
  {
    LensC1Unit();
    UnitLensRays(LensC1);
  }

  /** Amplitudes are never negative, and carry at most four decimals. */
  lemma SampleAmplitude(comp: Json, f: int, raw: RawAmplitude)
    requires ComponentModelled(comp)
    ensures SampleAt(comp, f, raw).amplitude >= 0.0
    ensures (SampleAt(comp, f, raw).amplitude * 10000.0).Floor as real ==
            SampleAt(comp, f, raw).amplitude * 10000.0
  {
  }

  /** `parseFloat(x.toFixed(4))` keeps the order of non-negative numbers. */
  lemma ToFixed4Monotone(x: real, y: real)
    requires 0.0 <= x <= y
    ensures ToFixed4(x) <= ToFixed4(y)
  {
    RoundMonotone(x * 10000.0, y * 10000.0);
  }

  /** The clamp at 0 and the rounding to four decimals keep the order the curve gives:
      where the curve is no higher at g than at f, neither is the amplitude. So the
      amplitude falls with frequency wherever the curve does, as it does for a
      non-negative base and `1 + noise > 0`, since log10(1 + f/1000) rises with f. */
  lemma AmplitudeOrder(comp: Json, f: int, g: int, raw: RawAmplitude)
    requires ComponentModelled(comp)
    requires raw(BaseIntensity(comp), Noise(comp), g) <= raw(BaseIntensity(comp), Noise(comp), f)
    ensures SampleAt(comp, g, raw).amplitude <= SampleAt(comp, f, raw).amplitude
  {
    var b, n := BaseIntensity(comp), Noise(comp);
    ToFixed4Monotone(Max(0.0, raw(b, n, g)), Max(0.0, raw(b, n, f)));
  }

  /** Every sample of every answered request has a non-negative amplitude and one of
      the requested frequencies. */
  lemma {:induction false} AllSamplesWellFormed(comps: seq<Json>, freqs: seq<int>, raw: RawAmplitude, s: Sample)
    requires AllModelled(comps)
    requires s in SamplesOf(comps, freqs, raw)
    ensures s.amplitude >= 0.0 && s.frequencyHz in freqs
    ensures (s.amplitude * 10000.0).Floor as real == s.amplitude * 10000.0
    decreases |comps|
  {
    var n := |comps| - 1;
    AllModelledPrefix(comps, n);
    if s in SamplesOf(comps[..n], freqs, raw) {
      AllSamplesWellFormed(comps[..n], freqs, raw, s);
    } else {
      var j :| 0 <= j < |freqs| && SamplesFor(comps[n], freqs, raw)[j] == s;
      SampleAmplitude(comps[n], freqs[j], raw);
    }
  }

  // ---------------------------------------------------------------------------
  // Reading the CSV numbers back

  /** The index of the last comma of s. */
  function LastComma(s: string): (r: Option<nat>)
    ensures r.Some? ==> r.value < |s| && s[r.value] == ','
    decreases |s|
  {
    if s == [] then None
    else if s[|s| - 1] == ',' then Some(|s| - 1)
    else LastComma(s[..|s| - 1])
  }

  /** The frequency and amplitude a CSV row holds: its last two comma-separated fields,
      read as decimal numbers. */
  function RowNumbers(row: string): Option<(real, real)> {
    match LastComma(row)
    case None => None
    case Some(i) =>
      match LastComma(row[..i])
      case None => None
      case Some(j) => Some((DecimalValue(row[j + 1..i]), DecimalValue(row[i + 1..])))
  }

  /** The last comma of h + "," + t, for t without comma, is the one after h. */
  lemma {:induction false} LastCommaOf(h: string, t: string)
    requires ',' !in t
    ensures LastComma(h + "," + t) == Some(|h|)
    decreases |t|
  {
    var s := h + "," + t;
    if t != [] {
      var t' := t[..|t| - 1];
      assert s[|s| - 1] == t[|t| - 1];
      assert s[..|s| - 1] == h + "," + t';
      assert ',' !in t' by {
        forall i | 0 <= i < |t'| ensures t'[i] != ',' {
          assert t'[i] == t[i];
        }
      }
      LastCommaOf(h, t');
    } else {
      assert s[|s| - 1] == ',';
    }
  }

  /** A number's text holds no comma. */
  lemma NoCommaInNumber(r: real)
    ensures ',' !in NumberText(r)
  {
  }

  /** A CSV row is the four fields joined by commas. */
  lemma CsvRowShape(s: Sample)
    ensures CsvRow(s) == Stringify(s.componentId) + "," + Stringify(s.componentType) + "," +
                         NumberText(s.frequencyHz as real) + "," + NumberText(s.amplitude)
  {
    var a, b := Stringify(s.componentId), Stringify(s.componentType);
    var c, d := NumberText(s.frequencyHz as real), NumberText(s.amplitude);
    JoinFour(a, b, c, d);
  }

  lemma JoinFour(a: string, b: string, c: string, d: string)
    ensures Join([a, b, c, d], ",") == a + "," + b + "," + c + "," + d
  {
    assert [a, b, c, d][1..] == [b, c, d];
    assert [b, c, d][1..] == [c, d];
    assert [c, d][1..] == [d];
    assert Join([c, d], ",") == c + "," + d;
    assert Join([b, c, d], ",") == b + "," + (c + "," + d);
  }

  /** An amplitude rounded to four decimals has at most four decimals. */
  lemma FourDecimals(r: real)
    requires (r * 10000.0).Floor as real == r * 10000.0
    ensures Decimals(r, 4)
  {
    assert r * 10.0 * 10.0 * 10.0 * 10.0 == r * 10000.0;
  }

  /** A row whose last two fields hold no comma yields those two fields, read as
      numbers. */
  lemma RowFields(a: string, c: string, d: string)
    requires ',' !in c && ',' !in d
    ensures RowNumbers(a + "," + c + "," + d) == Some((DecimalValue(c), DecimalValue(d)))
  {
    var row := a + "," + c + "," + d;
    var i := |a + "," + c|;
    LastCommaOf(a + "," + c, d);
    assert row[..i] == a + "," + c;
    LastCommaOf(a, c);
    assert (a + "," + c)[|a| + 1..] == c;
    assert row[i + 1..] == d;
  }

  /** The frequency and amplitude of a sample read back from its CSV row. */
  lemma CsvRowNumbers(s: Sample)
    requires Decimals(s.amplitude, 4)
    ensures RowNumbers(CsvRow(s)) == Some((s.frequencyHz as real, s.amplitude))
  {
    var a := Stringify(s.componentId) + "," + Stringify(s.componentType);
    var c, d := NumberText(s.frequencyHz as real), NumberText(s.amplitude);
    CsvRowShape(s);
    assert CsvRow(s) == a + "," + c + "," + d;
    NoCommaInNumber(s.frequencyHz as real);
    NoCommaInNumber(s.amplitude);
    RowFields(a, c, d);
    NumberTextValue(s.frequencyHz as real, 0);
    NumberTextValue(s.amplitude, 4);
  }

  /** Line k + 1 of a CSV text is the row of sample k. */
  lemma CsvLineOf(samples: seq<Sample>, k: nat)
    requires k < |samples|
    ensures CsvLines(samples)[k + 1] == CsvRow(samples[k])
  {
  }

  /** Every sample's amplitude has at most four decimals. */
  lemma SampleDecimals(comps: seq<Json>, freqs: seq<int>, raw: RawAmplitude, k: nat)
    requires AllModelled(comps) && k < |SamplesOf(comps, freqs, raw)|
    ensures Decimals(SamplesOf(comps, freqs, raw)[k].amplitude, 4)
  {
    var samples := SamplesOf(comps, freqs, raw);
    AllSamplesWellFormed(comps, freqs, raw, samples[k]);
    FourDecimals(samples[k].amplitude);
  }

  /** Line k + 1 of a CSV text reads back as the frequency and amplitude of sample k. */
  lemma CsvLinesNumbers(comps: seq<Json>, freqs: seq<int>, raw: RawAmplitude, k: nat)
    requires AllModelled(comps) && k < |SamplesOf(comps, freqs, raw)|
    ensures var s := SamplesOf(comps, freqs, raw)[k];
      RowNumbers(CsvLines(SamplesOf(comps, freqs, raw))[k + 1]) == Some((s.frequencyHz as real, s.amplitude))
  {
    var samples := SamplesOf(comps, freqs, raw);
    CsvLineOf(samples, k);
    SampleDecimals(comps, freqs, raw, k);
    CsvRowNumbers(samples[k]);
  }

  /** The CSV and the JSON answers to one body agree: the CSV answer is given exactly
      when the JSON one is, it has a header and then one line per JSON sample, and line
      k + 1 reads back as the frequency and amplitude of sample k. */
  lemma CsvMatchesJson(body: Json, format: Option<string>, accept: Option<string>, raw: RawAmplitude)
    requires RequestModelled(Request(body, format, accept)) && WantsCsv(Request(body, format, accept))
    ensures var csv := Simulation(Request(body, format, accept), raw);
            var json := Simulation(Request(body, None, None), raw);
      && (csv.CsvOk? <==> json.JsonOk?)
      && (json.JsonOk? ==>
            var lines := SplitCrlf(csv.csv);
            && |lines| == 1 + |json.frequencyAnalysis| && lines[0] == CsvHeader
            && forall k :: 0 <= k < |json.frequencyAnalysis| ==>
                 RowNumbers(lines[k + 1]) ==
                   Some((json.frequencyAnalysis[k].frequencyHz as real, json.frequencyAnalysis[k].amplitude)))
  {
    var comps := ComponentsOf(body);
    if comps.JArr? && JNull !in comps.elems {
      var samples := SamplesOf(comps.elems, Frequencies(OptionsOf(body)), raw);
      CsvSplitsIntoLines(samples);
      forall k | 0 <= k < |samples|
        ensures RowNumbers(CsvLines(samples)[k + 1]) == Some((samples[k].frequencyHz as real, samples[k].amplitude))
      {
        CsvLinesNumbers(comps.elems, Frequencies(OptionsOf(body)), raw, k);
      }
    }
  }

  // ---------------------------------------------------------------------------
  // The answered content

  /** The JSON answer lists 3 rays per component and |frequencies| samples per
      component; the CSV answer splits into a header and one row per sample. */
  lemma AnswerSizes(req: Request, raw: RawAmplitude)
    requires RequestModelled(req)
    ensures var comps := ComponentsOf(req.body);
            var resp := Simulation(req, raw);
      && (resp.JsonOk? ==>
           |resp.rays| == 3 * |comps.elems| &&
           |resp.frequencyAnalysis| == |comps.elems| * |Frequencies(OptionsOf(req.body))|)
      && (resp.CsvOk? ==>
           SplitCrlf(resp.csv) == CsvLines(SamplesOf(comps.elems, Frequencies(OptionsOf(req.body)), raw)) &&
           |SplitCrlf(resp.csv)| == 1 + |comps.elems| * |Frequencies(OptionsOf(req.body))|)
  {
    var comps := ComponentsOf(req.body);
    if comps.JArr? && JNull !in comps.elems {
      var freqs := Frequencies(OptionsOf(req.body));
      RayCount(comps.elems, AngleOf(OptionsOf(req.body)));
      SampleCount(comps.elems, freqs, raw);
      CsvSplitsIntoLines(SamplesOf(comps.elems, freqs, raw));
    }
  }
}
