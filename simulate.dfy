/** The `POST /simulate` handler of the Express server: it takes a component
    list, derives a frequency list, emits three synthetic rays and one frequency
    sample per component and frequency, and answers with JSON or with CSV. */
module Simulate {
  import opened Json

  datatype Origin = Origin(x: Json, y: Json)

  datatype Ray = Ray(componentId: Json, componentType: Json, origin: Origin,
                     directionDeg: real, length: int, intensity: real)

  datatype Sample = Sample(componentId: Json, componentType: Json, frequencyHz: int, amplitude: real)

  /** The parsed body (the JSON body parser only hands over an object or an array),
      the `format` query parameter and the `Accept` header. */
  datatype Request = Request(body: Json, format: Option<string>, accept: Option<string>)

  datatype Response =
    | JsonOk(rays: seq<Ray>, frequencyAnalysis: seq<Sample>)
    | CsvOk(csv: string)          // 200, text/csv, attachment frequency_analysis.csv
    | BadRequest(error: Json)     // 400
    | ServerError                 // 500: the TypeError thrown when a component is null

  /** The damping curve base * (1 - log10(1 + f / 1000)) / (1 + noise), as a function of
      (base intensity, noise, frequency); it is floating-point arithmetic, so it is a
      parameter here. */
  type RawAmplitude = (real, real, int) -> real

  const ErrorBody: Json := JObj([Prop("error", JStr("components must be an array"))])

  const DefaultFrequencies: seq<int> := [100, 500, 1000, 5000, 10000]

  // ---------------------------------------------------------------------------
  // JavaScript arithmetic

  function Max(a: real, b: real): (r: real)
    ensures r >= a && r >= b && (r == a || r == b)
  {
    if a >= b then a else b
  }

  /** `Math.round`: the nearest integer, halves rounded up. */
  function Round(x: real): (r: int)
    ensures r as real - 0.5 <= x < r as real + 0.5
  {
    (x + 0.5).Floor
  }

  /** `Math.trunc`: rounds toward zero. */
  function Trunc(x: real): (r: int)
    ensures x >= 0.0 ==> r >= 0 && r as real <= x < r as real + 1.0
    ensures x < 0.0 ==> r <= 0 && r as real - 1.0 < x <= r as real
  {
    if x >= 0.0 then x.Floor else -((-x).Floor)
  }

  /** JavaScript's `a % 360`: the remainder of truncating division, with the sign of
      the dividend, so it lies in [0, 360) only for a non-negative dividend. */
  function Mod360(a: real): (r: real)
    ensures a >= 0.0 ==> 0.0 <= r < 360.0
    ensures a < 0.0 ==> -360.0 < r <= 0.0
    ensures ((a - r) / 360.0).Floor as real == (a - r) / 360.0
  {
    var q := Trunc(a / 360.0);
    assert (q as real).Floor == q;
    a - 360.0 * q as real
  }

  /** Rounding to the nearest integer with halves away from zero, as `toFixed` does. */
  function RoundHalfAway(y: real): (n: int)
    ensures y >= 0.0 ==> n >= 0 && n as real - 0.5 <= y < n as real + 0.5
    ensures y < 0.0 ==> n <= 0 && n as real - 0.5 < y <= n as real + 0.5
  {
    if y >= 0.0 then Round(y) else -Round(-y)
  }

  /** `parseFloat(x.toFixed(3))`: the nearest multiple of 0.001, halves away from zero. */
  function ToFixed3(x: real): (r: real)
    ensures x >= 0.0 ==> r >= 0.0
    ensures x <= 0.0 ==> r <= 0.0
    ensures (r * 1000.0).Floor as real == r * 1000.0
    ensures -0.5 <= (r - x) * 1000.0 <= 0.5
  {
    var n := RoundHalfAway(x * 1000.0);
    assert (n as real).Floor == n;
    n as real / 1000.0
  }

  /** `parseFloat(x.toFixed(4))`: the nearest multiple of 0.0001, halves away from zero. */
  function ToFixed4(x: real): (r: real)
    ensures x >= 0.0 ==> r >= 0.0
    ensures x <= 0.0 ==> r <= 0.0
    ensures (r * 10000.0).Floor as real == r * 10000.0
    ensures -0.5 <= (r - x) * 10000.0 <= 0.5
  {
    var n := RoundHalfAway(x * 10000.0);
    assert (n as real).Floor == n;
    n as real / 10000.0
  }

  // ---------------------------------------------------------------------------
  // Reading the payload

  /** `Array.isArray(payload) ? payload : payload.components || []`. */
  function ComponentsOf(body: Json): Json {
    if body.JArr? then body else OrElse(Get(body, "components"), JArr([]))
  }

  /** `payload.options || {}`. */
  function OptionsOf(body: Json): Json {
    OrElse(Get(body, "options"), JObj([]))
  }

  /** A value that JavaScript arithmetic reads as a number without going through a
      string: a number or a boolean. */
  predicate Numeric(v: Json) {
    v.JNum? || v.JBool?
  }

  function NumberOf(v: Json): real
    requires Numeric(v)
  {
    if v.JNum? then v.n else if v.b then 1.0 else 0.0
  }

  predicate NumericOrNullish(v: Option<Json>) {
    v.None? || v.value.JNull? || Numeric(v.value)
  }

  /** `Number(options.angleOfIncidence || 0)` is modelled for numbers and booleans. */
  predicate AngleModelled(options: Json) {
    Numeric(OrElse(Get(options, "angleOfIncidence"), JNum(0.0)))
  }

  function AngleOf(options: Json): real
    requires AngleModelled(options)
  {
    NumberOf(OrElse(Get(options, "angleOfIncidence"), JNum(0.0)))
  }

  const NumericFields: seq<string> := ["rotation", "focalLength", "reflectivity", "sensitivity", "noise"]

  /** The fields used in arithmetic hold numbers, booleans, null or nothing. */
  predicate ComponentModelled(comp: Json) {
    forall k :: k in NumericFields ==> NumericOrNullish(Get(comp, k))
  }

  predicate RequestModelled(req: Request) {
    && (req.body.JArr? || req.body.JObj?)
    && AngleModelled(OptionsOf(req.body))
    && var comps := ComponentsOf(req.body);
       comps.JArr? ==> forall c :: c in comps.elems ==> ComponentModelled(c)
  }

  /** `comp[k] ?? d` used as a number. */
  function FieldOr(comp: Json, k: string, d: real): real
    requires NumericOrNullish(Get(comp, k))
  {
    var v := Get(comp, k);
    if v.None? || v.value.JNull? then d else NumberOf(v.value)
  }

  /** `comp.id || null`. */
  function ComponentId(comp: Json): Json {
    OrElse(Get(comp, "id"), JNull)
  }

  /** `comp.type || 'unknown'`. */
  function ComponentType(comp: Json): Json {
    OrElse(Get(comp, "type"), JStr("unknown"))
  }

  /** `(comp.reflectivity ?? 1) * (comp.sensitivity ?? 1)`. */
  function BaseIntensity(comp: Json): real
    requires ComponentModelled(comp)
  {
    assert "reflectivity" in NumericFields && "sensitivity" in NumericFields;
    FieldOr(comp, "reflectivity", 1.0) * FieldOr(comp, "sensitivity", 1.0)
  }

  /** `comp.noise || 0`. */
  function Noise(comp: Json): real
    requires ComponentModelled(comp)
  {
    assert "noise" in NumericFields;
    var v := Get(comp, "noise");
    if v.Some? && Truthy(v.value) then NumberOf(v.value) else 0.0
  }

  // ---------------------------------------------------------------------------
  // The frequency list

  /** A sweep after clamping: start and stop at least 0, at least two points. */
  datatype Sweep = Sweep(start: real, stop: real, points: nat)

  /** The sweep in `options.freqSweep`, if it has numeric start, stop and points and
      more than one point; None selects the default frequency list. */
  function SweepOf(options: Json): (sw: Option<Sweep>)
    ensures sw.Some? ==> sw.value.start >= 0.0 && sw.value.stop >= 0.0 && sw.value.points >= 2
  {
    var fs := OrElse(Get(options, "freqSweep"), JNull);
    var start, stop, points := Get(fs, "start"), Get(fs, "stop"), Get(fs, "points");
    if Truthy(fs) && start.Some? && start.value.JNum? && stop.Some? && stop.value.JNum?
       && points.Some? && points.value.JNum? && points.value.n > 1.0
    then
      var pts := if points.value.n.Floor < 2 then 2 else points.value.n.Floor;
      Some(Sweep(Max(0.0, start.value.n), Max(0.0, stop.value.n), pts))
    else None
  }

  /** Entry i of a sweep: start + (stop - start) * i / (points - 1), rounded. */
  function SweepPoint(sw: Sweep, i: nat): int
    requires sw.points >= 2
  {
    Round(sw.start + (sw.stop - sw.start) * (i as real / (sw.points - 1) as real))
  }

  /** The frequency list the handler samples. */
  function Frequencies(options: Json): seq<int> {
    match SweepOf(options)
    case None => DefaultFrequencies
    case Some(sw) => seq(sw.points, i requires 0 <= i < sw.points => SweepPoint(sw, i))
  }

  // ---------------------------------------------------------------------------
  // Rays and samples

  /** The factor `1 + i * 0.1` of ray i's length, for the three rays 0, 1 and 2. */
  function Lengthen(x: real, i: nat): real
    requires i < 3
  {
    if i == 0 then x else if i == 1 then x * 1.1 else x * 1.2
  }

  /** The factor `1 - i * 0.1` of ray i's intensity, for the three rays 0, 1 and 2. */
  function Attenuate(x: real, i: nat): real
    requires i < 3
  {
    if i == 0 then x else if i == 1 then x * 0.9 else x * 0.8
  }

  /** Ray i of a component. */
  function RayAt(comp: Json, angle: real, i: nat): Ray
    requires ComponentModelled(comp) && i < 3
  {
    assert "rotation" in NumericFields && "focalLength" in NumericFields;
    Ray(ComponentId(comp), ComponentType(comp),
        Origin(Nullish(Get(comp, "x"), JNum(0.0)), Nullish(Get(comp, "y"), JNum(0.0))),
        Mod360(FieldOr(comp, "rotation", 0.0) + angle + 10.0 * i as real),
        Round(Lengthen(FieldOr(comp, "focalLength", 100.0), i)),
        ToFixed3(Attenuate(BaseIntensity(comp), i)))
  }

  /** The sample of a component at frequency f. */
  function SampleAt(comp: Json, f: int, raw: RawAmplitude): Sample
    requires ComponentModelled(comp)
  {
    Sample(ComponentId(comp), ComponentType(comp), f,
           ToFixed4(Max(0.0, raw(BaseIntensity(comp), Noise(comp), f))))
  }

  predicate AllModelled(comps: seq<Json>) {
    forall c :: c in comps ==> ComponentModelled(c)
  }

  /** The three rays of one component, i = 0, 1, 2. */
  function RaysFor(comp: Json, angle: real): seq<Ray>
    requires ComponentModelled(comp)
  {
    seq(3, i requires 0 <= i < 3 => RayAt(comp, angle, i))
  }

  /** The rays of a component list: three per component, in component order. */
  function RaysOf(comps: seq<Json>, angle: real): seq<Ray>
    requires AllModelled(comps)
  {
    if comps == [] then []
    else RaysOf(comps[..|comps| - 1], angle) + RaysFor(comps[|comps| - 1], angle)
  }

  /** The samples of one component, in frequency order. */
  function SamplesFor(comp: Json, freqs: seq<int>, raw: RawAmplitude): seq<Sample>
    requires ComponentModelled(comp)
  {
    seq(|freqs|, j requires 0 <= j < |freqs| => SampleAt(comp, freqs[j], raw))
  }

  /** The samples of a component list, component by component. */
  function SamplesOf(comps: seq<Json>, freqs: seq<int>, raw: RawAmplitude): seq<Sample>
    requires AllModelled(comps)
  {
    if comps == [] then []
    else SamplesOf(comps[..|comps| - 1], freqs, raw) + SamplesFor(comps[|comps| - 1], freqs, raw)
  }

  // ---------------------------------------------------------------------------
  // CSV

  const CsvHeader: string := "componentId,type,frequencyHz,amplitude"

  /** One CSV row: id and type as JSON text, the numbers as `String` prints them. */
  function CsvRow(s: Sample): string {
    Join(CsvFields(s), ",")
  }

  function CsvFields(s: Sample): seq<string> {
    [Stringify(s.componentId), Stringify(s.componentType),
     NumberText(s.frequencyHz as real), NumberText(s.amplitude)]
  }

  function CsvLines(samples: seq<Sample>): seq<string> {
    [CsvHeader] + CsvRows(samples)
  }

  function CsvRows(samples: seq<Sample>): (rows: seq<string>)
    ensures |rows| == |samples|
  {
    seq(|samples|, k requires 0 <= k < |samples| => CsvRow(samples[k]))
  }

  function CsvText(samples: seq<Sample>): string {
    Join(CsvLines(samples), "\r\n")
  }

  function AsciiLower(c: char): char {
    if 'A' <= c <= 'Z' then (c as int + 32) as char else c
  }

  function LowerAscii(s: string): string {
    seq(|s|, i requires 0 <= i < |s| => AsciiLower(s[i]))
  }

  /** `s.includes(t)`. */
  function Contains(s: string, t: string): bool
    decreases |s|
  {
    if |s| < |t| then false else s[..|t|] == t || Contains(s[1..], t)
  }

  /** CSV is chosen by `format=csv` in any letter case or an Accept header holding
      "text/csv". Comparing the ASCII-lower-cased text with "csv" is exact: full
      lower-casing never shortens a string, and only C, S and V map to c, s and v. */
  predicate WantsCsv(req: Request) {
    || (req.format.Some? && LowerAscii(req.format.value) == "csv")
    || (req.accept.Some? && Contains(req.accept.value, "text/csv"))
  }

  // ---------------------------------------------------------------------------
  // The handler

  /** What the handler answers, stated declaratively. */
  function Simulation(req: Request, raw: RawAmplitude): Response
    requires RequestModelled(req)
  {
    var comps := ComponentsOf(req.body);
    var options := OptionsOf(req.body);
    if !comps.JArr? then BadRequest(ErrorBody)
    else if JNull in comps.elems then ServerError
    else
      var samples := SamplesOf(comps.elems, Frequencies(options), raw);
      if WantsCsv(req) then CsvOk(CsvText(samples))
      else JsonOk(RaysOf(comps.elems, AngleOf(options)), samples)
  }

  /** The frequency list: the default, or the sweep entries pushed one by one. */
  method BuildFrequencies(options: Json) returns (freqs: seq<int>)
    ensures SweepOf(options).None? ==> freqs == DefaultFrequencies
    ensures SweepOf(options).Some? ==>
      |freqs| == SweepOf(options).value.points &&
      forall i :: 0 <= i < |freqs| ==> freqs[i] == SweepPoint(SweepOf(options).value, i)
  {
    freqs := [100, 500, 1000, 5000, 10000];
    var sweep := SweepOf(options);
    if sweep.Some? {
      var sw := sweep.value;
      freqs := [];
      for i := 0 to sw.points
        invariant |freqs| == i
        invariant forall j :: 0 <= j < i ==> freqs[j] == SweepPoint(sw, j)
      {
        freqs := freqs + [SweepPoint(sw, i)];
      }
    }
  }

  lemma AllModelledPrefix(comps: seq<Json>, k: nat)
    requires AllModelled(comps) && k <= |comps|
    ensures AllModelled(comps[..k])
  {
    forall c | c in comps[..k] ensures ComponentModelled(c) {
      var i :| 0 <= i < k && comps[..k][i] == c;
      assert comps[i] == c;
    }
  }

  /** Extending the processed prefix by one component appends its three rays and its
      samples. */
  lemma GenerateStep(comps: seq<Json>, k: nat, angle: real, freqs: seq<int>, raw: RawAmplitude)
    requires AllModelled(comps) && k < |comps|
    ensures AllModelled(comps[..k]) && AllModelled(comps[..k + 1])
    ensures RaysOf(comps[..k + 1], angle) == RaysOf(comps[..k], angle) + RaysFor(comps[k], angle)
    ensures SamplesOf(comps[..k + 1], freqs, raw) ==
      SamplesOf(comps[..k], freqs, raw) + SamplesFor(comps[k], freqs, raw)
  {
    AllModelledPrefix(comps, k);
    AllModelledPrefix(comps, k + 1);
    var p := comps[..k + 1];
    assert p[..|p| - 1] == comps[..k] && p[|p| - 1] == comps[k];
  }

  /** One component's three rays, in order. */
  method ComponentRays(comp: Json, angle: real) returns (perRay: seq<Ray>)
    requires ComponentModelled(comp)
    ensures perRay == RaysFor(comp, angle)
  {
    ghost var all := RaysFor(comp, angle);
    perRay := [];
    for i := 0 to 3
      invariant perRay == all[..i]
    {
      var ray := RayAt(comp, angle, i);
      assert ray == all[i];
      assert all[..i + 1] == all[..i] + [ray];
      perRay := perRay + [ray];
    }
    assert all[..3] == all;
  }

  /** One component's samples, one per frequency in order. */
  method ComponentSamples(comp: Json, freqs: seq<int>, raw: RawAmplitude) returns (perComp: seq<Sample>)
    requires ComponentModelled(comp)
    ensures perComp == SamplesFor(comp, freqs, raw)
  {
    perComp := [];
    for j := 0 to |freqs|
      invariant |perComp| == j
      invariant forall m :: 0 <= m < j ==> perComp[m] == SampleAt(comp, freqs[m], raw)
    {
      perComp := perComp + [SampleAt(comp, freqs[j], raw)];
    }
  }

  /** The loop over components: three rays, then one sample per frequency; a null
      component throws before anything of it is produced. */
  method Generate(comps: seq<Json>, angle: real, freqs: seq<int>, raw: RawAmplitude)
    returns (threw: bool, rays: seq<Ray>, samples: seq<Sample>)
    requires AllModelled(comps)
    ensures threw <==> JNull in comps
    ensures !threw ==> rays == RaysOf(comps, angle) && samples == SamplesOf(comps, freqs, raw)
  {
    rays, samples := [], [];
    var k := 0;
    while k < |comps|
      invariant 0 <= k <= |comps|
      invariant forall m :: 0 <= m < k ==> !comps[m].JNull?
      invariant AllModelled(comps[..k])
      invariant rays == RaysOf(comps[..k], angle)
      invariant samples == SamplesOf(comps[..k], freqs, raw)
    {
      var comp := comps[k];
      if comp.JNull? {
        return true, rays, samples;
      }
      GenerateStep(comps, k, angle, freqs, raw);
      var perRay := ComponentRays(comp, angle);
      rays := rays + perRay;
      var perComp := ComponentSamples(comp, freqs, raw);
      samples := samples + perComp;
      k := k + 1;
    }
    assert comps[..k] == comps;
    threw := false;
  }

  method RenderCsv(samples: seq<Sample>) returns (csv: string)
    ensures csv == CsvText(samples)
    ensures SplitCrlf(csv) == CsvLines(samples)
  {
    var rows := [CsvHeader];
    assert rows == CsvLines(samples[..0]);
    for k := 0 to |samples|
      invariant rows == CsvLines(samples[..k])
    {
      var r := samples[k];
      var row := [Stringify(r.componentId), Stringify(r.componentType),
                  NumberText(r.frequencyHz as real), NumberText(r.amplitude)];
      assert row == CsvFields(r);
      CsvLinesStep(samples, k);
      rows := rows + [Join(row, ",")];
    }
    assert samples[..|samples|] == samples;
    csv := Join(rows, "\r\n");
    CsvSplitsIntoLines(samples);
  }

  /** One more sample adds its row at the end. */
  lemma CsvLinesStep(samples: seq<Sample>, k: nat)
    requires k < |samples|
    ensures CsvLines(samples[..k + 1]) == CsvLines(samples[..k]) + [CsvRow(samples[k])]
  {
    var r0, row := CsvRows(samples[..k]), CsvRow(samples[k]);
    CsvRowsStep(samples, k);
    var header := [CsvHeader];
    assert header + (r0 + [row]) == (header + r0) + [row];
  }

  lemma CsvRowsStep(samples: seq<Sample>, k: nat)
    requires k < |samples|
    ensures CsvRows(samples[..k + 1]) == CsvRows(samples[..k]) + [CsvRow(samples[k])]
  {
    var p, q := samples[..k], samples[..k + 1];
    assert q == p + [samples[k]];
    forall m | 0 <= m < k + 1
      ensures CsvRows(q)[m] == (CsvRows(p) + [CsvRow(samples[k])])[m]
    {
      if m < k {
        assert q[m] == p[m];
      }
    }
  }

  method HandleSimulate(req: Request, raw: RawAmplitude) returns (resp: Response)
    requires RequestModelled(req)
    ensures resp == Simulation(req, raw)
  {
    var payload := req.body;
    var components := ComponentsOf(payload);
    var options := OptionsOf(payload);
    var angleOfIncidence := AngleOf(options);
    if !components.JArr? {
      return BadRequest(ErrorBody);
    }
    var frequencies := BuildFrequencies(options);
    assert frequencies == Frequencies(options);
    var threw, rays, frequencyAnalysis := Generate(components.elems, angleOfIncidence, frequencies, raw);
    if threw {
      return ServerError;
    }
    if WantsCsv(req) {
      var csv := RenderCsv(frequencyAnalysis);
      return CsvOk(csv);
    }
    return JsonOk(rays, frequencyAnalysis);
  }

  // ---------------------------------------------------------------------------
  // Splitting CSV text back into lines

  /** Splits text at every CR LF pair; `cur` is the line read so far. */
  function SplitFrom(s: string, cur: string): seq<string>
    decreases |s|
  {
    if s == [] then [cur]
    else if |s| >= 2 && s[0] == '\r' && s[1] == '\n' then [cur] + SplitFrom(s[2..], "")
    else SplitFrom(s[1..], cur + [s[0]])
  }

  function SplitCrlf(s: string): seq<string> {
    SplitFrom(s, "")
  }

  lemma {:induction false} SplitPastLine(line: string, rest: string, cur: string)
    requires '\r' !in line
    ensures SplitFrom(line + rest, cur) == SplitFrom(rest, cur + line)
    decreases |line|
  {
    if line != [] {
      assert (line + rest)[0] == line[0] && (line + rest)[1..] == line[1..] + rest;
      SplitPastLine(line[1..], rest, cur + [line[0]]);
      assert cur + [line[0]] + line[1..] == cur + line;
    } else {
      assert line + rest == rest && cur + line == cur;
    }
  }

  /** Joining lines free of CR and LF with CR LF and splitting again gives them back. */
  lemma {:induction false} SplitJoin(lines: seq<string>)
    requires |lines| > 0
    requires forall i :: 0 <= i < |lines| ==> NoLineBreak(lines[i])
    ensures SplitCrlf(Join(lines, "\r\n")) == lines
    decreases |lines|
  {
    if |lines| == 1 {
      SplitPastLine(lines[0], "", "");
      assert lines[0] + "" == lines[0];
    } else {
      var rest := Join(lines[1..], "\r\n");
      var tail := "\r\n" + rest;
      assert Join(lines, "\r\n") == lines[0] + tail;
      SplitPastLine(lines[0], tail, "");
      assert "" + lines[0] == lines[0];
      assert tail[0] == '\r' && tail[1] == '\n' && tail[2..] == rest;
      assert SplitFrom(tail, lines[0]) == [lines[0]] + SplitFrom(rest, "");
      SplitJoin(lines[1..]);
      assert [lines[0]] + lines[1..] == lines;
    }
  }

  lemma CsvRowNoLineBreak(s: Sample)
    ensures NoLineBreak(CsvRow(s))
  {
    var fields := CsvFields(s);
    forall i | 0 <= i < |fields| ensures NoLineBreak(fields[i]) {
      if i == 0 {
        StringifyNoLineBreak(s.componentId);
      } else if i == 1 {
        StringifyNoLineBreak(s.componentType);
      } else if i == 2 {
        assert NoLineBreak(NumberText(s.frequencyHz as real));
      } else {
        assert NoLineBreak(NumberText(s.amplitude));
      }
    }
    JoinNoLineBreak(fields, ",");
  }

  lemma CsvHeaderNoLineBreak()
    ensures NoLineBreak(CsvHeader)
  {
    assert forall i :: 0 <= i < |CsvHeader| ==> CsvHeader[i] != '\r' && CsvHeader[i] != '\n';
  }

  lemma CsvRowsNoLineBreak(samples: seq<Sample>)
    ensures forall k :: 0 <= k < |CsvRows(samples)| ==> NoLineBreak(CsvRows(samples)[k])
  {
    forall k | 0 <= k < |CsvRows(samples)| ensures NoLineBreak(CsvRows(samples)[k]) {
      CsvRowNoLineBreak(samples[k]);
    }
  }

  lemma ConcatNoLineBreak(a: seq<string>, b: seq<string>)
    requires forall i :: 0 <= i < |a| ==> NoLineBreak(a[i])
    requires forall i :: 0 <= i < |b| ==> NoLineBreak(b[i])
    ensures forall i :: 0 <= i < |a + b| ==> NoLineBreak((a + b)[i])
  {
    forall i | 0 <= i < |a + b| ensures NoLineBreak((a + b)[i]) {
      if i < |a| {
        assert (a + b)[i] == a[i];
      } else {
        assert (a + b)[i] == b[i - |a|];
      }
    }
  }

  lemma CsvLinesNoLineBreak(samples: seq<Sample>)
    ensures forall i :: 0 <= i < |CsvLines(samples)| ==> NoLineBreak(CsvLines(samples)[i])
  {
    var header := [CsvHeader];
    CsvHeaderNoLineBreak();
    assert forall i :: 0 <= i < |header| ==> NoLineBreak(header[i]);
    CsvRowsNoLineBreak(samples);
    ConcatNoLineBreak(header, CsvRows(samples));
  }

  /** The CSV body splits at CR LF into the header and one row per sample, in order:
      1 + |samples| lines, with no terminator after the last. */
  lemma CsvSplitsIntoLines(samples: seq<Sample>)
    ensures SplitCrlf(CsvText(samples)) == CsvLines(samples)
    ensures |SplitCrlf(CsvText(samples))| == 1 + |samples|
  {
    CsvLinesNoLineBreak(samples);
    SplitJoin(CsvLines(samples));
  }
}
