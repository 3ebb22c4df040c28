/** The simulation panel: building the request body, the loading and error state of
    one run, and shaping the returned samples into chart labels and datasets. */
module SimulationPanel {
  import opened Json
  import opened Simulate
  import opened App
  import opened SimulationProperties

  // ---------------------------------------------------------------------------
  // Labels: the distinct frequencies, ascending

  predicate Increasing(xs: seq<int>) {
    forall i, j :: 0 <= i < j < |xs| ==> xs[i] < xs[j]
  }

  function Insert(xs: seq<int>, v: int): (r: seq<int>)
    requires Increasing(xs)
    ensures Increasing(r)
    ensures forall x :: x in r <==> x in xs || x == v
    decreases |xs|
  {
    if xs == [] then [v]
    else if v < xs[0] then
      var r := [v] + xs;
      assert forall i :: 0 < i < |r| ==> r[i] == xs[i - 1];
      r
    else if v == xs[0] then xs
    else
      var rest := Insert(xs[1..], v);
      assert forall x :: x in xs <==> x == xs[0] || x in xs[1..];
      assert forall x :: x in rest ==> x > xs[0];
      var r := [xs[0]] + rest;
      assert forall i :: 0 < i < |r| ==> r[i] == rest[i - 1] && r[i] in rest;
      assert forall x :: x in r <==> x == xs[0] || x in rest;
      r
  }

  /** `[...new Set(freqData.map(d => d.frequencyHz))].sort((a, b) => a - b)`. */
  function Labels(samples: seq<Sample>): (r: seq<int>)
    ensures Increasing(r)
    ensures forall f :: f in r <==> exists i :: 0 <= i < |samples| && samples[i].frequencyHz == f
  {
    if samples == [] then []
    else
      var n := |samples| - 1;
      var prev := Labels(samples[..n]);
      assert forall i :: 0 <= i < n ==> samples[..n][i] == samples[i];
      Insert(prev, samples[n].frequencyHz)
  }

  // ---------------------------------------------------------------------------
  // Groups

  /** `String(d.componentId || d.type || 'unknown')`, the property key of the group. */
  function GroupKey(s: Sample): string {
    ToText(OrElse(Some(s.componentId), OrElse(Some(s.componentType), JStr("unknown"))))
  }

  /** The group keys in order of first appearance. */
  function KeyOrder(samples: seq<Sample>): seq<string> {
    if samples == [] then []
    else
      var n := |samples| - 1;
      var prev := KeyOrder(samples[..n]);
      if GroupKey(samples[n]) in prev then prev else prev + [GroupKey(samples[n])]
  }

  /** The key list has no repetition and holds exactly the keys of the samples. */
  lemma {:induction false} KeyOrderSpec(samples: seq<Sample>)
    ensures forall i, j :: 0 <= i < j < |KeyOrder(samples)| ==> KeyOrder(samples)[i] != KeyOrder(samples)[j]
    ensures forall k :: k in KeyOrder(samples) <==> exists i :: 0 <= i < |samples| && GroupKey(samples[i]) == k
    decreases |samples|
  {
    if samples != [] {
      var n := |samples| - 1;
      var front := samples[..n];
      var prev := KeyOrder(front);
      var last := GroupKey(samples[n]);
      KeyOrderSpec(front);
      forall k ensures k in KeyOrder(samples) <==> exists i :: 0 <= i < |samples| && GroupKey(samples[i]) == k {
        if k in KeyOrder(samples) {
          if k == last {
            assert GroupKey(samples[n]) == k;
          } else {
            assert k in prev;
            var i :| 0 <= i < |front| && GroupKey(front[i]) == k;
            assert front[i] == samples[i];
          }
        } else {
          forall i | 0 <= i < |samples| ensures GroupKey(samples[i]) != k {
            if i < n {
              assert front[i] == samples[i];
            }
          }
        }
      }
    }
  }

  /** The samples of one group, in arrival order. */
  function InGroup(samples: seq<Sample>, k: string): (r: seq<Sample>)
    ensures |r| <= |samples|
  {
    if samples == [] then []
    else
      var n := |samples| - 1;
      InGroup(samples[..n], k) + (if GroupKey(samples[n]) == k then [samples[n]] else [])
  }

  /** A group holds exactly the samples with its key, so every sample is in exactly
      one group: the one of its own key. */
  lemma {:induction false} InGroupMembers(samples: seq<Sample>, k: string, s: Sample)
    ensures s in InGroup(samples, k) <==> s in samples && GroupKey(s) == k
    decreases |samples|
  {
    if samples != [] {
      var n := |samples| - 1;
      var last := if GroupKey(samples[n]) == k then [samples[n]] else [];
      assert InGroup(samples, k) == InGroup(samples[..n], k) + last;
      InGroupMembers(samples[..n], k, s);
      assert samples == samples[..n] + [samples[n]];
      assert s in samples <==> s in samples[..n] || s == samples[n];
    }
  }

  /** Grouping keeps arrival order: it distributes over concatenation. */
  lemma {:induction false} InGroupConcat(a: seq<Sample>, b: seq<Sample>, k: string)
    ensures InGroup(a + b, k) == InGroup(a, k) + InGroup(b, k)
    decreases |b|
  {
    if b == [] {
      assert a + b == a;
    } else {
      var n := |b| - 1;
      assert (a + b)[..|a + b| - 1] == a + b[..n] && (a + b)[|a + b| - 1] == b[n];
      InGroupConcat(a, b[..n], k);
    }
  }

  /** Taking one more sample into account: the key list and the group of `k`. */
  lemma GroupStep(samples: seq<Sample>, i: nat, k: string)
    requires i < |samples|
    ensures var key := GroupKey(samples[i]);
      && KeyOrder(samples[..i + 1]) ==
           (if key in KeyOrder(samples[..i]) then KeyOrder(samples[..i]) else KeyOrder(samples[..i]) + [key])
      && InGroup(samples[..i + 1], k) == InGroup(samples[..i], k) + (if key == k then [samples[i]] else [])
  {
    assert samples[..i + 1][..i] == samples[..i] && samples[..i + 1][i] == samples[i];
  }

  /** `keys` and `groups` describe the grouping of `prefix`. */
  ghost predicate Grouped(keys: seq<string>, groups: map<string, seq<Sample>>, prefix: seq<Sample>) {
    && keys == KeyOrder(prefix)
    && (forall k :: k in groups <==> k in keys)
    && (forall k :: k in groups ==> groups[k] == InGroup(prefix, k))
  }

  /** One turn of the grouping loop: a new key opens a group at the end of the key
      list, and the sample joins the group of its key. */
  lemma GroupedStep(keys: seq<string>, groups: map<string, seq<Sample>>, samples: seq<Sample>, i: nat,
                    keys': seq<string>, groups': map<string, seq<Sample>>)
    requires i < |samples| && Grouped(keys, groups, samples[..i])
    requires var key := GroupKey(samples[i]);
      && keys' == (if key in groups then keys else keys + [key])
      && groups' == (if key in groups then groups[key := groups[key] + [samples[i]]]
                     else groups[key := [samples[i]]])
    ensures Grouped(keys', groups', samples[..i + 1])
  {
    var key := GroupKey(samples[i]);
    GroupStep(samples, i, key);
    assert keys' == KeyOrder(samples[..i + 1]);
    forall k | k in groups' ensures groups'[k] == InGroup(samples[..i + 1], k) {
      GroupAfterStep(groups, samples, i, groups', k);
    }
  }

  lemma GroupAfterStep(groups: map<string, seq<Sample>>, samples: seq<Sample>, i: nat,
                       groups': map<string, seq<Sample>>, k: string)
    requires i < |samples|
    requires forall k :: k in groups ==> groups[k] == InGroup(samples[..i], k)
    requires forall k :: k !in groups ==> k !in KeyOrder(samples[..i])
    requires var key := GroupKey(samples[i]);
      groups' == (if key in groups then groups[key := groups[key] + [samples[i]]]
                  else groups[key := [samples[i]]])
    requires k in groups'
    ensures groups'[k] == InGroup(samples[..i + 1], k)
  {
    GroupStep(samples, i, k);
    var key := GroupKey(samples[i]);
    if k == key && key !in groups {
      assert InGroup(samples[..i], k) == [] by {
        if InGroup(samples[..i], k) != [] {
          var s := InGroup(samples[..i], k)[0];
          InGroupMembers(samples[..i], k, s);
          var j :| 0 <= j < i && samples[..i][j] == s;
          KeyOrderSpec(samples[..i]);
          assert false;
        }
      }
    }
  }

  /** Opening a group empty and then pushing one sample gives the one-sample group. */
  lemma OpenThenPush(groups: map<string, seq<Sample>>, key: string, d: Sample)
    ensures groups[key := []][key := [] + [d]] == groups[key := [d]]
  {
    assert [] + [d] == [d];
  }

  /** The loop that fills `groups`, with a map from key to samples standing for the
      object, and `keys` for the order `Object.keys` lists them in. */
  method GroupSamples(samples: seq<Sample>) returns (keys: seq<string>, groups: map<string, seq<Sample>>)
    ensures keys == KeyOrder(samples)
    ensures forall k :: k in groups <==> k in keys
    ensures forall k :: k in groups ==> groups[k] == InGroup(samples, k)
  {
    keys, groups := [], map[];
    for i := 0 to |samples|
      invariant Grouped(keys, groups, samples[..i])
    {
      var d := samples[i];
      var key := GroupKey(d);
      ghost var keys0, groups0 := keys, groups;
      if key !in groups {
        groups := groups[key := []];
        keys := keys + [key];
      }
      groups := groups[key := groups[key] + [d]];
      if key !in groups0 {
        OpenThenPush(groups0, key, d);
      }
      GroupedStep(keys0, groups0, samples, i, keys, groups);
    }
    assert samples[..|samples|] == samples;
  }

  /** The names a plain object inherits from `Object.prototype`. */
  const PrototypeNames: set<string> := {
    "constructor", "hasOwnProperty", "isPrototypeOf", "propertyIsEnumerable",
    "toLocaleString", "toString", "valueOf", "__proto__",
    "__defineGetter__", "__defineSetter__", "__lookupGetter__", "__lookupSetter__" }

  /** Some sample's key names an inherited member. */
  predicate HitsPrototype(samples: seq<Sample>) {
    exists i :: 0 <= i < |samples| && GroupKey(samples[i]) in PrototypeNames
  }

  lemma HitsPrototypeStep(samples: seq<Sample>, i: nat)
    requires i < |samples|
    ensures HitsPrototype(samples[..i + 1]) <==>
      HitsPrototype(samples[..i]) || GroupKey(samples[i]) in PrototypeNames
  {
    var p, q := samples[..i + 1], samples[..i];
    assert forall j :: 0 <= j < i ==> p[j] == q[j];
    assert p[i] == samples[i];
    if HitsPrototype(p) {
      var j :| 0 <= j < |p| && GroupKey(p[j]) in PrototypeNames;
      if j < i {
        assert GroupKey(q[j]) in PrototypeNames;
      }
    }
  }

  /** The loop as written, on `const groups = {}`: `!groups[key]` reads an inherited
      member (a function, so truthy) and skips the initialisation, and then
      `groups[key].push` is not a function and throws. */
  method GroupSamplesAsWritten(samples: seq<Sample>)
    returns (threw: bool, keys: seq<string>, groups: map<string, seq<Sample>>)
    ensures threw <==> HitsPrototype(samples)
    ensures !threw ==>
      && keys == KeyOrder(samples)
      && (forall k :: k in groups <==> k in keys)
      && (forall k :: k in groups ==> groups[k] == InGroup(samples, k))
  {
    keys, groups := [], map[];
    for i := 0 to |samples|
      invariant !HitsPrototype(samples[..i])
      invariant Grouped(keys, groups, samples[..i])
      invariant forall k :: k in groups ==> k !in PrototypeNames
    {
      var d := samples[i];
      var key := GroupKey(d);
      HitsPrototypeStep(samples, i);
      ghost var keys0, groups0 := keys, groups;
      var present := key in groups || key in PrototypeNames;
      if !present {
        groups := groups[key := []];
        keys := keys + [key];
      }
      if key !in groups {
        assert GroupKey(samples[i]) in PrototypeNames;
        return true, keys, groups;
      }
      groups := groups[key := groups[key] + [d]];
      if key !in groups0 {
        OpenThenPush(groups0, key, d);
      }
      GroupedStep(keys0, groups0, samples, i, keys, groups);
    }
    assert samples[..|samples|] == samples;
    threw := false;
  }

  /** A sample whose component is called "constructor" makes the loop as written throw,
      while the grouping it intends puts that sample in a group of its own. */
  lemma PrototypeKeyThrows()
    ensures var s := Sample(JStr("constructor"), JStr("lens"), 100, 0.5);
      && HitsPrototype([s])
      && KeyOrder([s]) == ["constructor"]
      && InGroup([s], "constructor") == [s]
  {
    var s := Sample(JStr("constructor"), JStr("lens"), 100, 0.5);
    assert GroupKey(s) == "constructor";
    assert GroupKey([s][0]) in PrototypeNames;
    assert [s][..0] == [];
    assert KeyOrder([s]) == KeyOrder([]) + ["constructor"];
    assert InGroup([s], "constructor") == InGroup([], "constructor") + [s];
  }

  // ---------------------------------------------------------------------------
  // Datasets

  /** `g.find(x => x.frequencyHz === f)?.amplitude`, or 0 when none is found. */
  function FirstAmplitude(g: seq<Sample>, f: int): (a: real)
    ensures (forall i :: 0 <= i < |g| ==> g[i].frequencyHz != f) ==> a == 0.0
    ensures (exists i :: 0 <= i < |g| && g[i].frequencyHz == f) ==>
      exists i :: 0 <= i < |g| && g[i].frequencyHz == f && a == g[i].amplitude &&
        forall j :: 0 <= j < i ==> g[j].frequencyHz != f
  {
    if g == [] then 0.0
    else if g[0].frequencyHz == f then g[0].amplitude
    else
      var a := FirstAmplitude(g[1..], f);
      assert forall i :: 0 < i < |g| ==> g[1..][i - 1] == g[i];
      a
  }

  datatype Dataset = Dataset(legend: string, data: seq<real>)

  datatype ChartData = ChartData(labels: seq<int>, datasets: seq<Dataset>)

  function DatasetFor(labels: seq<int>, key: string, g: seq<Sample>): Dataset {
    Dataset(key, seq(|labels|, i requires 0 <= i < |labels| => FirstAmplitude(g, labels[i])))
  }

  /** The chart `buildChart` installs: one dataset per group, in key order. */
  function ChartOf(samples: seq<Sample>): (c: ChartData)
    ensures c.labels == Labels(samples)
    ensures |c.datasets| == |KeyOrder(samples)|
  {
    var labels := Labels(samples);
    var keys := KeyOrder(samples);
    ChartData(labels, seq(|keys|, i requires 0 <= i < |keys| =>
      DatasetFor(labels, keys[i], InGroup(samples, keys[i]))))
  }

  method BuildChart(samples: seq<Sample>) returns (chart: ChartData)
    ensures chart == ChartOf(samples)
  {
    var labels := Labels(samples);
    var keys, groups := GroupSamples(samples);
    var datasets := seq(|keys|, i requires 0 <= i < |keys| => DatasetFor(labels, keys[i], groups[keys[i]]));
    chart := ChartData(labels, datasets);
  }

  /** Dataset i belongs to the i-th distinct key; its entry for label j is the
      amplitude of that group's first sample at that frequency, else 0. */
  lemma ChartEntries(samples: seq<Sample>, i: nat, j: nat)
    requires i < |KeyOrder(samples)| && j < |Labels(samples)|
    ensures var c := ChartOf(samples);
      && c.datasets[i].legend == KeyOrder(samples)[i]
      && |c.datasets[i].data| == |c.labels|
      && c.datasets[i].data[j] == FirstAmplitude(InGroup(samples, KeyOrder(samples)[i]), c.labels[j])
  {
  }

  // ---------------------------------------------------------------------------
  // The run

  /** A frequency or angle input: its initial number, or the text typed into it. */
  datatype Input = Num(n: real) | Text(s: string)

  /** What `Number(v)` makes of a text, None for NaN; it is passed in. */
  type NumberParser = string -> Option<real>

  /** `Number(v || 0)` as sent: NaN is written as null by JSON.stringify. */
  function NumberInput(v: Input, toNumber: NumberParser): Json {
    match v
    case Num(n) => JNum(n)
    case Text(s) =>
      if s == "" then JNum(0.0)
      else match toNumber(s) case Some(n) => JNum(n) case None => JNull
  }

  function RequestBody(items: seq<Json>, angle: Input, start: Input, stop: Input, points: Input,
                       toNumber: NumberParser): (body: Json)
    ensures ComponentsOf(body) == JArr(items)
  {
    var sweep := JObj([Prop("start", NumberInput(start, toNumber)),
                       Prop("stop", NumberInput(stop, toNumber)),
                       Prop("points", NumberInput(points, toNumber))]);
    var options := JObj([Prop("angleOfIncidence", NumberInput(angle, toNumber)),
                         Prop("freqSweep", sweep)]);
    JObj([Prop("components", JArr(items)), Prop("options", options)])
  }

  /** How the request ended: a non-ok status, an exception from fetch or from reading
      the body, or the parsed answer with its `frequencyAnalysis` read as samples
      (None when that member is absent). */
  datatype Outcome =
    | Rejected(status: nat)
    | Thrown(message: string)
    | Answered(data: Json, analysis: Option<seq<Sample>>)

  class Panel {
    var loading: bool
    var error: Option<string>
    var chart: ChartData
    var angle: Input
    var freqStart: Input
    var freqStop: Input
    var freqPoints: Input

    constructor()
      ensures !loading && error == None && chart == ChartData([], [])
      ensures angle == Num(0.0) && freqStart == Num(100.0) && freqStop == Num(10000.0) && freqPoints == Num(5.0)
    {
      loading := false;
      error := None;
      chart := ChartData([], []);
      angle := Num(0.0);
      freqStart := Num(100.0);
      freqStop := Num(10000.0);
      freqPoints := Num(5.0);
    }

    method SetAngle(s: string)
      modifies this`angle
      ensures angle == Text(s)
    {
      angle := Text(s);
    }

    method SetFreqStart(s: string)
      modifies this`freqStart
      ensures freqStart == Text(s)
    {
      freqStart := Text(s);
    }

    method SetFreqStop(s: string)
      modifies this`freqStop
      ensures freqStop == Text(s)
    {
      freqStop := Text(s);
    }

    method SetFreqPoints(s: string)
      modifies this`freqPoints
      ensures freqPoints == Text(s)
    {
      freqPoints := Text(s);
    }

    /** A click on the run button: disabled while a run is in flight; otherwise the
        run starts, the error is cleared and the request body is built. */
    method Click(items: seq<Json>, toNumber: NumberParser) returns (body: Option<Json>)
      modifies this`loading, this`error
      ensures old(loading) ==> body == None && loading && error == old(error)
      ensures !old(loading) ==>
        && loading && error == None
        && body == Some(RequestBody(items, angle, freqStart, freqStop, freqPoints, toNumber))
    {
      if loading {
        return None;
      }
      loading := true;
      error := None;
      body := Some(RequestBody(items, angle, freqStart, freqStop, freqPoints, toNumber));
    }

    /** The end of the run: an error message on failure, the result and a rebuilt
        chart on success, and `loading` false in every case. */
    method Finish(outcome: Outcome, layout: Layout)
      modifies this`loading, this`error, this`chart, layout`simulationResult
      ensures !loading
      ensures outcome.Rejected? ==>
        && error == Some("Server returned " + NatText(outcome.status))
        && chart == old(chart) && layout.simulationResult == old(layout.simulationResult)
      ensures outcome.Thrown? ==>
        && error == Some(outcome.message)
        && chart == old(chart) && layout.simulationResult == old(layout.simulationResult)
      ensures outcome.Answered? ==>
        && error == old(error)
        && layout.simulationResult == outcome.data
        && chart == ChartOf(if outcome.analysis.Some? then outcome.analysis.value else [])
    {
      match outcome {
        case Rejected(status) =>
          error := Some("Server returned " + NatText(status));
        case Thrown(message) =>
          error := Some(message);
        case Answered(data, analysis) =>
          layout.SetSimulationResult(data);
          var samples := if analysis.Some? then analysis.value else [];
          chart := BuildChart(samples);
      }
      loading := false;
    }
  }

  // ---------------------------------------------------------------------------
  // The panel and the server together

  /** The body the panel sends always carries an array of components, so the server
      never answers it with 400. */
  lemma BodyNeverRejected(items: seq<Json>, angle: Input, start: Input, stop: Input, points: Input,
                          toNumber: NumberParser, format: Option<string>, accept: Option<string>,
                          raw: RawAmplitude)
    requires var body := RequestBody(items, angle, start, stop, points, toNumber);
      RequestModelled(Request(body, format, accept))
    ensures var body := RequestBody(items, angle, start, stop, points, toNumber);
      !Simulation(Request(body, format, accept), raw).BadRequest?
  {
  }

  /** The server finds the angle and the three sweep inputs where the panel put them. */
  lemma RequestBodyFields(items: seq<Json>, angle: Input, start: Input, stop: Input, points: Input,
                          toNumber: NumberParser)
    ensures var options := OptionsOf(RequestBody(items, angle, start, stop, points, toNumber));
      && Get(options, "angleOfIncidence") == Some(NumberInput(angle, toNumber))
      && Get(options, "freqSweep").Some?
      && var sweep := Get(options, "freqSweep").value;
      && Get(sweep, "start") == Some(NumberInput(start, toNumber))
      && Get(sweep, "stop") == Some(NumberInput(stop, toNumber))
      && Get(sweep, "points") == Some(NumberInput(points, toNumber))
  {
    var body := RequestBody(items, angle, start, stop, points, toNumber);
    var sweep := JObj([Prop("start", NumberInput(start, toNumber)),
                       Prop("stop", NumberInput(stop, toNumber)),
                       Prop("points", NumberInput(points, toNumber))]);
    var options := JObj([Prop("angleOfIncidence", NumberInput(angle, toNumber)),
                         Prop("freqSweep", sweep)]);
    assert body.props[1..] == [Prop("options", options)];
    assert Lookup(body.props, "options") == Lookup(body.props[1..], "options");
    assert OptionsOf(body) == options;
    assert UniqueKeys(sweep.props) && UniqueKeys(options.props);
    LookupAt(options.props, 0);
    LookupAt(options.props, 1);
    LookupAt(sweep.props, 0);
    LookupAt(sweep.props, 1);
    LookupAt(sweep.props, 2);
  }

  /** With the inputs as they start, the server sweeps 100, 2575, 5050, 7525 and
      10000 Hz. */
  lemma InitialInputsSweep(items: seq<Json>, toNumber: NumberParser)
    ensures var body := RequestBody(items, Num(0.0), Num(100.0), Num(10000.0), Num(5.0), toNumber);
      Frequencies(OptionsOf(body)) == [100, 2575, 5050, 7525, 10000]
  {
    RequestBodyFields(items, Num(0.0), Num(100.0), Num(10000.0), Num(5.0), toNumber);
    var options := OptionsOf(RequestBody(items, Num(0.0), Num(100.0), Num(10000.0), Num(5.0), toNumber));
    SweepOfNumbers(options, 100.0, 10000.0, 5.0);
    FiveStepPoints();
  }
}
