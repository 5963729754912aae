/** The statistics parser (teamcity_exporter.go:242-275): each statistics
    property of a build whose value parses as a number becomes a gauge sample
    written into the metric store.

    Two helpers of the exporter that are not part of this model are taken as
    parameters: `snake` converts a name to snake_case (toSnakeCase) and `parse`
    is the 64-bit float parse (strconv.ParseFloat), giving None where the
    source gets an error; numbers are modelled as reals. */
module StatParser {
  import opened Types
  import opened MetricStore

  /** The prefix of every metric title. */
  const Namespace := "teamcity"

  const InstanceLabel := "exporter_instance"
  const FilterLabel := "exporter_filter"
  const BuildConfigurationLabel := "build_configuration"
  const BranchLabel := "branch"
  const OtherLabel := "other"

  /** Position of the first ':' in `s`, or |s| when there is none. */
  function FirstColon(s: string): (k: nat)
    ensures k <= |s|
    ensures forall j :: 0 <= j < k ==> s[j] != ':'
    ensures k < |s| ==> s[k] == ':'
    decreases |s|
  {
    if s == [] || s[0] == ':' then 0 else 1 + FirstColon(s[1..])
  }

  /** strings.SplitN(s, ":", 2): the text before the first colon and the
      text after it, or `s` alone when it has no colon. */
  function SplitFirstColon(s: string): (parts: seq<string>)
    ensures |parts| == 1 || |parts| == 2
    ensures |parts| == 1 <==> ':' !in s
    ensures |parts| == 1 ==> parts[0] == s
    ensures |parts| == 2 ==> ':' !in parts[0] && parts[0] + ":" + parts[1] == s
  {
    var k := FirstColon(s);
    if k == |s| then [s]
    else
      assert s[..k] + ":" + s[k + 1..] == s;
      [s[..k], s[k + 1..]]
  }

  /** Splitting is the inverse of joining at a colon-free prefix; the rest
      may hold further colons. */
  lemma {:induction false} SplitJoin(prefix: string, rest: string)
    requires ':' !in prefix
    ensures SplitFirstColon(prefix + ":" + rest) == [prefix, rest]
  {
    var s := prefix + ":" + rest;
    var k := FirstColon(s);
    assert s[|prefix|] == ':';
    assert forall j :: 0 <= j < |prefix| ==> s[j] == prefix[j];
    assert k == |prefix|;
    assert s[..k] == prefix;
    assert s[k + 1..] == rest;
  }

  /** The metric title of a property name: the namespace, then the
      snake_case form of the text before the first colon. */
  function MetricTitle(name: string, snake: string -> string): string
  {
    Namespace + "_" + snake(SplitFirstColon(name)[0])
  }

  /** The four labels every sample of a build carries, in their fixed order. */
  function BuildLabels(b: Build): seq<Label>
  {
    [Label(InstanceLabel, b.filter.instance),
     Label(FilterLabel, b.filter.name),
     Label(BuildConfigurationLabel, b.details.buildTypeId),
     Label(BranchLabel, b.details.branchName)]
  }

  /** The labels of a property's sample: the build's four, then `other`
      with the text after the first colon when the name has one. */
  function MetricLabels(b: Build, name: string): seq<Label>
  {
    var parts := SplitFirstColon(name);
    if |parts| > 1 then BuildLabels(b) + [Label(OtherLabel, parts[1])] else BuildLabels(b)
  }

  function LabelNames(labels: seq<Label>): seq<string>
  {
    seq(|labels|, i requires 0 <= i < |labels| => labels[i].name)
  }

  function LabelValues(labels: seq<Label>): seq<string>
  {
    seq(|labels|, i requires 0 <= i < |labels| => labels[i].value)
  }

  /** The sample a property of build `b` yields, or None when its value does
      not parse. */
  function PropertySample(b: Build, p: Property, snake: string -> string, parse: string -> Option<real>): Option<Sample>
  {
    match parse(p.value)
    case None => None
    case Some(v) =>
      var labels := MetricLabels(b, p.name);
      Some(Sample(MetricTitle(p.name, snake), LabelNames(labels), LabelValues(labels), v))
  }

  /** The per-property sample function of build `b`. */
  function Sampler(b: Build, snake: string -> string, parse: string -> Option<real>): Property -> Option<Sample>
  {
    p => PropertySample(b, p, snake, parse)
  }

  /** The store after the samples `sampleOf` gives for `props` are written
      in order; a property without a sample writes nothing. */
  function Record(m: map<MetricKey, Sample>, props: seq<Property>, sampleOf: Property -> Option<Sample>): map<MetricKey, Sample>
    decreases |props|
  {
    if props == [] then m
    else
      var before := Record(m, props[..|props| - 1], sampleOf);
      match sampleOf(props[|props| - 1])
      case None => before
      case Some(s) => before[KeyOf(s) := s]
  }

  /** The store after the statistics of several builds are recorded in order. */
  function RecordStatistics(m: map<MetricKey, Sample>, stats: seq<BuildStatistics>,
                            snake: string -> string, parse: string -> Option<real>): map<MetricKey, Sample>
    decreases |stats|
  {
    if stats == [] then m
    else
      var last := stats[|stats| - 1];
      Record(RecordStatistics(m, stats[..|stats| - 1], snake, parse), last.properties, Sampler(last.build, snake, parse))
  }

  /** Whether `p` writes the store entry `k`. */
  predicate Writes(sampleOf: Property -> Option<Sample>, p: Property, k: MetricKey)
  {
    sampleOf(p).Some? && KeyOf(sampleOf(p).value) == k
  }

  /** Split a label list into its parallel name and value columns
      (teamcity_exporter.go:265-269). */
  method LabelColumns(labels: seq<Label>) returns (names: seq<string>, values: seq<string>)
    ensures |names| == |labels| && |values| == |labels|
    ensures forall i :: 0 <= i < |labels| ==> labels[i] == Label(names[i], values[i])
  {
    names, values := [], [];
    for v := 0 to |labels|
      invariant |names| == v && |values| == v
      invariant forall i :: 0 <= i < v ==> labels[i] == Label(names[i], values[i])
    {
      names := names + [labels[v].name];
      values := values + [labels[v].value];
    }
  }

  /** Record every parseable statistics property of every build into the
      store, in order; a property whose value does not parse is skipped and
      its siblings are still recorded. */
  method ParseStat(store: Store, stats: seq<BuildStatistics>, snake: string -> string, parse: string -> Option<real>)
    modifies store
    ensures store.entries == RecordStatistics(old(store.entries), stats, snake, parse)
  {
    for i := 0 to |stats|
      invariant store.entries == RecordStatistics(old(store.entries), stats[..i], snake, parse)
    {
      assert stats[..i + 1][..i] == stats[..i];
      ghost var start := store.entries;
      var props := stats[i].properties;
      var build := stats[i].build;
      for k := 0 to |props|
        invariant store.entries == Record(start, props[..k], Sampler(build, snake, parse))
      {
        assert props[..k + 1][..k] == props[..k];
        var p := props[k];
        var value := parse(p.value);
        if value.None? {
          // logged; only this property is skipped
          continue;
        }
        var metric := SplitFirstColon(p.name);
        var title := Namespace + "_" + snake(metric[0]);
        var labels := [
          Label(InstanceLabel, build.filter.instance),
          Label(FilterLabel, build.filter.name),
          Label(BuildConfigurationLabel, build.details.buildTypeId),
          Label(BranchLabel, build.details.branchName)];
        if |metric| > 1 {
          labels := labels + [Label(OtherLabel, metric[1])];
        }
        var names, values := LabelColumns(labels);
        assert names == LabelNames(labels) && values == LabelValues(labels);
        store.Set(MetricKey(title, values), Sample(title, names, values, value.value));
      }
      assert props[..|props|] == props;
    }
    assert stats[..|stats|] == stats;
  }

  // ---------------------------------------------------------------------
  // Properties of the derivation

  /** A property name without a colon: the title is the namespace and the
      snake_case name, and the labels are the build's four, in fixed order. */
  lemma PlainName(b: Build, name: string, snake: string -> string)
    requires ':' !in name
    ensures MetricTitle(name, snake) == "teamcity_" + snake(name)
    ensures MetricLabels(b, name) == [
      Label("exporter_instance", b.filter.instance),
      Label("exporter_filter", b.filter.name),
      Label("build_configuration", b.details.buildTypeId),
      Label("branch", b.details.branchName)]
  {
  }

  /** A property name with a colon: the title comes from the text before the
      first colon, and a fifth label `other` holds everything after it. */
  lemma ColonName(b: Build, prefix: string, rest: string, snake: string -> string)
    requires ':' !in prefix
    ensures MetricTitle(prefix + ":" + rest, snake) == "teamcity_" + snake(prefix)
    ensures MetricLabels(b, prefix + ":" + rest) == BuildLabels(b) + [Label("other", rest)]
  {
    SplitJoin(prefix, rest);
  }

  /** A property yields a sample exactly when its value parses; the sample
      carries the parsed value, parallel label names and values (four, or
      five when the name has a colon) that pair up index by index, the fixed
      label names first, and the instance, filter, build type and branch as
      the first four values. */
  lemma SampleShape(b: Build, p: Property, snake: string -> string, parse: string -> Option<real>)
    ensures PropertySample(b, p, snake, parse).Some? <==> parse(p.value).Some?
    ensures PropertySample(b, p, snake, parse).Some? ==>
      var s := PropertySample(b, p, snake, parse).value;
      && s.value == parse(p.value).value
      && |s.labelNames| == |s.labelValues|
      && (|s.labelValues| == 4 || |s.labelValues| == 5)
      && (|s.labelValues| == 5 <==> ':' in p.name)
      && s.labelNames[..4] == ["exporter_instance", "exporter_filter", "build_configuration", "branch"]
      && s.labelValues[..4] == [b.filter.instance, b.filter.name, b.details.buildTypeId, b.details.branchName]
      && (|s.labelNames| == 5 ==> s.labelNames[4] == "other")
      && forall i :: 0 <= i < |s.labelValues| ==> Label(s.labelNames[i], s.labelValues[i]) == MetricLabels(b, p.name)[i]
  {
  }

  /** Recording a list is recording its first part, then the rest. */
  lemma {:induction false} RecordAppend(m: map<MetricKey, Sample>, xs: seq<Property>, ys: seq<Property>,
                                        sampleOf: Property -> Option<Sample>)
    ensures Record(m, xs + ys, sampleOf) == Record(Record(m, xs, sampleOf), ys, sampleOf)
    decreases |ys|
  {
    if ys == [] {
      assert xs + ys == xs;
    } else {
      var init := ys[..|ys| - 1];
      assert (xs + ys)[..|xs + ys| - 1] == xs + init;
      assert (xs + ys)[|xs + ys| - 1] == ys[|ys| - 1];
      RecordAppend(m, xs, init, sampleOf);
    }
  }

  /** A property whose value does not parse writes nothing, and the
      properties around it are recorded as if it were absent. */
  lemma UnparsableSkipped(m: map<MetricKey, Sample>, b: Build, before: seq<Property>, p: Property, after: seq<Property>,
                          snake: string -> string, parse: string -> Option<real>)
    requires parse(p.value).None?
    ensures Record(m, before + [p] + after, Sampler(b, snake, parse)) ==
            Record(m, before + after, Sampler(b, snake, parse))
  {
    var sampleOf := Sampler(b, snake, parse);
    RecordAppend(m, before + [p], after, sampleOf);
    RecordAppend(m, before, [p], sampleOf);
    RecordAppend(m, before, after, sampleOf);
    assert [p][..0] == [];
  }

  /** After recording, the store holds exactly the entries it held before and
      those some property writes; an old entry that no property writes keeps
      its old sample. */
  lemma RecordedKeys(m: map<MetricKey, Sample>, props: seq<Property>, sampleOf: Property -> Option<Sample>)
    ensures forall k :: k in Record(m, props, sampleOf) <==>
      k in m || exists i :: 0 <= i < |props| && Writes(sampleOf, props[i], k)
    ensures forall k :: k in m && (forall i :: 0 <= i < |props| ==> !Writes(sampleOf, props[i], k)) ==>
      Record(m, props, sampleOf)[k] == m[k]
  {
    forall k ensures k in Record(m, props, sampleOf) <==>
      k in m || exists i :: 0 <= i < |props| && Writes(sampleOf, props[i], k)
    {
      RecordedKey(m, props, k, sampleOf);
    }
    forall k | k in m && (forall i :: 0 <= i < |props| ==> !Writes(sampleOf, props[i], k))
      ensures Record(m, props, sampleOf)[k] == m[k]
    {
      RecordedKey(m, props, k, sampleOf);
    }
  }

  /** RecordedKeys for one entry. */
  lemma {:induction false} RecordedKey(m: map<MetricKey, Sample>, props: seq<Property>, k: MetricKey,
                                       sampleOf: Property -> Option<Sample>)
    ensures k in Record(m, props, sampleOf) <==>
      k in m || exists i :: 0 <= i < |props| && Writes(sampleOf, props[i], k)
    ensures k in m && (forall i :: 0 <= i < |props| ==> !Writes(sampleOf, props[i], k)) ==>
      Record(m, props, sampleOf)[k] == m[k]
    decreases |props|
  {
    if props != [] {
      var init := props[..|props| - 1];
      RecordedKey(m, init, k, sampleOf);
      if forall i :: 0 <= i < |props| ==> !Writes(sampleOf, props[i], k) {
        assert forall i :: 0 <= i < |init| ==> init[i] == props[i];
      }
      if exists i :: 0 <= i < |props| && Writes(sampleOf, props[i], k) {
        var i :| 0 <= i < |props| && Writes(sampleOf, props[i], k);
        if i < |init| {
          assert init[i] == props[i];
        }
      }
      if exists i :: 0 <= i < |init| && Writes(sampleOf, init[i], k) {
        var i :| 0 <= i < |init| && Writes(sampleOf, init[i], k);
        assert props[i] == init[i];
      }
    }
  }

  /** Last write wins: an entry holds the sample of the last property that
      writes it. */
  lemma {:induction false} LastWriteWins(m: map<MetricKey, Sample>, props: seq<Property>, i: nat, k: MetricKey,
                                         sampleOf: Property -> Option<Sample>)
    requires i < |props| && Writes(sampleOf, props[i], k)
    requires forall j :: i < j < |props| ==> !Writes(sampleOf, props[j], k)
    ensures k in Record(m, props, sampleOf)
    ensures Record(m, props, sampleOf)[k] == sampleOf(props[i]).value
    decreases |props|
  {
    var init := props[..|props| - 1];
    if i < |props| - 1 {
      assert init[i] == props[i];
      LastWriteWins(m, init, i, k, sampleOf);
      assert !Writes(sampleOf, props[|props| - 1], k);
    }
  }

  /** Whether some property of one build's statistics writes the store entry `k`. */
  predicate BuildWrites(st: BuildStatistics, k: MetricKey, snake: string -> string, parse: string -> Option<real>)
  {
    exists j :: 0 <= j < |st.properties| && Writes(Sampler(st.build, snake, parse), st.properties[j], k)
  }

  /** Over the statistics of several builds: the store holds exactly its old
      entries and those some property of some build writes, and an old entry
      no property writes keeps its old sample (it simply goes stale). */
  lemma {:induction false} StatisticsKeys(m: map<MetricKey, Sample>, stats: seq<BuildStatistics>, k: MetricKey,
                                          snake: string -> string, parse: string -> Option<real>)
    ensures k in RecordStatistics(m, stats, snake, parse) <==>
      k in m || exists i :: 0 <= i < |stats| && BuildWrites(stats[i], k, snake, parse)
    ensures k in m && (forall i :: 0 <= i < |stats| ==> !BuildWrites(stats[i], k, snake, parse)) ==>
      RecordStatistics(m, stats, snake, parse)[k] == m[k]
    decreases |stats|
  {
    if stats != [] {
      var init := stats[..|stats| - 1];
      var last := stats[|stats| - 1];
      var sampleOf := Sampler(last.build, snake, parse);
      var before := RecordStatistics(m, init, snake, parse);
      assert RecordStatistics(m, stats, snake, parse) == Record(before, last.properties, sampleOf);
      StatisticsKeys(m, init, k, snake, parse);
      RecordedKey(before, last.properties, k, sampleOf);
      assert BuildWrites(last, k, snake, parse) <==>
        exists j :: 0 <= j < |last.properties| && Writes(sampleOf, last.properties[j], k);
      assert forall i :: 0 <= i < |init| ==> init[i] == stats[i];
      assert (exists i :: 0 <= i < |stats| && BuildWrites(stats[i], k, snake, parse)) <==>
        (exists i :: 0 <= i < |init| && BuildWrites(init[i], k, snake, parse)) || BuildWrites(last, k, snake, parse);
    }
  }

  /** Last write wins across builds: when property `j` of build `i` writes
      `k` and nothing after it does, neither later in that build nor in a
      later build, the entry holds that property's sample. */
  lemma {:induction false} StatisticsLastWriteWins(m: map<MetricKey, Sample>, stats: seq<BuildStatistics>, i: nat, j: nat,
                                                   k: MetricKey, snake: string -> string, parse: string -> Option<real>)
    requires i < |stats| && j < |stats[i].properties|
    requires Writes(Sampler(stats[i].build, snake, parse), stats[i].properties[j], k)
    requires forall j' :: j < j' < |stats[i].properties| ==>
      !Writes(Sampler(stats[i].build, snake, parse), stats[i].properties[j'], k)
    requires forall i' :: i < i' < |stats| ==> !BuildWrites(stats[i'], k, snake, parse)
    ensures k in RecordStatistics(m, stats, snake, parse)
    ensures RecordStatistics(m, stats, snake, parse)[k] == PropertySample(stats[i].build, stats[i].properties[j], snake, parse).value
    decreases |stats|
  {
    var init := stats[..|stats| - 1];
    var last := stats[|stats| - 1];
    var before := RecordStatistics(m, init, snake, parse);
    if i < |stats| - 1 {
      assert init[i] == stats[i];
      assert forall i' :: i < i' < |init| ==> init[i'] == stats[i'];
      StatisticsLastWriteWins(m, init, i, j, k, snake, parse);
      assert !BuildWrites(last, k, snake, parse);
      RecordedKey(before, last.properties, k, Sampler(last.build, snake, parse));
    } else {
      LastWriteWins(before, last.properties, j, k, Sampler(last.build, snake, parse));
    }
  }

  /** Recording the same parseable property for two builds writes the
      first build's sample, then the second's. */
  lemma RecordTwoBuilds(m: map<MetricKey, Sample>, b1: Build, b2: Build, p: Property,
                        snake: string -> string, parse: string -> Option<real>)
    requires parse(p.value).Some?
    ensures var s1 := PropertySample(b1, p, snake, parse).value;
      var s2 := PropertySample(b2, p, snake, parse).value;
      RecordStatistics(m, [BuildStatistics(b1, [p]), BuildStatistics(b2, [p])], snake, parse) ==
        m[KeyOf(s1) := s1][KeyOf(s2) := s2]
  {
    var s1 := PropertySample(b1, p, snake, parse).value;
    var s2 := PropertySample(b2, p, snake, parse).value;
    var stats := [BuildStatistics(b1, [p]), BuildStatistics(b2, [p])];
    var one := [BuildStatistics(b1, [p])];
    assert stats[..1] == one && stats[1] == BuildStatistics(b2, [p]);
    assert one[..0] == [] && [p][..0] == [];
    RecordOne(m, b1, p, snake, parse);
    RecordOne(m[KeyOf(s1) := s1], b2, p, snake, parse);
    assert RecordStatistics(m, one, snake, parse) == Record(m, [p], Sampler(b1, snake, parse));
  }

  /** Recording one parseable property writes its sample. */
  lemma RecordOne(m: map<MetricKey, Sample>, b: Build, p: Property, snake: string -> string, parse: string -> Option<real>)
    requires parse(p.value).Some?
    ensures var s := PropertySample(b, p, snake, parse).value;
      Record(m, [p], Sampler(b, snake, parse)) == m[KeyOf(s) := s]
  {
  }

  /** Two filters that differ only in name give separate store entries for
      the same property of the same build. */
  lemma FilterNameSeparates(m: map<MetricKey, Sample>, b: Build, otherName: string, p: Property,
                            snake: string -> string, parse: string -> Option<real>)
    requires otherName != b.filter.name && parse(p.value).Some?
    ensures var b2 := b.(filter := b.filter.(name := otherName));
      var s1 := PropertySample(b, p, snake, parse).value;
      var s2 := PropertySample(b2, p, snake, parse).value;
      var r := RecordStatistics(m, [BuildStatistics(b, [p]), BuildStatistics(b2, [p])], snake, parse);
      && KeyOf(s1) != KeyOf(s2)
      && KeyOf(s1) in r && r[KeyOf(s1)] == s1
      && KeyOf(s2) in r && r[KeyOf(s2)] == s2
  {
    var b2 := b.(filter := b.filter.(name := otherName));
    var s1 := PropertySample(b, p, snake, parse).value;
    var s2 := PropertySample(b2, p, snake, parse).value;
    assert s1.labelValues[1] == b.filter.name;
    assert s2.labelValues[1] == otherName;
    RecordTwoBuilds(m, b, b2, p, snake, parse);
  }

  /** Two builds of one filter and build type on different branches, each
      with the same parseable property whose name has a colon: two store
      entries, titled after the text before the colon, with `other` holding
      the text after it, valued alike, differing only in the branch label. */
  lemma TwoBranchesTwoSamples(m: map<MetricKey, Sample>, f: BuildFilter, bt: string, d1: BuildDetails, d2: BuildDetails,
                              prefix: string, rest: string, value: string,
                              snake: string -> string, parse: string -> Option<real>)
    requires ':' !in prefix && parse(value).Some?
    requires d1.buildTypeId == bt && d2.buildTypeId == bt && d1.branchName != d2.branchName
    ensures var p := Property(prefix + ":" + rest, value);
      var r := RecordStatistics(m, [BuildStatistics(Build(d1, f), [p]), BuildStatistics(Build(d2, f), [p])], snake, parse);
      var title := "teamcity_" + snake(prefix);
      var names := ["exporter_instance", "exporter_filter", "build_configuration", "branch", "other"];
      var k1 := MetricKey(title, [f.instance, f.name, bt, d1.branchName, rest]);
      var k2 := MetricKey(title, [f.instance, f.name, bt, d2.branchName, rest]);
      && k1 != k2
      && k1 in r && r[k1] == Sample(title, names, k1.labelValues, parse(value).value)
      && k2 in r && r[k2] == Sample(title, names, k2.labelValues, parse(value).value)
  {
    var p := Property(prefix + ":" + rest, value);
    var title := "teamcity_" + snake(prefix);
    var k1 := MetricKey(title, [f.instance, f.name, bt, d1.branchName, rest]);
    var k2 := MetricKey(title, [f.instance, f.name, bt, d2.branchName, rest]);
    ColonSample(Build(d1, f), prefix, rest, value, snake, parse);
    ColonSample(Build(d2, f), prefix, rest, value, snake, parse);
    assert k1.labelValues[3] != k2.labelValues[3];
    RecordTwoBuilds(m, Build(d1, f), Build(d2, f), p, snake, parse);
  }

  /** The sample of a parseable property whose name has a colon: titled
      after the text before the first colon, with the build's four labels and
      `other` holding the text after it. */
  lemma ColonSample(b: Build, prefix: string, rest: string, value: string,
                    snake: string -> string, parse: string -> Option<real>)
    requires ':' !in prefix && parse(value).Some?
    ensures PropertySample(b, Property(prefix + ":" + rest, value), snake, parse) ==
      Some(Sample("teamcity_" + snake(prefix),
                  ["exporter_instance", "exporter_filter", "build_configuration", "branch", "other"],
                  [b.filter.instance, b.filter.name, b.details.buildTypeId, b.details.branchName, rest],
                  parse(value).value))
  {
    ColonName(b, prefix, rest, snake);
    var labels := MetricLabels(b, prefix + ":" + rest);
    assert labels == BuildLabels(b) + [Label("other", rest)];
    assert LabelNames(labels) == ["exporter_instance", "exporter_filter", "build_configuration", "branch", "other"];
    assert LabelValues(labels) == [b.filter.instance, b.filter.name, b.details.buildTypeId, b.details.branchName, rest];
  }
}
