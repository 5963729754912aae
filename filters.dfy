/** Filter expansion: how an instance's configured build filters, together
    with the build server's answers, become the sequence of single-build
    locators the rest of the scrape works on (teamcity_exporter.go:126-197),
    and the default filter an instance without filters is given
    (teamcity_exporter.go:298-306).

    The build server is a given `Gateway`; the channel the locators are sent
    on is the output sequence `emitted`; the queries issued are returned as
    `asked`, in order. */
module Filters {
  import opened Types

  /** Name of the filter injected into an instance that has none. */
  const DefaultFilterName := "default"

  /** Count of every emitted locator: only the latest build matters. */
  const LatestOnly := "1"

  function DefaultFilter(instance: string, locator: Locator): BuildFilter
  {
    BuildFilter(DefaultFilterName, instance, locator)
  }

  /** The filter list an instance scrapes with: its own, or the default
      filter alone when it has none. */
  function WithDefault(instance: string, fs: seq<BuildFilter>, locator: Locator): seq<BuildFilter>
  {
    if |fs| == 0 then [DefaultFilter(instance, locator)] else fs
  }

  /** The branch names one configured selector yields a locator for ("" is
      "no branch restriction"): none for an empty build type; the configured
      branch when there is one; otherwise one per discovered branch, except
      that zero or one discovered branch yields a single unrestricted
      locator, and a failed branch query yields nothing. */
  function BranchTargets(sel: Locator, gw: Gateway): seq<string>
  {
    if sel.buildType == "" then []
    else if sel.branch != "" then [sel.branch]
    else match gw.branches(sel.buildType)
      case Failed => []
      case Ok(found) => if |found| <= 1 then [""] else found
  }

  /** The branch names a collected branch list is emitted with: an empty
      list stands for one unrestricted locator. */
  function Targets(branches: seq<string>): seq<string>
  {
    if |branches| == 0 then [""] else branches
  }

  /** One single-build locator per branch name, in order. */
  function Emit(instance: string, filterName: string, buildType: string, branches: seq<string>): seq<BuildFilter>
  {
    seq(|branches|, j requires 0 <= j < |branches| =>
      BuildFilter(filterName, instance, Locator(buildType, branches[j], LatestOnly)))
  }

  /** What one configured filter contributes to the output. */
  function Expand(instance: string, f: BuildFilter, gw: Gateway): seq<BuildFilter>
  {
    Emit(instance, f.name, f.filter.buildType, BranchTargets(f.filter, gw))
  }

  /** The build-server queries one configured selector causes. */
  function QueriesFor(sel: Locator): seq<Query>
  {
    if sel.buildType == "" then [ListConfigurations]
    else if sel.branch == "" then [ListBranches(sel.buildType)]
    else []
  }

  /** What a filter list contributes, filter after filter. */
  function Expansion(instance: string, fs: seq<BuildFilter>, gw: Gateway): seq<BuildFilter>
    decreases |fs|
  {
    if fs == [] then []
    else Expansion(instance, fs[..|fs| - 1], gw) + Expand(instance, fs[|fs| - 1], gw)
  }

  /** The queries a filter list causes, filter after filter. */
  function QueryTrace(fs: seq<BuildFilter>): seq<Query>
    decreases |fs|
  {
    if fs == [] then []
    else QueryTrace(fs[..|fs| - 1]) + QueriesFor(fs[|fs| - 1].filter)
  }

  /** The filters of `fs` that name a build type, in order. */
  function Concrete(fs: seq<BuildFilter>): seq<BuildFilter>
    decreases |fs|
  {
    if fs == [] then []
    else if fs[|fs| - 1].filter.buildType == "" then Concrete(fs[..|fs| - 1])
    else Concrete(fs[..|fs| - 1]) + [fs[|fs| - 1]]
  }

  /** The branch lists collected for a named build type (teamcity_exporter.go:145-167),
      keyed by build type, as the map `b` of the source. */
  method ResolveBranches(sel: Locator, gw: Gateway) returns (b: map<string, seq<string>>, asked: seq<Query>)
    requires sel.buildType != ""
    ensures b.Keys <= {sel.buildType}
    ensures sel.buildType in b <==> BranchTargets(sel, gw) != []
    ensures sel.buildType in b ==> Targets(b[sel.buildType]) == BranchTargets(sel, gw)
    ensures asked == QueriesFor(sel)
  {
    var candidates := [sel.buildType];
    b, asked := map[], [];
    if sel.branch == "" {
      for v := 0 to |candidates|
        invariant b.Keys <= {sel.buildType}
        invariant v == 0 ==> b == map[] && asked == []
        invariant v == 1 ==> asked == [ListBranches(sel.buildType)]
        invariant v == 1 ==> (sel.buildType in b <==> gw.branches(sel.buildType).Ok?)
        invariant v == 1 && sel.buildType in b ==> Targets(b[sel.buildType]) == BranchTargets(sel, gw)
      {
        var t := candidates[v];
        var branches := gw.branches(t);
        asked := asked + [ListBranches(t)];
        if branches.Failed? {
          // logged; this build type is skipped
          continue;
        }
        // a lone branch is the default one, which the server ignores as a filter
        if |branches.value| == 1 {
          b := b[t := []];
        } else {
          b := b[t := branches.value];
        }
      }
    } else {
      for v := 0 to |candidates|
        invariant b == if v == 0 then map[] else map[sel.buildType := [sel.branch]]
      {
        b := b[candidates[v] := [sel.branch]];
      }
    }
  }

  /** The locators sent for the collected branch lists (teamcity_exporter.go:169-194).
      The map is walked in no particular order; it has at most one key. */
  method EmitLocators(instance: string, filterName: string, buildType: string, b: map<string, seq<string>>)
    returns (out: seq<BuildFilter>)
    requires b.Keys <= {buildType}
    ensures out == if buildType in b then Emit(instance, filterName, buildType, Targets(b[buildType])) else []
  {
    out := [];
    var pending := b.Keys;
    while pending != {}
      invariant pending <= b.Keys
      invariant out == if pending == {} && buildType in b then Emit(instance, filterName, buildType, Targets(b[buildType])) else []
      decreases pending
    {
      var t :| t in pending;
      var branches := b[t];
      if |branches| == 0 {
        out := out + [BuildFilter(filterName, instance, Locator(t, "", LatestOnly))];
      } else {
        for z := 0 to |branches|
          invariant out == Emit(instance, filterName, t, branches[..z])
        {
          out := out + [BuildFilter(filterName, instance, Locator(t, branches[z], LatestOnly))];
        }
        assert branches[..|branches|] == branches;
      }
      pending := pending - {t};
    }
  }

  /** An exporter instance: its name and the filter list it scrapes with. */
  class Instance {
    const name: string
    var filters: seq<BuildFilter>

    constructor (name: string, filters: seq<BuildFilter>)
      ensures this.name == name && this.filters == filters
    {
      this.name := name;
      this.filters := filters;
    }

    /** Append the default filter, built from the given fresh locator
        (`*tc.NewBuildLocator()`), and return it. */
    method AddDefaultFilter(newLocator: Locator) returns (f: BuildFilter)
      modifies this
      ensures f == DefaultFilter(name, newLocator)
      ensures filters == old(filters) + [f]
    {
      f := DefaultFilter(name, newLocator);
      filters := filters + [f];
    }

    /** One expansion run: inject the default filter if there is none, then
        send every locator the filters expand to, in filter order. */
    method PrepareFilters(gw: Gateway, newLocator: Locator) returns (emitted: seq<BuildFilter>, asked: seq<Query>)
      modifies this
      ensures filters == WithDefault(name, old(filters), newLocator)
      ensures emitted == Expansion(name, filters, gw)
      ensures asked == QueryTrace(filters)
    {
      if |filters| == 0 {
        var added := AddDefaultFilter(newLocator);
      }
      emitted, asked := [], [];
      for k := 0 to |filters|
        invariant filters == WithDefault(name, old(filters), newLocator)
        invariant emitted == Expansion(name, filters[..k], gw)
        invariant asked == QueryTrace(filters[..k])
      {
        assert filters[..k + 1][..k] == filters[..k];
        var sel := filters[k].filter;
        if sel.buildType == "" {
          asked := asked + [ListConfigurations];
          // the configurations are fetched (a failure is logged) and never used:
          // the filter is skipped either way
          var configurations := gw.configurations;
          continue;
        }
        var b, branchQueries := ResolveBranches(sel, gw);
        asked := asked + branchQueries;
        var out := EmitLocators(name, filters[k].name, sel.buildType, b);
        emitted := emitted + out;
      }
      assert filters[..|filters|] == filters;
    }
  }

  // ---------------------------------------------------------------------
  // Properties of the expansion

  /** The default filter is injected exactly when the list is empty, and
      injecting is done once: a second run leaves the list as it is. */
  lemma WithDefaultInjectsOnce(instance: string, fs: seq<BuildFilter>, locator: Locator)
    ensures |fs| == 0 ==> WithDefault(instance, fs, locator) == [BuildFilter("default", instance, locator)]
    ensures |fs| > 0 ==> WithDefault(instance, fs, locator) == fs
    ensures WithDefault(instance, WithDefault(instance, fs, locator), locator) == WithDefault(instance, fs, locator)
  {
  }

  /** A filter with an empty build type emits nothing, whatever the
      configurations query answers; it costs one configurations query. */
  lemma WildcardFilterEmitsNothing(instance: string, f: BuildFilter, gw: Gateway)
    requires f.filter.buildType == ""
    ensures Expand(instance, f, gw) == []
    ensures QueriesFor(f.filter) == [ListConfigurations]
  {
  }

  /** A filter naming a build type and a branch emits exactly that locator,
      without any branch query. */
  lemma ExplicitBranchFilter(instance: string, f: BuildFilter, gw: Gateway)
    requires f.filter.buildType != "" && f.filter.branch != ""
    ensures Expand(instance, f, gw) == [BuildFilter(f.name, instance, Locator(f.filter.buildType, f.filter.branch, "1"))]
    ensures QueriesFor(f.filter) == []
  {
  }

  /** A filter naming a build type but no branch asks for the branches of
      that build type and emits: nothing if the query fails; one unrestricted
      locator if it finds zero or one branch; otherwise one locator per
      branch, in the order found. */
  lemma DiscoveredBranchFilter(instance: string, f: BuildFilter, gw: Gateway)
    requires f.filter.buildType != "" && f.filter.branch == ""
    ensures QueriesFor(f.filter) == [ListBranches(f.filter.buildType)]
    ensures gw.branches(f.filter.buildType).Failed? ==> Expand(instance, f, gw) == []
    ensures gw.branches(f.filter.buildType).Ok? && |gw.branches(f.filter.buildType).value| <= 1 ==>
      Expand(instance, f, gw) == [BuildFilter(f.name, instance, Locator(f.filter.buildType, "", "1"))]
    ensures gw.branches(f.filter.buildType).Ok? && |gw.branches(f.filter.buildType).value| >= 2 ==>
      var found := gw.branches(f.filter.buildType).value;
      |Expand(instance, f, gw)| == |found| &&
      forall j :: 0 <= j < |found| ==>
        Expand(instance, f, gw)[j] == BuildFilter(f.name, instance, Locator(f.filter.buildType, found[j], "1"))
  {
  }

  /** Filter order is output order: the expansion of a concatenation is the
      concatenation of the expansions. */
  lemma {:induction false} ExpansionAppend(instance: string, fs: seq<BuildFilter>, gs: seq<BuildFilter>, gw: Gateway)
    ensures Expansion(instance, fs + gs, gw) == Expansion(instance, fs, gw) + Expansion(instance, gs, gw)
    ensures QueryTrace(fs + gs) == QueryTrace(fs) + QueryTrace(gs)
    decreases |gs|
  {
    if gs == [] {
      assert fs + gs == fs;
    } else {
      var init := gs[..|gs| - 1];
      assert (fs + gs)[..|fs + gs| - 1] == fs + init;
      assert (fs + gs)[|fs + gs| - 1] == gs[|gs| - 1];
      ExpansionAppend(instance, fs, init, gw);
    }
  }

  /** Every emitted locator asks for one build, belongs to the instance, and
      carries the name and the (non-empty) build type of a configured filter. */
  lemma {:induction false} ExpansionOrigins(instance: string, fs: seq<BuildFilter>, gw: Gateway)
    ensures forall e :: e in Expansion(instance, fs, gw) ==>
      e.instance == instance && e.filter.count == "1" &&
      exists k :: 0 <= k < |fs| && fs[k].name == e.name &&
        fs[k].filter.buildType == e.filter.buildType && fs[k].filter.buildType != ""
    decreases |fs|
  {
    if fs != [] {
      var init := fs[..|fs| - 1];
      var last := fs[|fs| - 1];
      ExpansionOrigins(instance, init, gw);
      forall e | e in Expansion(instance, fs, gw)
        ensures e.instance == instance && e.filter.count == "1"
        ensures exists k :: 0 <= k < |fs| && fs[k].name == e.name &&
                            fs[k].filter.buildType == e.filter.buildType && fs[k].filter.buildType != ""
      {
        if e in Expansion(instance, init, gw) {
          var k :| 0 <= k < |init| && init[k].name == e.name &&
            init[k].filter.buildType == e.filter.buildType && init[k].filter.buildType != "";
          assert fs[k] == init[k];
        } else {
          assert e in Expand(instance, last, gw);
          assert last.filter.buildType != "";
          assert fs[|fs| - 1] == last;
        }
      }
    }
  }

  /** Filters with an empty build type make no difference to the output:
      the expansion of a list equals that of its filters naming a build type. */
  lemma {:induction false} ExpansionIgnoresWildcards(instance: string, fs: seq<BuildFilter>, gw: Gateway)
    ensures Expansion(instance, fs, gw) == Expansion(instance, Concrete(fs), gw)
    decreases |fs|
  {
    if fs != [] {
      var init := fs[..|fs| - 1];
      var last := fs[|fs| - 1];
      ExpansionIgnoresWildcards(instance, init, gw);
      if last.filter.buildType == "" {
        assert Expand(instance, last, gw) == [];
      } else {
        var c := Concrete(init) + [last];
        assert c[..|c| - 1] == Concrete(init);
      }
    }
  }

  /** Branch queries are made only for filters that name a build type and no
      branch, and configuration queries only for filters naming no build type. */
  lemma {:induction false} QueriesHaveCause(fs: seq<BuildFilter>)
    ensures forall q :: q in QueryTrace(fs) && q.ListBranches? ==>
      exists k :: 0 <= k < |fs| && fs[k].filter.buildType == q.buildType &&
        q.buildType != "" && fs[k].filter.branch == ""
    ensures forall q :: q in QueryTrace(fs) && q.ListConfigurations? ==>
      exists k :: 0 <= k < |fs| && fs[k].filter.buildType == ""
    decreases |fs|
  {
    if fs != [] {
      var init := fs[..|fs| - 1];
      QueriesHaveCause(init);
      forall q | q in QueryTrace(fs)
        ensures q.ListBranches? ==>
          exists k :: 0 <= k < |fs| && fs[k].filter.buildType == q.buildType &&
            q.buildType != "" && fs[k].filter.branch == ""
        ensures q.ListConfigurations? ==> exists k :: 0 <= k < |fs| && fs[k].filter.buildType == ""
      {
        if q in QueryTrace(init) {
          if q.ListBranches? {
            var k :| 0 <= k < |init| && init[k].filter.buildType == q.buildType &&
              q.buildType != "" && init[k].filter.branch == "";
            assert fs[k] == init[k];
          } else {
            var k :| 0 <= k < |init| && init[k].filter.buildType == "";
            assert fs[k] == init[k];
          }
        } else {
          assert q in QueriesFor(fs[|fs| - 1].filter);
        }
      }
    }
  }

  /** An instance configured without filters emits nothing when the default
      locator leaves the build type empty; its only query is for the
      configurations. */
  lemma DefaultFilterEmitsNothing(instance: string, locator: Locator, gw: Gateway)
    requires locator.buildType == ""
    ensures Expansion(instance, WithDefault(instance, [], locator), gw) == []
    ensures QueryTrace(WithDefault(instance, [], locator)) == [ListConfigurations]
  {
  }

  // ---------------------------------------------------------------------
  // The expansion of an empty build type as evidently intended

  /** What a filter contributes when each build configuration found for an
      empty build type is expanded like an explicitly named one, in the order
      the configurations are listed. */
  function ExpandIntended(instance: string, f: BuildFilter, gw: Gateway): seq<BuildFilter>
  {
    if f.filter.buildType != "" then Expand(instance, f, gw)
    else match gw.configurations
      case Failed => []
      case Ok(ids) => ExpandEach(instance, f, ids, gw)
  }

  /** `f` expanded once per build type of `ids`, in order. */
  function ExpandEach(instance: string, f: BuildFilter, ids: seq<string>, gw: Gateway): seq<BuildFilter>
    decreases |ids|
  {
    if ids == [] then []
    else ExpandEach(instance, f, ids[..|ids| - 1], gw) + Expand(instance, Retarget(f, ids[|ids| - 1]), gw)
  }

  /** `f` with its build type replaced by `id`. */
  function Retarget(f: BuildFilter, id: string): BuildFilter
  {
    f.(filter := f.filter.(buildType := id))
  }

  /** The intended expansion covers every configuration found: each
      configuration's locators are all emitted, and every emitted locator
      belongs to a listed configuration. */
  lemma {:induction false} ExpandEachCovers(instance: string, f: BuildFilter, ids: seq<string>, gw: Gateway)
    ensures forall j, e :: 0 <= j < |ids| && e in Expand(instance, Retarget(f, ids[j]), gw) ==>
      e in ExpandEach(instance, f, ids, gw)
    ensures forall e :: e in ExpandEach(instance, f, ids, gw) ==>
      e.name == f.name && e.instance == instance && e.filter.buildType in ids
    decreases |ids|
  {
    if ids != [] {
      var init := ids[..|ids| - 1];
      ExpandEachCovers(instance, f, init, gw);
      forall j, e | 0 <= j < |ids| && e in Expand(instance, Retarget(f, ids[j]), gw)
        ensures e in ExpandEach(instance, f, ids, gw)
      {
        if j < |init| {
          assert ids[j] == init[j];
        }
      }
      forall e | e in ExpandEach(instance, f, ids, gw)
        ensures e.name == f.name && e.instance == instance && e.filter.buildType in ids
      {
        if e in ExpandEach(instance, f, init, gw) {
          assert e.filter.buildType in init;
        } else {
          assert e in Expand(instance, Retarget(f, ids[|ids| - 1]), gw);
        }
      }
    }
  }

  /** The corrected expansion of a filter with an empty build type: nothing
      when the configurations query fails; otherwise exactly the locators of
      the listed configurations, each expanded like a named build type. */
  lemma ExpandIntendedWildcard(instance: string, f: BuildFilter, gw: Gateway)
    requires f.filter.buildType == ""
    ensures gw.configurations.Failed? ==> ExpandIntended(instance, f, gw) == []
    ensures gw.configurations.Ok? ==>
      var ids := gw.configurations.value;
      forall e :: e in ExpandIntended(instance, f, gw) <==>
        exists j :: 0 <= j < |ids| && e in Expand(instance, Retarget(f, ids[j]), gw)
  {
    if gw.configurations.Ok? {
      var ids := gw.configurations.value;
      ExpandEachCovers(instance, f, ids, gw);
      ExpandEachOrigin(instance, f, ids, gw);
    }
  }

  /** Every locator of the corrected expansion comes from one listed
      configuration. */
  lemma {:induction false} ExpandEachOrigin(instance: string, f: BuildFilter, ids: seq<string>, gw: Gateway)
    ensures forall e :: e in ExpandEach(instance, f, ids, gw) ==>
      exists j :: 0 <= j < |ids| && e in Expand(instance, Retarget(f, ids[j]), gw)
    decreases |ids|
  {
    if ids != [] {
      var init := ids[..|ids| - 1];
      ExpandEachOrigin(instance, f, init, gw);
      forall e | e in ExpandEach(instance, f, ids, gw)
        ensures exists j :: 0 <= j < |ids| && e in Expand(instance, Retarget(f, ids[j]), gw)
      {
        if e in ExpandEach(instance, f, init, gw) {
          var j :| 0 <= j < |init| && e in Expand(instance, Retarget(f, init[j]), gw);
          assert ids[j] == init[j];
        } else {
          assert e in Expand(instance, Retarget(f, ids[|ids| - 1]), gw);
        }
      }
    }
  }

  /** The correction changes nothing for filters that name a build type. */
  lemma IntendedAgreesWhenNamed(instance: string, f: BuildFilter, gw: Gateway)
    requires f.filter.buildType != ""
    ensures ExpandIntended(instance, f, gw) == Expand(instance, f, gw)
  {
  }

  /** The skipped wildcard, on one concrete gateway: one configuration with
      two branches. The code as written emits nothing for a filter without
      build type and branch; the intended expansion emits one locator per
      branch. */
  lemma WildcardSkippedWitness()
    ensures var gw := Gateway(Ok(["Build1"]), t => if t == "Build1" then Ok(["main", "dev"]) else Failed);
      var f := BuildFilter("all", "", Locator("", "", "1"));
      Expand("ci", f, gw) == [] &&
      ExpandIntended("ci", f, gw) == [
        BuildFilter("all", "ci", Locator("Build1", "main", "1")),
        BuildFilter("all", "ci", Locator("Build1", "dev", "1"))]
  {
  }
}
