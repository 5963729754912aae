# teamcity_exporter scrape core in Dafny

This project models the sequential logic inside the TeamCity exporter's scrape pipeline. It has three parts:

- **Filter expansion** (`Instance.prepareFilters` and `Instance.addDefaultFilter`). An instance's configured build filters become single-build locators, using the build server's answers about build configurations and branches. An instance without filters first gets a filter named `default`.
- **Statistics parsing** (`parseStat`). Each statistics property of a build whose value parses as a number becomes a gauge sample. The sample's title is `teamcity_` plus the snake_case text before the first `:` of the property name. It carries the labels `exporter_instance`, `exporter_filter`, `build_configuration` and `branch`, plus `other` with the text after the first `:` when the name has one. The model takes every such sample to be a valid metric; the exporter instead stops on an invalid one (see `ParseStat` under "## Left out").
- **Metric store** (`metricsStorage.Set`). A map from a sample's identity (its title and its ordered label values) to the latest sample written under it. A write always overwrites.

Modules:

- `Types` (types.dfy) holds the records.
- `Filters` (filters.dfy) holds `Instance`, the expansion as functions and as imperative methods, and their lemmas.
- `MetricStore` (metric_store.dfy) holds the `Store` class.
- `StatParser` (stat_parser.dfy) holds the name and label derivation, the `ParseStat` method and the lemmas about the store after recording.

Some inputs are given rather than computed:

- The build server's answers are values: a `Gateway` holds the reply to the configurations query and, per build type, the reply to the branches query. A reply is a result or `Failed`.
- The channel of `prepareFilters` becomes its output sequence. The queries the expansion makes are returned as a second sequence.
- `toSnakeCase` and `strconv.ParseFloat` are not part of this model. They are parameters `snake` and `parse`, and floats are modelled as reals.
- `tc.NewBuildLocator` is not part of this model either. Its result is the parameter `newLocator`.
- `getHash` is replaced by the identity it hashes, `MetricKey(title, labelValues)`.

## Model

| member | source | states |
|---|---|---|
| `Filters.Instance.AddDefaultFilter` | teamcity_exporter.go:298-306 | appends a filter named `default` with the instance's name and the fresh locator, and returns it; the rest of the list is unchanged |
| `Filters.Instance.PrepareFilters` | teamcity_exporter.go:126-197 | afterwards the filter list is the old one, or `[default]` if it was empty; the emitted locators are the expansion of that list in filter order; the queries made are that list's query trace |
| `Filters.ResolveBranches` | teamcity_exporter.go:145-167 | the branch map has at most the filter's own build type as key; the key is present exactly when the filter yields any locator, and the branch list stored under it yields exactly those locators; one branch query is made only when no branch is configured |
| `Filters.EmitLocators` | teamcity_exporter.go:169-194 | walking the branch map (at most one key) emits one `Count = "1"` locator per stored branch, in order, or one with empty branch when the list is empty |
| `Filters.WithDefaultInjectsOnce` | teamcity_exporter.go:129-131 | an empty list becomes exactly `[BuildFilter("default", instance, locator)]`; a non-empty one is left as it is; a second run injects nothing |
| `Filters.WildcardFilterEmitsNothing` | teamcity_exporter.go:137-143 | a filter with an empty build type emits no locator for any gateway, whether the configurations query fails or succeeds; it makes one configurations query |
| `Filters.ExplicitBranchFilter` | teamcity_exporter.go:163-167 | a filter with a build type and a branch emits exactly one locator with that build type and branch and count "1", with no branch query |
| `Filters.DiscoveredBranchFilter` | teamcity_exporter.go:148-162 | a filter with a build type and no branch makes one branch query; on failure it emits nothing; for 0 or 1 branch it emits one locator with empty branch; for 2 or more it emits one locator per branch in order, carrying that branch |
| `Filters.ExpansionAppend` | teamcity_exporter.go:133-195 | output and queries follow filter order: the expansion of `fs + gs` is the expansion of `fs` followed by that of `gs` |
| `Filters.ExpansionOrigins` | teamcity_exporter.go:171-189 | every emitted locator has count "1", the instance's name, and the name and the non-empty build type of some configured filter |
| `Filters.ExpansionIgnoresWildcards` | teamcity_exporter.go:137-143 | removing every filter with an empty build type leaves the output unchanged |
| `Filters.QueriesHaveCause` | teamcity_exporter.go:137-167 | a branch query is made only for a filter naming that build type and no branch; a configurations query only for a filter with an empty build type |
| `Filters.DefaultFilterEmitsNothing` | teamcity_exporter.go:129-143 | an instance without filters whose default locator has an empty build type emits nothing and makes exactly one configurations query |
| `Filters.WildcardSkippedWitness` | teamcity_exporter.go:137-143 | as written: for one configuration `Build1` with branches main and dev, a filter with no build type and no branch emits nothing, where the intended expansion emits `Build1/main` and `Build1/dev` |
| `Filters.ExpandEachCovers` | teamcity_exporter.go:137-146 | corrected expansion: every locator of every listed configuration is emitted, and every emitted locator belongs to a listed configuration and to the filter |
| `Filters.ExpandEachOrigin` | teamcity_exporter.go:137-146 | corrected expansion: every emitted locator is one of the locators of some listed configuration |
| `Filters.ExpandIntendedWildcard` | teamcity_exporter.go:137-146 | corrected expansion of a filter with an empty build type: nothing when the configurations query fails; otherwise a locator is emitted exactly when it belongs to the expansion of some listed configuration |
| `Filters.IntendedAgreesWhenNamed` | teamcity_exporter.go:144-146 | the correction changes nothing for filters that name a build type |
| `MetricStore.Store.constructor` | teamcity_exporter.go:27 | the store starts empty |
| `MetricStore.Store.Set` | teamcity_exporter.go:272 | the written key now holds the new sample; every other entry is unchanged; the key set grows by at most that key |
| `MetricStore.SetTwice` | teamcity_exporter.go:272 | writing one identity twice equals writing the second sample once; other keys keep their entries; the entry count grows by at most one |
| `MetricStore.KeyIgnoresLabelNames` | teamcity_exporter.go:272 | samples with the same title and label values but different label names share one entry, and the later write wins |
| `StatParser.FirstColon` | teamcity_exporter.go:252 | the result is the position of the first `:`, or the length when there is none |
| `StatParser.SplitFirstColon` | teamcity_exporter.go:252 | one part equal to the name exactly when the name has no `:`; otherwise two parts, the first colon-free, and first + ":" + second rebuilds the name |
| `StatParser.SplitJoin` | teamcity_exporter.go:252 | splitting `prefix + ":" + rest` with a colon-free prefix gives back `[prefix, rest]`, even when `rest` holds colons |
| `StatParser.PlainName` | teamcity_exporter.go:252-260 | for a name without `:` the title is `"teamcity_" + snake(name)` and the labels are exactly instance, filter, build type and branch, in that order |
| `StatParser.ColonName` | teamcity_exporter.go:252-263 | for `prefix + ":" + rest` the title is `"teamcity_" + snake(prefix)` and a fifth label `other` holds `rest` |
| `StatParser.ColonSample` | teamcity_exporter.go:247-272 | the full sample for such a name: the title, the five label names, the five values taken from filter and build, and the parsed value |
| `StatParser.SampleShape` | teamcity_exporter.go:247-269 | a sample exists exactly when the value parses; its label names and values are parallel (4, or 5 exactly when the name has `:`) and pair up with the labels index for index, with the fixed names and the instance, filter, build type and branch first |
| `StatParser.LabelColumns` | teamcity_exporter.go:265-269 | the name and value columns have the label list's length and pair up with it index for index |
| `StatParser.ParseStat` | teamcity_exporter.go:242-275 | the store afterwards is the old store with every parseable property of every build recorded in order |
| `StatParser.RecordAppend` | teamcity_exporter.go:245-273 | recording a list is recording its first part, then the rest |
| `StatParser.UnparsableSkipped` | teamcity_exporter.go:246-251 | a property whose value does not parse writes nothing, and the properties around it are recorded as if it were absent (a parse failure is the only per-property error the model skips) |
| `StatParser.RecordedKeys` | teamcity_exporter.go:245-273 | after recording one build's properties, the store's keys are exactly its old keys and those some parseable property writes; an old entry no property writes keeps its old sample |
| `StatParser.LastWriteWins` | teamcity_exporter.go:272 | each entry holds the sample of the last property that writes its identity |
| `StatParser.StatisticsKeys` | teamcity_exporter.go:242-275 | after recording the statistics of several builds, the store's keys are exactly its old keys and those some property of some build writes; an old entry nothing writes keeps its old sample, which then goes stale |
| `StatParser.StatisticsLastWriteWins` | teamcity_exporter.go:245-272 | across builds, an entry holds the sample of the last property, in build order and then property order, that writes its identity |
| `StatParser.RecordTwoBuilds` | teamcity_exporter.go:245-272 | recording one property for two builds writes the first build's sample, then the second's |
| `StatParser.FilterNameSeparates` | teamcity_exporter.go:255-272 | two filters that differ only in name give two separate entries for the same property of the same build |
| `StatParser.TwoBranchesTwoSamples` | teamcity_exporter.go:252-272 | builds of one filter and build type on two branches, with the same `prefix:rest` property, give two entries with the same title, `other = rest` and value, differing only in the branch label |

## Left out

- Goroutines, channels and wait groups (`collectStatHandler`, and the fan-out inside `getBuildsByFilters` and `getBuildStat`) are not modelled. Each stage is a sequential function of a sequence. The order in which concurrent workers deliver items, and overlapping scrape runs of one instance, are not modelled.
- `getBuildsByFilters` and `getBuildStat` are not modelled. Each one calls the build server per item and drops the item on error. `ParseStat` takes the statistics records as a given sequence.
- The build-server client (`tc.New`, `GetAllBuildConfigurations`, `GetAllBranches`, `GetBuildsByParams`, `GetBuildStat`) is network I/O. Its answers are inputs, and error details are not kept. Log lines are not modelled.
- `Gateway`: the build server's answers are fixed for one expansion run. Repeated queries in that run get identical answers. Two filters naming the same build type with no branch therefore get the same branch list, or fail together, although the exporter queries the server once for each (teamcity_exporter.go:150) and either call could fail on its own.
- `toSnakeCase`, `strconv.ParseFloat`, `getHash` and `tc.NewBuildLocator` are not part of this model. They are parameters, or the key itself in the case of the hash, so hash collisions are not modelled. IEEE float values are modelled as reals.
- The scrape finish-time and duration gauges (teamcity_exporter.go:121-123) are not modelled because they depend on the wall clock.
- `validateStatus` (teamcity_exporter.go:277-296) is not modelled: it is an HTTP probe.
- `main`, `init`, flag and configuration handling, the HTTP server, the ticker loop `collectStat`, and Prometheus descriptor and metric construction are not modelled. A sample keeps its title, label names, label values and value; the help text equals the title.
- ParseStat: `prometheus.MustNewConstMetric` (teamcity_exporter.go:271-272) panics when the descriptor is invalid. That happens when the title is not a valid metric name, for example when `toSnakeCase` leaves a `.`, `-` or space from a custom statistic name, or, depending on the client library version, when a label value is not valid UTF-8. Nothing recovers the panic, so the exporter process ends, and the remaining properties and builds are never recorded. The client library is not part of this model. The model assumes every parseable property yields a valid sample and records it.
- The concurrent map's thread safety and its atomic replace are not modelled. The store is a single-threaded map.

## Findings

| source | as written | input that shows it | evidently intended | confidence | as-written member | corrected member |
|---|---|---|---|---|---|---|
| teamcity_exporter.go:137-143 | the `continue` after fetching all build configurations is unconditional. A filter with an empty build type, including the injected `default` filter when its locator names no build type, emits no locator, and the fetched configurations are never used | filter `all` with empty build type and branch; the server lists configuration `Build1` with branches `main` and `dev`; the code emits nothing | each listed configuration is expanded like an explicitly named build type; here that emits `Build1/main` and `Build1/dev` | medium, not executed | `Filters.WildcardSkippedWitness` | `Filters.ExpandIntendedWildcard` |

`Instance.PrepareFilters` models the code as written, because that is what the exporter does. The corrected expansion is `Filters.ExpandIntended`; `Filters.ExpandIntendedWildcard` states what it emits for a filter with an empty build type. `Filters.IntendedAgreesWhenNamed` proves it equals the as-written expansion for every filter that names a build type.

The code treats zero discovered branches like one: both emit a single locator with an empty branch (lines 157-161 store an empty list, and lines 170-179 emit it). The model follows the code.
