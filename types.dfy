/** Values shared by the exporter's scrape pipeline: the filters an instance is
    configured with, the locators sent to the build server, the records the
    build server answers with, and the samples kept in the metric store. */
module Types {

  /** A value that may be absent; used for the float parse of a statistics value. */
  datatype Option<+T> = None | Some(value: T)

  /** The answer of one build-server query. Every failure (transport,
      authorisation, not found) is handled alike by the exporter: it is logged
      and the affected item is dropped, so the model keeps no error detail. */
  datatype Reply<+T> = Ok(value: T) | Failed

  /** tc.BuildLocator: the selection sent to the build server. An empty
      `buildType` or `branch` means "not restricted". */
  datatype Locator = Locator(buildType: string, branch: string, count: string)

  /** BuildFilter: a named locator and the name of the instance it belongs to. */
  datatype BuildFilter = BuildFilter(name: string, instance: string, filter: Locator)

  /** The part of tc.Build the statistics stage reads. */
  datatype BuildDetails = BuildDetails(id: int, buildTypeId: string, branchName: string)

  /** Build: one build record paired with the filter that found it. */
  datatype Build = Build(details: BuildDetails, filter: BuildFilter)

  /** One statistics property of a build: a raw name and an unparsed value. */
  datatype Property = Property(name: string, value: string)

  /** BuildStatistics: a build and the statistics properties the server returned for it. */
  datatype BuildStatistics = BuildStatistics(build: Build, properties: seq<Property>)

  /** The build-server queries the filter expansion can issue. */
  datatype Query = ListConfigurations | ListBranches(buildType: string)

  /** The build server as seen by the filter expansion: the reply to the query
      for all build configurations (their ids) and, per build-type id, the reply
      to the query for its branches (their names). */
  datatype Gateway = Gateway(
    configurations: Reply<seq<string>>,
    branches: string -> Reply<seq<string>>)

  /** A metric label: name and value. */
  datatype Label = Label(name: string, value: string)

  /** A gauge sample as stored: its title (also its help text), the label
      names of its descriptor, the label values and the value. */
  datatype Sample = Sample(title: string, labelNames: seq<string>, labelValues: seq<string>, value: real)

  /** The identity a sample is stored under: its title and its ordered label
      values. Label names are not part of it. */
  datatype MetricKey = MetricKey(title: string, labelValues: seq<string>)
}
