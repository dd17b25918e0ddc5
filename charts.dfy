/** The values the search core works on: chart versions, entry keys and search results. */
module Charts {
  import opened Options

  /**
   * One published version of a chart (repo.ChartVersion with the chart.Metadata fields
   * the search core reads). Immutable once loaded.
   */
  datatype ChartVersion = ChartVersion(name: string, version: string, description: string, urls: seq<string>)

  /** A repository's index file: chart name to the versions published under it. */
  type Entries = map<string, seq<ChartVersion>>

  /**
   * The address of one stored entry: the repository, the chart name as keyed in the
   * repository's index file and, in include-all mode, the version string. In the default
   * mode `version` is None and there is one entry per (repository, chart).
   */
  datatype Key = Key(repo: string, chart: string, version: Option<string>)

  /** The fully qualified name `repository/chart`, case preserved. */
  function FullName(k: Key): string {
    k.repo + "/" + k.chart
  }

  /**
   * A search result: the fully qualified name, the score (lower is better, 0 best) and
   * the chart version it refers to (None plays the part of Go's nil Chart pointer).
   */
  datatype Result = Result(name: string, score: int, chart: Option<ChartVersion>)
}
