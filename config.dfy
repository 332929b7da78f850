/** The constants and environment settings of backend/config.py. */
module Config {
  import opened Wrappers

  /** Largest step number a problem row may have (`solution_step_1` .. `solution_step_3`). */
  const MaxSolutionSteps: nat := 3

  /** Default character budget for formatted web-search results. */
  const WebSearchResultMaxChars: int := 3000

  /** Settings read from the environment once at start-up; `None` is an unset variable. */
  datatype Env = Env(
    googleApiKey: Option<string>,
    tavilyApiKey: Option<string>,
    dataDir: string := "data",
    vectorstoreDir: string := "vectorstore_faiss",
    csvFileName: string := "ships.csv")

  /** Python truthiness of an environment value: set and non-empty. */
  predicate IsSet(key: Option<string>) {
    key.Some? && key.value != ""
  }
}
