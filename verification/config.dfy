/** Process-wide configuration of the worker: one version token, the two
    namespace names built from it, and the manifest of application-shell
    assets stored at install time. */
module Config {

  const Version: string := "v1"

  /** Namespace holding the application shell (documents, styles, scripts). */
  const AppCache: string := "athkar-ui-" + Version

  /** Namespace holding audio recordings. */
  const AudioCache: string := "athkar-audio-" + Version

  /** The shell assets fetched and stored, all or nothing, at install. */
  const UiAssets: seq<string> := ["./", "./index.html", "./style.css", "./app.js", "./manifest.json"]

  /** A namespace belonging to the current version; every other one is stale. */
  predicate IsLive(name: string) {
    name == AppCache || name == AudioCache
  }

  /** The two namespaces never coincide, so writes to one never reach the other. */
  lemma NamespacesDistinct()
    ensures AppCache != AudioCache
  {
  }
}
