/**
 * The bot's configuration: what `config.json` holds. `rss_feeds` is a
 * Python dict, whose iteration follows insertion order; the model keeps
 * that order in `feedKeys` beside the map `feeds`.
 */
module Configuration {
  import opened Wrappers

  datatype Config = Config(
    channels: map<string, int>,            // category -> Discord channel id
    feedKeys: seq<string>,                 // the categories of rss_feeds, in insertion order
    feeds: map<string, seq<string>>,       // category -> feed URLs, in order
    webhooks: Option<map<string, string>>, // category -> webhook URL; None when the key is absent
    fetchInterval: int,                    // seconds between cycles
    rssDelay: int)                         // seconds between feeds

  /** Elements pairwise distinct. */
  predicate NoDuplicates<T(==)>(s: seq<T>) {
    forall i, j :: 0 <= i < j < |s| ==> s[i] != s[j]
  }

  /** `feedKeys` lists every category of `feeds` exactly once. */
  predicate OrderedKeys(keys: seq<string>, feeds: map<string, seq<string>>) {
    && NoDuplicates(keys)
    && (forall k :: k in keys ==> k in feeds)
    && (forall k :: k in feeds ==> k in keys)
  }

  /** DEFAULT_CONFIG: no channels, no feeds, no webhook table, 1800 s and 60 s. */
  const DefaultConfig: Config := Config(map[], [], map[], None, 1800, 60)
}
