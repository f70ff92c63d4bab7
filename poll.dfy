/**
 * The body of the poller's loop, as functions: one feed (`PollFeed`), the
 * feeds of a category (`RunFeeds`), all categories in order
 * (`RunCategories`) and one whole cycle (`Cycle`). Feed contents, HTTP
 * statuses and the current time are inputs (`Env`).
 */
module Poll {
  import opened Wrappers
  import opened Feed
  import opened Webhook
  import opened Configuration

  /** What the poller does that can be observed, in order. */
  datatype Event =
    | Notified(category: string, title: string, link: string, outcome: Outcome)
    | Slept(seconds: int)

  /**
   * The seen map (link -> first-seen time), the events so far, and whether
   * an exception has ended the polling task.
   */
  datatype PollState = PollState(seen: map<string, string>, events: seq<Event>, halted: bool)

  /** The outside world during one cycle: feed contents, webhook answers, the time. */
  datatype Env = Env(source: string -> seq<Entry>, post: Poster, now: string)

  /** The number of notifier calls among `events`. */
  ghost function NotifiedCount(events: seq<Event>): nat
    decreases |events|
  {
    if events == [] then 0
    else NotifiedCount(events[..|events| - 1]) + (if events[|events| - 1].Notified? then 1 else 0)
  }

  /** The title the poller hands to the notifier. */
  function Bold(title: string): string {
    "**" + title + "**"
  }

  /**
   * One feed URL of a category. An empty feed is skipped without a pause;
   * a latest entry already seen causes only the pause; an unseen one is
   * sent to the notifier and then recorded with the current time, whatever
   * the delivery outcome, unless the notifier raised (no webhook table).
   */
  function PollFeed(st: PollState, cfg: Config, env: Env, category: string, url: string): (r: PollState)
    requires !st.halted
    ensures env.source(url) == [] ==> r == st
    ensures st.seen.Keys <= r.seen.Keys && forall k :: k in st.seen ==> r.seen[k] == st.seen[k]
    ensures st.events <= r.events && |r.events| <= |st.events| + 2
    ensures env.source(url) != [] && Latest(env.source(url)).link in st.seen ==>
              r.seen == st.seen && !r.halted && r.events == st.events + [Slept(cfg.rssDelay)]
    ensures env.source(url) != [] && Latest(env.source(url)).link !in st.seen ==>
              var e := Latest(env.source(url));
              var o := Send(cfg.webhooks, category, Bold(e.title), e.link, env.post);
              && r.halted == o.MissingTable?
              && r.events == st.events + [Notified(category, Bold(e.title), e.link, o)] +
                             (if r.halted then [] else [Slept(cfg.rssDelay)])
              && r.seen == (if r.halted then st.seen else st.seen[e.link := env.now])
  {
    var entries := env.source(url);
    if entries == [] then st
    else
      var e := Latest(entries);
      if e.link in st.seen then st.(events := st.events + [Slept(cfg.rssDelay)])
      else
        var o := Send(cfg.webhooks, category, Bold(e.title), e.link, env.post);
        var notified := st.events + [Notified(category, Bold(e.title), e.link, o)];
        if o.MissingTable? then st.(events := notified, halted := true)
        else PollState(st.seen[e.link := env.now], notified + [Slept(cfg.rssDelay)], false)
  }

  /** A halted task does nothing more. */
  function Step(st: PollState, cfg: Config, env: Env, category: string, url: string): PollState {
    if st.halted then st else PollFeed(st, cfg, env, category, url)
  }

  /** A halted task ends with the notification that raised for want of a webhook table. */
  ghost predicate EndsByMissingTable(st: PollState) {
    st.halted ==> |st.events| > 0 && st.events[|st.events| - 1].Notified? &&
                  st.events[|st.events| - 1].outcome.MissingTable?
  }

  /** The number of feed URLs of the categories `keys`. */
  function UrlCount(feeds: map<string, seq<string>>, keys: seq<string>): nat
    requires forall k :: k in keys ==> k in feeds
    decreases |keys|
  {
    if keys == [] then 0 else |feeds[keys[0]]| + UrlCount(feeds, keys[1..])
  }

  /**
   * The feeds of one category, in order: each adds at most a notification
   * and a pause, and the task only halts on a notification that raised.
   */
  function RunFeeds(st: PollState, cfg: Config, env: Env, category: string, urls: seq<string>): (r: PollState)
    ensures |r.events| <= |st.events| + 2 * |urls|
    ensures EndsByMissingTable(st) ==> EndsByMissingTable(r)
    decreases |urls|
  {
    if urls == [] then st else RunFeeds(Step(st, cfg, env, category, urls[0]), cfg, env, category, urls[1..])
  }

  /** The categories of `keys`, in order, with the same bounds as `RunFeeds`. */
  function RunCategories(st: PollState, cfg: Config, env: Env, keys: seq<string>): (r: PollState)
    requires forall k :: k in keys ==> k in cfg.feeds
    ensures |r.events| <= |st.events| + 2 * UrlCount(cfg.feeds, keys)
    ensures EndsByMissingTable(st) ==> EndsByMissingTable(r)
    decreases |keys|
  {
    if keys == [] then st
    else RunCategories(RunFeeds(st, cfg, env, keys[0], cfg.feeds[keys[0]]), cfg, env, keys[1..])
  }

  /**
   * One pass over all categories, then the pause between cycles (unless
   * halted): at most a notification and a pause per feed URL, one final
   * pause, and a halt only right after the notification that raised.
   */
  function Cycle(seen: map<string, string>, cfg: Config, env: Env): (r: PollState)
    requires OrderedKeys(cfg.feedKeys, cfg.feeds)
    ensures |r.events| <= 2 * UrlCount(cfg.feeds, cfg.feedKeys) + 1
    ensures EndsByMissingTable(r)
    ensures !r.halted ==> |r.events| > 0 && r.events[|r.events| - 1] == Slept(cfg.fetchInterval)
  {
    var st := RunCategories(PollState(seen, [], false), cfg, env, cfg.feedKeys);
    if st.halted then st else st.(events := st.events + [Slept(cfg.fetchInterval)])
  }

  // ---------------------------------------------------------------------
  // Facts about whole runs.

  /** `later` keeps every key of `earlier` with its value. */
  ghost predicate Keeps(earlier: map<string, string>, later: map<string, string>) {
    forall k :: k in earlier ==> k in later && later[k] == earlier[k]
  }

  /** No event is a notification. */
  ghost predicate Quiet(events: seq<Event>) {
    forall i :: 0 <= i < |events| ==> !events[i].Notified?
  }

  /** The latest link of every non-empty feed among `urls` is in `seen`. */
  ghost predicate AllSeen(env: Env, urls: seq<string>, seen: map<string, string>) {
    forall u :: u in urls && env.source(u) != [] ==> Latest(env.source(u)).link in seen
  }

  lemma {:induction false} RunFeedsHalted(st: PollState, cfg: Config, env: Env, category: string, urls: seq<string>)
    requires st.halted
    ensures RunFeeds(st, cfg, env, category, urls) == st
    decreases |urls|
  {
    if urls != [] { RunFeedsHalted(st, cfg, env, category, urls[1..]); }
  }

  lemma {:induction false} RunCategoriesHalted(st: PollState, cfg: Config, env: Env, keys: seq<string>)
    requires st.halted
    requires forall k :: k in keys ==> k in cfg.feeds
    ensures RunCategories(st, cfg, env, keys) == st
    decreases |keys|
  {
    if keys != [] {
      RunFeedsHalted(st, cfg, env, keys[0], cfg.feeds[keys[0]]);
      RunCategoriesHalted(st, cfg, env, keys[1..]);
    }
  }

  /** Feeds never remove a link from the seen map nor overwrite its time. */
  lemma {:induction false} RunFeedsKeeps(st: PollState, cfg: Config, env: Env, category: string, urls: seq<string>)
    ensures Keeps(st.seen, RunFeeds(st, cfg, env, category, urls).seen)
    ensures st.halted ==> RunFeeds(st, cfg, env, category, urls).halted
    ensures st.events <= RunFeeds(st, cfg, env, category, urls).events
    decreases |urls|
  {
    if urls != [] { RunFeedsKeeps(Step(st, cfg, env, category, urls[0]), cfg, env, category, urls[1..]); }
  }

  lemma {:induction false} RunCategoriesKeeps(st: PollState, cfg: Config, env: Env, keys: seq<string>)
    requires forall k :: k in keys ==> k in cfg.feeds
    ensures Keeps(st.seen, RunCategories(st, cfg, env, keys).seen)
    decreases |keys|
  {
    if keys != [] {
      var next := RunFeeds(st, cfg, env, keys[0], cfg.feeds[keys[0]]);
      RunFeedsKeeps(st, cfg, env, keys[0], cfg.feeds[keys[0]]);
      RunCategoriesKeeps(next, cfg, env, keys[1..]);
    }
  }

  /** A cycle never forgets a link nor changes the time recorded for it. */
  lemma CycleKeepsSeen(seen: map<string, string>, cfg: Config, env: Env)
    requires OrderedKeys(cfg.feedKeys, cfg.feeds)
    ensures Keeps(seen, Cycle(seen, cfg, env).seen)
  {
    RunCategoriesKeeps(PollState(seen, [], false), cfg, env, cfg.feedKeys);
  }

  /** A run that did not halt has recorded the latest link of every non-empty feed. */
  lemma {:induction false} RunFeedsRecords(st: PollState, cfg: Config, env: Env, category: string, urls: seq<string>)
    ensures var r := RunFeeds(st, cfg, env, category, urls);
            !r.halted ==> AllSeen(env, urls, r.seen)
    decreases |urls|
  {
    if urls != [] {
      var next := Step(st, cfg, env, category, urls[0]);
      var r := RunFeeds(next, cfg, env, category, urls[1..]);
      RunFeedsRecords(next, cfg, env, category, urls[1..]);
      RunFeedsKeeps(next, cfg, env, category, urls[1..]);
      if !r.halted {
        forall u | u in urls && env.source(u) != [] ensures Latest(env.source(u)).link in r.seen {
          if u != urls[0] { assert u in urls[1..]; }
        }
      }
    }
  }

  lemma {:induction false} RunCategoriesRecords(st: PollState, cfg: Config, env: Env, keys: seq<string>)
    requires forall k :: k in keys ==> k in cfg.feeds
    ensures var r := RunCategories(st, cfg, env, keys);
            !r.halted ==> forall k :: k in keys ==> AllSeen(env, cfg.feeds[k], r.seen)
    decreases |keys|
  {
    if keys != [] {
      var next := RunFeeds(st, cfg, env, keys[0], cfg.feeds[keys[0]]);
      var r := RunCategories(next, cfg, env, keys[1..]);
      RunFeedsRecords(st, cfg, env, keys[0], cfg.feeds[keys[0]]);
      RunCategoriesRecords(next, cfg, env, keys[1..]);
      RunCategoriesKeeps(next, cfg, env, keys[1..]);
      if !r.halted {
        if next.halted { RunCategoriesHalted(next, cfg, env, keys[1..]); }
        forall k | k in keys ensures AllSeen(env, cfg.feeds[k], r.seen) {
          if k != keys[0] { assert k in keys[1..]; }
        }
      }
    }
  }

  /**
   * After a cycle that was not halted, the latest link of every non-empty
   * feed of every category is in the seen map.
   */
  lemma CycleRecordsLatest(seen: map<string, string>, cfg: Config, env: Env)
    requires OrderedKeys(cfg.feedKeys, cfg.feeds)
    ensures var r := Cycle(seen, cfg, env);
            !r.halted ==> forall k :: k in cfg.feeds ==> AllSeen(env, cfg.feeds[k], r.seen)
  {
    RunCategoriesRecords(PollState(seen, [], false), cfg, env, cfg.feedKeys);
  }

  /** When every selected link is already seen, feeds change nothing but pause. */
  lemma {:induction false} RunFeedsQuiet(st: PollState, cfg: Config, env: Env, category: string, urls: seq<string>)
    requires AllSeen(env, urls, st.seen)
    ensures var r := RunFeeds(st, cfg, env, category, urls);
            r.seen == st.seen && r.halted == st.halted &&
            st.events <= r.events && Quiet(r.events[|st.events|..])
    decreases |urls|
  {
    if urls != [] {
      var next := Step(st, cfg, env, category, urls[0]);
      assert AllSeen(env, urls[1..], next.seen) by {
        forall u | u in urls[1..] && env.source(u) != [] ensures Latest(env.source(u)).link in next.seen {
          assert u in urls;
        }
      }
      RunFeedsQuiet(next, cfg, env, category, urls[1..]);
      var r := RunFeeds(next, cfg, env, category, urls[1..]);
      forall i | 0 <= i < |r.events[|st.events|..]| ensures !r.events[|st.events|..][i].Notified? {
        if |st.events| + i >= |next.events| {
          assert r.events[|st.events|..][i] == r.events[|next.events|..][|st.events| + i - |next.events|];
        }
      }
    } else {
      assert st.events[|st.events|..] == [];
    }
  }

  lemma {:induction false} RunCategoriesQuiet(st: PollState, cfg: Config, env: Env, keys: seq<string>)
    requires forall k :: k in keys ==> k in cfg.feeds
    requires forall k :: k in keys ==> AllSeen(env, cfg.feeds[k], st.seen)
    ensures var r := RunCategories(st, cfg, env, keys);
            r.seen == st.seen && r.halted == st.halted &&
            st.events <= r.events && Quiet(r.events[|st.events|..])
    decreases |keys|
  {
    if keys != [] {
      var next := RunFeeds(st, cfg, env, keys[0], cfg.feeds[keys[0]]);
      RunFeedsQuiet(st, cfg, env, keys[0], cfg.feeds[keys[0]]);
      RunCategoriesQuiet(next, cfg, env, keys[1..]);
      var r := RunCategories(next, cfg, env, keys[1..]);
      forall i | 0 <= i < |r.events[|st.events|..]| ensures !r.events[|st.events|..][i].Notified? {
        if |st.events| + i >= |next.events| {
          assert r.events[|st.events|..][i] == r.events[|next.events|..][|st.events| + i - |next.events|];
        } else {
          assert r.events[|st.events|..][i] == next.events[|st.events|..][i];
        }
      }
    } else {
      assert st.events[|st.events|..] == [];
    }
  }

  /**
   * Idempotence: polling again, with feeds and webhooks unchanged, after a
   * cycle that was not halted, notifies nothing and leaves the seen map as
   * it was.
   */
  lemma SecondCycleQuiet(seen: map<string, string>, cfg: Config, env: Env, env2: Env)
    requires OrderedKeys(cfg.feedKeys, cfg.feeds)
    requires env2.source == env.source
    requires !Cycle(seen, cfg, env).halted
    ensures var first := Cycle(seen, cfg, env);
            var second := Cycle(first.seen, cfg, env2);
            second.seen == first.seen && !second.halted && Quiet(second.events)
  {
    var first := Cycle(seen, cfg, env);
    CycleRecordsLatest(seen, cfg, env);
    var st := PollState(first.seen, [], false);
    forall k | k in cfg.feedKeys ensures AllSeen(env2, cfg.feeds[k], st.seen) {
      assert AllSeen(env, cfg.feeds[k], first.seen);
    }
    RunCategoriesQuiet(st, cfg, env2, cfg.feedKeys);
    var r := RunCategories(st, cfg, env2, cfg.feedKeys);
    assert r.events[0..] == r.events;
    var second := r.(events := r.events + [Slept(cfg.fetchInterval)]);
    forall i | 0 <= i < |second.events| ensures !second.events[i].Notified? {
      if i < |r.events| { assert second.events[i] == r.events[0..][i]; }
    }
  }

  /**
   * Notified links were unseen at the start, are pairwise distinct, and
   * are in the seen map unless the notifier raised.
   */
  ghost predicate AtMostOnce(st: PollState, seen0: map<string, string>) {
    && Keeps(seen0, st.seen)
    && (forall i :: 0 <= i < |st.events| && st.events[i].Notified? ==> st.events[i].link !in seen0)
    && (forall i :: 0 <= i < |st.events| && st.events[i].Notified? ==> st.events[i].link in st.seen || st.halted)
    && (forall i, j :: 0 <= i < j < |st.events| && st.events[i].Notified? && st.events[j].Notified? ==>
          st.events[i].link != st.events[j].link)
  }

  lemma PollFeedAtMostOnce(st: PollState, seen0: map<string, string>, cfg: Config, env: Env, category: string, url: string)
    requires !st.halted && AtMostOnce(st, seen0)
    ensures AtMostOnce(PollFeed(st, cfg, env, category, url), seen0)
  {
    var r := PollFeed(st, cfg, env, category, url);
    var entries := env.source(url);
    if entries != [] && Latest(entries).link !in st.seen {
      var link := Latest(entries).link;
      var n := |st.events|;
      assert r.events[n].Notified? && r.events[n].link == link;
      assert forall i :: n < i < |r.events| ==> !r.events[i].Notified?;
      forall i, j | 0 <= i < j < |r.events| && r.events[i].Notified? && r.events[j].Notified?
        ensures r.events[i].link != r.events[j].link
      {
        if j == n {
          assert r.events[i] == st.events[i];
        } else {
          assert r.events[i] == st.events[i] && r.events[j] == st.events[j];
        }
      }
      forall i | 0 <= i < |r.events| && r.events[i].Notified? ensures r.events[i].link !in seen0 {
        if i < n { assert r.events[i] == st.events[i]; }
      }
      forall i | 0 <= i < |r.events| && r.events[i].Notified? ensures r.events[i].link in r.seen || r.halted {
        if i < n { assert r.events[i] == st.events[i]; }
      }
    } else if entries != [] {
      forall i | 0 <= i < |r.events| && r.events[i].Notified? ensures i < |st.events| && r.events[i] == st.events[i] {
      }
    }
  }

  lemma {:induction false} RunFeedsAtMostOnce(st: PollState, seen0: map<string, string>, cfg: Config, env: Env,
                                              category: string, urls: seq<string>)
    requires AtMostOnce(st, seen0)
    ensures AtMostOnce(RunFeeds(st, cfg, env, category, urls), seen0)
    decreases |urls|
  {
    if urls != [] {
      if !st.halted { PollFeedAtMostOnce(st, seen0, cfg, env, category, urls[0]); }
      RunFeedsAtMostOnce(Step(st, cfg, env, category, urls[0]), seen0, cfg, env, category, urls[1..]);
    }
  }

  lemma {:induction false} RunCategoriesAtMostOnce(st: PollState, seen0: map<string, string>, cfg: Config, env: Env,
                                                   keys: seq<string>)
    requires forall k :: k in keys ==> k in cfg.feeds
    requires AtMostOnce(st, seen0)
    ensures AtMostOnce(RunCategories(st, cfg, env, keys), seen0)
    decreases |keys|
  {
    if keys != [] {
      RunFeedsAtMostOnce(st, seen0, cfg, env, keys[0], cfg.feeds[keys[0]]);
      RunCategoriesAtMostOnce(RunFeeds(st, cfg, env, keys[0], cfg.feeds[keys[0]]), seen0, cfg, env, keys[1..]);
    }
  }

  /**
   * At-most-once delivery: within a cycle the notifier is called only for
   * links that were not in the seen map, and never twice for one link.
   */
  lemma CycleNotifiesOnlyNewLinks(seen: map<string, string>, cfg: Config, env: Env)
    requires OrderedKeys(cfg.feedKeys, cfg.feeds)
    ensures var evs := Cycle(seen, cfg, env).events;
            && (forall i :: 0 <= i < |evs| && evs[i].Notified? ==> evs[i].link !in seen)
            && (forall i, j :: 0 <= i < j < |evs| && evs[i].Notified? && evs[j].Notified? ==> evs[i].link != evs[j].link)
  {
    var st := PollState(seen, [], false);
    RunCategoriesAtMostOnce(st, seen, cfg, env, cfg.feedKeys);
    var r := RunCategories(st, cfg, env, cfg.feedKeys);
    var evs := Cycle(seen, cfg, env).events;
    assert forall i :: 0 <= i < |evs| && evs[i].Notified? ==> i < |r.events| && evs[i] == r.events[i];
  }

  /** Counting notifications distributes over concatenation. */
  lemma {:induction false} NotifiedCountAppend(a: seq<Event>, b: seq<Event>)
    ensures NotifiedCount(a + b) == NotifiedCount(a) + NotifiedCount(b)
    decreases |b|
  {
    if b != [] {
      var b' := b[..|b| - 1];
      assert (a + b)[..|a + b| - 1] == a + b';
      NotifiedCountAppend(a, b');
    } else {
      assert a + b == a;
    }
  }

  /** One feed makes at most one notifier call. */
  lemma PollFeedNotifiesOnce(st: PollState, cfg: Config, env: Env, category: string, url: string)
    requires !st.halted
    ensures NotifiedCount(PollFeed(st, cfg, env, category, url).events) <= NotifiedCount(st.events) + 1
  {
    var r := PollFeed(st, cfg, env, category, url);
    var added := r.events[|st.events|..];
    assert r.events == st.events + added;
    NotifiedCountAppend(st.events, added);
    if |added| == 2 {
      assert added == [added[0]] + [added[1]];
      NotifiedCountAppend([added[0]], [added[1]]);
      assert !added[1].Notified?;
    }
    assert NotifiedCount([]) == 0;
  }

  /** A category makes at most one notifier call per feed URL. */
  lemma {:induction false} RunFeedsNotifiesOncePerUrl(st: PollState, cfg: Config, env: Env, category: string, urls: seq<string>)
    ensures NotifiedCount(RunFeeds(st, cfg, env, category, urls).events) <= NotifiedCount(st.events) + |urls|
    decreases |urls|
  {
    if urls != [] {
      if !st.halted { PollFeedNotifiesOnce(st, cfg, env, category, urls[0]); }
      RunFeedsNotifiesOncePerUrl(Step(st, cfg, env, category, urls[0]), cfg, env, category, urls[1..]);
    }
  }

  lemma {:induction false} RunCategoriesNotifiesOncePerUrl(st: PollState, cfg: Config, env: Env, keys: seq<string>)
    requires forall k :: k in keys ==> k in cfg.feeds
    ensures NotifiedCount(RunCategories(st, cfg, env, keys).events) <= NotifiedCount(st.events) + UrlCount(cfg.feeds, keys)
    decreases |keys|
  {
    if keys != [] {
      RunFeedsNotifiesOncePerUrl(st, cfg, env, keys[0], cfg.feeds[keys[0]]);
      RunCategoriesNotifiesOncePerUrl(RunFeeds(st, cfg, env, keys[0], cfg.feeds[keys[0]]), cfg, env, keys[1..]);
    }
  }

  /** A cycle makes at most as many notifier calls as there are feed URLs. */
  lemma CycleNotifiesOncePerUrl(seen: map<string, string>, cfg: Config, env: Env)
    requires OrderedKeys(cfg.feedKeys, cfg.feeds)
    ensures NotifiedCount(Cycle(seen, cfg, env).events) <= UrlCount(cfg.feeds, cfg.feedKeys)
  {
    var st := RunCategories(PollState(seen, [], false), cfg, env, cfg.feedKeys);
    RunCategoriesNotifiesOncePerUrl(PollState(seen, [], false), cfg, env, cfg.feedKeys);
    NotifiedCountAppend(st.events, [Slept(cfg.fetchInterval)]);
    assert [Slept(cfg.fetchInterval)][..0] == [];
  }

  // ---------------------------------------------------------------------
  // What a notification carries, and concrete runs.

  /**
   * The poller bolds the title before handing it to the notifier, which
   * bolds it again: the posted content wraps the title in four asterisks.
   */
  lemma PostedTitleBoldedTwice(st: PollState, cfg: Config, env: Env, category: string, url: string)
    requires !st.halted && env.source(url) != [] && Latest(env.source(url)).link !in st.seen
    ensures var e := Latest(env.source(url));
            var o := PollFeed(st, cfg, env, category, url).events[|st.events|].outcome;
            o.Posted? ==> o.payload.content == "****" + e.title + "****\n" + e.link
  {
    var e := Latest(env.source(url));
    assert "**" + Bold(e.title) + "**\n" + e.link == "****" + e.title + "****\n" + e.link;
  }

  /** A configuration of one category with one feed URL, polled from an empty seen map. */
  lemma OneFeedCycle(cfg: Config, env: Env, category: string, url: string, e: Entry)
    requires cfg.feedKeys == [category] && cfg.feeds == map[category := [url]]
    requires env.source(url) == [e]
    ensures var o := Send(cfg.webhooks, category, Bold(e.title), e.link, env.post);
            var notified := Notified(category, Bold(e.title), e.link, o);
            Cycle(map[], cfg, env) ==
              if o.MissingTable? then PollState(map[], [notified], true)
              else PollState(map[e.link := env.now], [notified, Slept(cfg.rssDelay), Slept(cfg.fetchInterval)], false)
  {
    var st := PollState(map[], [], false);
    assert [category][1..] == [] && [url][1..] == [];
    assert Latest([e]) == e by { assert LatestIndex([e]) == 0; }
    var r := PollFeed(st, cfg, env, category, url);
    assert RunFeeds(st, cfg, env, category, [url]) == RunFeeds(r, cfg, env, category, []) == r;
    assert RunCategories(st, cfg, env, [category]) == RunCategories(r, cfg, env, []) == r;
  }

  /**
   * At-most-once delivery: an unseen entry whose POST was not acknowledged
   * (any status but 204) is recorded as seen all the same, so it is never
   * retried.
   */
  lemma FailedDeliveryStillRecorded(st: PollState, cfg: Config, env: Env, category: string, url: string)
    requires !st.halted && env.source(url) != [] && Latest(env.source(url)).link !in st.seen
    ensures var e := Latest(env.source(url));
            var r := PollFeed(st, cfg, env, category, url);
            var o := r.events[|st.events|].outcome;
            o.Posted? && !o.Delivered() ==> !r.halted && e.link in r.seen && r.seen[e.link] == env.now
  {
  }

  /**
   * A category with a webhook and one feed with one entry: the first cycle
   * posts the entry and records it; a second cycle posts nothing.
   */
  lemma SingleFeedScenario(cfg: Config, env: Env, category: string, hook: string, url: string, e: Entry)
    requires cfg.feedKeys == [category] && cfg.feeds == map[category := [url]]
    requires cfg.webhooks == Some(map[category := hook]) && hook != ""
    requires env.source(url) == [e]
    ensures var first := Cycle(map[], cfg, env);
            var p := BuildPayload(category, Bold(e.title), e.link);
            && first.events == [Notified(category, Bold(e.title), e.link, Posted(hook, p, env.post(hook, p))),
                                Slept(cfg.rssDelay), Slept(cfg.fetchInterval)]
            && first.seen == map[e.link := env.now]
            && !first.halted
    ensures var second := Cycle(Cycle(map[], cfg, env).seen, cfg, env);
            second.seen == Cycle(map[], cfg, env).seen && Quiet(second.events)
  {
    OneFeedCycle(cfg, env, category, url, e);
    SecondCycleQuiet(map[], cfg, env, env);
  }

  /**
   * A category without a webhook: nothing is posted, and the entry is
   * recorded as seen all the same.
   */
  lemma NoWebhookScenario(cfg: Config, env: Env, category: string, url: string, e: Entry)
    requires cfg.feedKeys == [category] && cfg.feeds == map[category := [url]]
    requires cfg.webhooks.Some? && category !in cfg.webhooks.value
    requires env.source(url) == [e]
    ensures Cycle(map[], cfg, env).events ==
              [Notified(category, Bold(e.title), e.link, NoWebhook), Slept(cfg.rssDelay), Slept(cfg.fetchInterval)]
    ensures Cycle(map[], cfg, env).seen == map[e.link := env.now]
  {
    OneFeedCycle(cfg, env, category, url, e);
  }

  /**
   * DEFAULT_CONFIG has no "webhooks" key: once a feed is added, the first
   * unseen entry makes the notifier raise, the polling task ends and the
   * entry is not recorded.
   */
  lemma DefaultConfigHaltsPolling(env: Env, category: string, url: string, e: Entry)
    requires env.source(url) == [e]
    ensures var cfg := DefaultConfig.(feedKeys := [category], feeds := map[category := [url]]);
            Cycle(map[], cfg, env) == PollState(map[], [Notified(category, Bold(e.title), e.link, MissingTable)], true)
  {
    OneFeedCycle(DefaultConfig.(feedKeys := [category], feeds := map[category := [url]]), env, category, url, e);
  }
}
