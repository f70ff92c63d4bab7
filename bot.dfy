/**
 * The bot's mutable state (the globals `config` and `seen_entries` of
 * `bot.py`) and the two things that change it: one cycle of the feed
 * poller, and the handler of operator messages.
 */
module Bot {
  import opened Wrappers
  import opened Text
  import opened Feed
  import opened Webhook
  import opened Configuration
  import opened Poll
  import opened Commands

  class RssBot {
    var channels: map<string, int>
    var feedKeys: seq<string>
    var feeds: map<string, seq<string>>
    var webhooks: Option<map<string, string>>
    var fetchInterval: int
    var rssDelay: int
    var seen: map<string, string>

    /** The categories of `feeds` are listed once each, in insertion order, by `feedKeys`. */
    ghost predicate Valid()
      reads this
    {
      OrderedKeys(feedKeys, feeds)
    }

    /** The configuration as the JSON object it is saved as. */
    function Settings(): Config
      reads this
    {
      Config(channels, feedKeys, feeds, webhooks, fetchInterval, rssDelay)
    }

    /**
     * Startup: the configuration and the seen map read from their files,
     * or DEFAULT_CONFIG and an empty map when a file does not exist.
     */
    constructor Load(storedConfig: Option<Config>, storedSeen: Option<map<string, string>>)
      requires storedConfig.Some? ==> OrderedKeys(storedConfig.value.feedKeys, storedConfig.value.feeds)
      ensures Valid()
      ensures Settings() == (if storedConfig.Some? then storedConfig.value else DefaultConfig)
      ensures seen == (if storedSeen.Some? then storedSeen.value else map[])
    {
      var cfg := if storedConfig.Some? then storedConfig.value else DefaultConfig;
      channels, feedKeys, feeds := cfg.channels, cfg.feedKeys, cfg.feeds;
      webhooks, fetchInterval, rssDelay := cfg.webhooks, cfg.fetchInterval, cfg.rssDelay;
      seen := if storedSeen.Some? then storedSeen.value else map[];
    }

    /**
     * One pass of the poller's loop: every feed of every category, in
     * order, then the pause between cycles. `halted` reports that the
     * notifier raised and ended the polling task.
     */
    method FetchCycle(env: Env) returns (events: seq<Event>, halted: bool)
      requires Valid()
      modifies this`seen
      ensures Valid()
      ensures PollState(seen, events, halted) == Cycle(old(seen), Settings(), env)
    {
      ghost var cfg := Settings();
      ghost var final := RunCategories(PollState(seen, [], false), cfg, env, feedKeys);
      events, halted := [], false;
      var i := 0;
      while i < |feedKeys|
        invariant 0 <= i <= |feedKeys|
        invariant RunCategories(PollState(seen, events, false), cfg, env, feedKeys[i..]) == final
      {
        assert feedKeys[i..][1..] == feedKeys[i + 1..];
        events, halted := PollCategory(env, feedKeys[i], feeds[feedKeys[i]], events);
        if halted {
          // The KeyError propagates out of the polling task.
          RunCategoriesHalted(PollState(seen, events, true), cfg, env, feedKeys[i + 1..]);
          return;
        }
        i := i + 1;
      }
      events := events + [Slept(fetchInterval)];
    }

    /**
     * The inner loop over the feed URLs of one category, stopping as soon
     * as the notifier raises.
     */
    method PollCategory(env: Env, category: string, urls: seq<string>, events0: seq<Event>)
      returns (events: seq<Event>, halted: bool)
      requires Valid()
      modifies this`seen
      ensures Valid()
      ensures PollState(seen, events, halted) == RunFeeds(PollState(old(seen), events0, false), Settings(), env, category, urls)
    {
      ghost var cfg := Settings();
      ghost var final := RunFeeds(PollState(seen, events0, false), cfg, env, category, urls);
      events, halted := events0, false;
      assert urls[0..] == urls;
      var j := 0;
      while j < |urls|
        invariant 0 <= j <= |urls|
        invariant Settings() == cfg
        invariant RunFeeds(PollState(seen, events, false), cfg, env, category, urls[j..]) == final
      {
        assert urls[j..][1..] == urls[j + 1..];
        events, halted := PollUrl(env, category, urls[j], events);
        if halted {
          RunFeedsHalted(PollState(seen, events, true), cfg, env, category, urls[j + 1..]);
          return;
        }
        j := j + 1;
      }
      assert urls[j..] == [];
    }

    /**
     * The body of the inner loop for one feed URL: the newest entry, if
     * unseen, goes to the notifier and is recorded; a non-empty feed is
     * followed by the pause between feeds. `halted` reports that the
     * notifier raised.
     */
    method PollUrl(env: Env, category: string, url: string, events0: seq<Event>)
      returns (events: seq<Event>, halted: bool)
      requires Valid()
      modifies this`seen
      ensures Valid()
      ensures PollState(seen, events, halted) == PollFeed(PollState(old(seen), events0, false), Settings(), env, category, url)
    {
      events, halted := events0, false;
      var entries := env.source(url);
      if entries != [] {
        var sorted := SortDesc(entries);
        LatestIsHeadOfSort(entries);
        var latest := sorted[0];
        if latest.link !in seen {
          var title := Bold(latest.title);
          var outcome := Send(webhooks, category, title, latest.link, env.post);
          events := events + [Notified(category, title, latest.link, outcome)];
          if outcome.MissingTable? {
            halted := true;
            return;
          }
          seen := seen[latest.link := env.now];
        }
        events := events + [Slept(rssDelay)];
      }
    }

    /** `!setchannel category`. */
    method DoSetChannel(category: string, channelId: int) returns (reply: string)
      requires Valid()
      modifies this`channels
      ensures Valid()
      ensures (Settings(), Some(reply)) == Handle(old(Settings()), SetChannel(category), channelId)
    {
      channels := channels[category := channelId];
      reply := SetChannelReply(category);
    }

    /** `!addrss category url`. */
    method DoAddRss(category: string, url: string) returns (reply: string)
      requires Valid()
      modifies this`feedKeys, this`feeds
      ensures Valid()
      ensures (Settings(), Some(reply)) == Handle(old(Settings()), AddRss(category, url), 0)
    {
      ghost var before := FeedsOf(feeds, category);
      if category !in feeds {
        feeds := feeds[category := []];
        feedKeys := feedKeys + [category];
      }
      assert feeds[category] == before;
      if url !in feeds[category] {
        feeds := feeds[category := feeds[category] + [url]];
        reply := AddedReply(category, url);
      } else {
        reply := AlreadyAddedReply;
      }
      assert feeds[category] == AppendIfAbsent(before, url);
      ghost var h := Handle(old(Settings()), AddRss(category, url), 0);
      assert h.0.feeds == feeds;
      assert h.0.feedKeys == feedKeys;
      assert h.0.channels == channels;
      assert h.1 == Some(reply);
    }

    /** `!removerss category url`. */
    method DoRemoveRss(category: string, url: string) returns (reply: string)
      requires Valid()
      modifies this`feeds
      ensures Valid()
      ensures (Settings(), Some(reply)) == Handle(old(Settings()), RemoveRss(category, url), 0)
    {
      if category in feeds && url in feeds[category] {
        feeds := feeds[category := RemoveFirst(feeds[category], url)];
        reply := RemovedReply(category, url);
      } else {
        reply := NotFoundReply;
      }
    }

    /** `!listrss`: the listing is built one category at a time. */
    method DoListRss() returns (reply: string)
      requires Valid()
      ensures reply == ListReply(feedKeys, feeds)
    {
      if |feedKeys| == 0 {
        return NoFeedsReply;
      }
      reply := ListingHeader;
      var i := 0;
      while i < |feedKeys|
        invariant 0 <= i <= |feedKeys|
        invariant reply == Listing(feedKeys[..i], feeds)
      {
        var category := feedKeys[i];
        reply := reply + Section(category, feeds[category]);
        assert feedKeys[..i + 1][..i] == feedKeys[..i];
        i := i + 1;
      }
      assert feedKeys[..i] == feedKeys;
    }

    /**
     * `on_message`: the message text is split into tokens and dispatched;
     * the reply, if any, is what the bot sends back to the channel.
     */
    method OnMessage(content: string, fromSelf: bool, channelId: int) returns (reply: Option<string>)
      requires Valid()
      modifies this`channels, this`feedKeys, this`feeds
      ensures Valid()
      ensures (Settings(), reply) == Handle(old(Settings()), Parse(Split(content), fromSelf), channelId)
    {
      var parts := Split(content);
      var command := Parse(parts, fromSelf);
      match command {
        case Ignore =>
          reply := None;
        case SetChannel(category) =>
          var text := DoSetChannel(category, channelId);
          reply := Some(text);
        case AddRss(category, url) =>
          var text := DoAddRss(category, url);
          reply := Some(text);
        case RemoveRss(category, url) =>
          var text := DoRemoveRss(category, url);
          reply := Some(text);
        case ListRss =>
          var text := DoListRss();
          reply := Some(text);
      }
    }
  }
}
