/**
 * The pure parts of the operator commands: which command a message is,
 * the list edits of `!addrss` and `!removerss`, and the texts of the
 * replies, including the `!listrss` listing.
 */
module Commands {
  import opened Wrappers
  import opened Text
  import opened Configuration

  /** What `on_message` decides to do with a message. */
  datatype Command =
    | SetChannel(category: string)
    | AddRss(category: string, url: string)
    | RemoveRss(category: string, url: string)
    | ListRss
    | Ignore

  /**
   * The dispatch of `on_message` on the whitespace-separated tokens of a
   * message: the bot's own messages and messages of fewer than two tokens
   * are ignored; `!setchannel` takes exactly one argument, `!addrss` and
   * `!removerss` exactly two, `!listrss` any number of at least one.
   */
  function Parse(parts: seq<string>, fromSelf: bool): (cmd: Command)
    ensures fromSelf || |parts| < 2 ==> cmd.Ignore?
    ensures cmd.SetChannel? ==> |parts| == 2 && parts[0] == "!setchannel" && cmd.category == parts[1]
    ensures cmd.AddRss? ==> |parts| == 3 && parts[0] == "!addrss" && cmd.category == parts[1] && cmd.url == parts[2]
    ensures cmd.RemoveRss? ==> |parts| == 3 && parts[0] == "!removerss" && cmd.category == parts[1] && cmd.url == parts[2]
    ensures cmd.ListRss? ==> |parts| >= 2 && parts[0] == "!listrss"
    ensures !fromSelf && |parts| == 2 && parts[0] == "!setchannel" ==> cmd == SetChannel(parts[1])
    ensures !fromSelf && |parts| == 3 && parts[0] == "!addrss" ==> cmd == AddRss(parts[1], parts[2])
    ensures !fromSelf && |parts| == 3 && parts[0] == "!removerss" ==> cmd == RemoveRss(parts[1], parts[2])
    ensures !fromSelf && |parts| >= 2 && parts[0] == "!listrss" ==> cmd == ListRss
  {
    if fromSelf || |parts| < 2 then Ignore
    else if parts[0] == "!setchannel" && |parts| == 2 then SetChannel(parts[1])
    else if parts[0] == "!addrss" && |parts| == 3 then AddRss(parts[1], parts[2])
    else if parts[0] == "!removerss" && |parts| == 3 then RemoveRss(parts[1], parts[2])
    else if parts[0] == "!listrss" then ListRss
    else Ignore
  }

  /** A token of printable ASCII characters other than the space is a word. */
  lemma PrintableIsWord(w: string)
    requires w != [] && forall i :: 0 <= i < |w| ==> '!' <= w[i] <= '~'
    ensures IsWord(w)
  {
  }

  /** `!setchannel <category>`, typed with single spaces, is recognised. */
  lemma ParseSetChannel(category: string)
    requires IsWord(category)
    ensures Parse(Split(Join(["!setchannel", category], " ")), false) == SetChannel(category)
  {
    PrintableIsWord("!setchannel");
    SplitJoin(["!setchannel", category]);
  }

  /** `!addrss <category> <url>`, typed with single spaces, is recognised. */
  lemma ParseAddRss(category: string, url: string)
    requires IsWord(category) && IsWord(url)
    ensures Parse(Split(Join(["!addrss", category, url], " ")), false) == AddRss(category, url)
  {
    PrintableIsWord("!addrss");
    SplitJoin(["!addrss", category, url]);
  }

  /** `!removerss <category> <url>`, typed with single spaces, is recognised. */
  lemma ParseRemoveRss(category: string, url: string)
    requires IsWord(category) && IsWord(url)
    ensures Parse(Split(Join(["!removerss", category, url], " ")), false) == RemoveRss(category, url)
  {
    PrintableIsWord("!removerss");
    SplitJoin(["!removerss", category, url]);
  }

  /** `!listrss` needs a second token, whatever it is; alone it is ignored. */
  lemma ParseListRss(other: string)
    requires IsWord(other)
    ensures Parse(Split(Join(["!listrss", other], " ")), false) == ListRss
    ensures Parse(Split(Join(["!listrss"], " ")), false) == Ignore
  {
    PrintableIsWord("!listrss");
    SplitJoin(["!listrss", other]);
    SplitJoin(["!listrss"]);
  }

  // ---------------------------------------------------------------------
  // Editing a category's list of feed URLs.

  /** The feed list of a category; a category without one has none. */
  function FeedsOf(feeds: map<string, seq<string>>, category: string): seq<string> {
    if category in feeds then feeds[category] else []
  }

  /** `!addrss`: the URL is appended unless the list already holds it. */
  function AppendIfAbsent(urls: seq<string>, url: string): (r: seq<string>)
    ensures url in r
    ensures urls <= r && |r| <= |urls| + 1
    ensures url in urls ==> r == urls
    ensures url !in urls ==> r == urls + [url]
  {
    if url in urls then urls else urls + [url]
  }

  /** An added URL never creates a duplicate. */
  lemma AppendIfAbsentNoDuplicates(urls: seq<string>, url: string)
    requires NoDuplicates(urls)
    ensures NoDuplicates(AppendIfAbsent(urls, url))
  {
    var r := AppendIfAbsent(urls, url);
    if url !in urls {
      forall i, j | 0 <= i < j < |r| ensures r[i] != r[j] {
        if j == |urls| { assert r[i] == urls[i]; }
      }
    }
  }

  /** Position of the first occurrence of `url` in `urls`. */
  function FirstIndex(urls: seq<string>, url: string): (i: nat)
    requires url in urls
    ensures i < |urls| && urls[i] == url && url !in urls[..i]
  {
    if urls[0] == url then 0
    else
      var i := 1 + FirstIndex(urls[1..], url);
      assert urls[..i] == [urls[0]] + urls[1..][..i - 1];
      i
  }

  /** `list.remove(url)`: drops the first occurrence of `url`, if any. */
  function RemoveFirst(urls: seq<string>, url: string): (r: seq<string>)
    ensures url !in urls ==> r == urls
    ensures url in urls ==> r == urls[..FirstIndex(urls, url)] + urls[FirstIndex(urls, url) + 1..]
  {
    if urls == [] then []
    else if urls[0] == url then urls[1..]
    else
      var rest := RemoveFirst(urls[1..], url);
      assert url in urls ==> url in urls[1..];
      assert urls == [urls[0]] + urls[1..];
      [urls[0]] + rest
  }

  /** Removing one URL keeps a list free of duplicates, and the URL is then gone. */
  lemma RemoveFirstNoDuplicates(urls: seq<string>, url: string)
    requires NoDuplicates(urls)
    ensures NoDuplicates(RemoveFirst(urls, url))
    ensures url !in RemoveFirst(urls, url)
  {
    if url in urls {
      var i := FirstIndex(urls, url);
      var r := RemoveFirst(urls, url);
      assert |r| == |urls| - 1;
      assert forall a :: 0 <= a < i ==> r[a] == urls[a];
      assert forall a :: i <= a < |r| ==> r[a] == urls[a + 1];
      forall a, b | 0 <= a < b < |r| ensures r[a] != r[b] {
        var a', b' := if a < i then a else a + 1, if b < i then b else b + 1;
        assert r[a] == urls[a'] && r[b] == urls[b'];
      }
      forall k | 0 <= k < |r| ensures r[k] != url {
        var k' := if k < i then k else k + 1;
        assert r[k] == urls[k'] && k' != i;
      }
    }
  }

  /** Removal takes exactly one copy of a present URL out of the list. */
  lemma {:induction false} RemoveFirstCount(urls: seq<string>, url: string)
    ensures multiset(RemoveFirst(urls, url)) == multiset(urls) - multiset{url}
    decreases |urls|
  {
    if urls != [] {
      assert urls == [urls[0]] + urls[1..];
      if urls[0] != url {
        RemoveFirstCount(urls[1..], url);
        assert RemoveFirst(urls, url) == [urls[0]] + RemoveFirst(urls[1..], url);
      }
    }
  }

  /** `!removerss` undoes an `!addrss` that added the URL. */
  lemma RemoveUndoesAppend(urls: seq<string>, url: string)
    requires url !in urls
    ensures RemoveFirst(AppendIfAbsent(urls, url), url) == urls
  {
    var r := urls + [url];
    assert r[..|urls|] == urls;
  }

  // ---------------------------------------------------------------------
  // Replies.

  const Check := "\U{2705}"
  const Warning := "\U{26A0}\U{FE0F}"

  function SetChannelReply(category: string): string {
    Check + " RSS updates for **" + category + "** will be sent here."
  }

  function AddedReply(category: string, url: string): string {
    Check + " RSS feed added to **" + category + "**: " + url
  }

  const AlreadyAddedReply := Warning + " This RSS feed is already added."

  function RemovedReply(category: string, url: string): string {
    Check + " RSS feed removed from **" + category + "**: " + url
  }

  const NotFoundReply := Warning + " RSS feed not found in this category."

  const NoFeedsReply := Warning + " No RSS feeds added."

  const ListingHeader := "\U{1F4DC} **RSS Feeds by Category:**\n"

  /** One bullet line per feed URL. */
  function Bullets(urls: seq<string>): (r: seq<string>)
    ensures |r| == |urls|
    ensures forall i :: 0 <= i < |urls| ==> r[i] == "\U{1F539} " + urls[i]
  {
    seq(|urls|, i requires 0 <= i < |urls| => "\U{1F539} " + urls[i])
  }

  /** The block one category adds to the listing. */
  function Section(category: string, urls: seq<string>): (r: string)
    ensures "\n**" + category + ":**\n" <= r
  {
    "\n**" + category + ":**\n" + Join(Bullets(urls), "\n")
  }

  /** The header followed by the sections of `keys`, in order. */
  function Listing(keys: seq<string>, feeds: map<string, seq<string>>): (r: string)
    requires forall k :: k in keys ==> k in feeds
    ensures ListingHeader <= r
    decreases |keys|
  {
    if keys == [] then ListingHeader
    else
      var prefix := Listing(keys[..|keys| - 1], feeds);
      var r := prefix + Section(keys[|keys| - 1], feeds[keys[|keys| - 1]]);
      assert r[..|ListingHeader|] == prefix[..|ListingHeader|];
      r
  }

  /** The reply to `!listrss`: a warning when no category exists, the listing otherwise. */
  function ListReply(keys: seq<string>, feeds: map<string, seq<string>>): (r: string)
    requires forall k :: k in keys ==> k in feeds
    ensures keys == [] <==> r == NoFeedsReply
    ensures keys != [] ==> ListingHeader <= r
  {
    if keys == [] then NoFeedsReply else Listing(keys, feeds)
  }

  lemma {:induction false} JoinShowsParts(parts: seq<string>, sep: string, i: nat)
    requires i < |parts|
    ensures Infix(parts[i], Join(parts, sep))
    decreases |parts|
  {
    if |parts| == 1 {
      InfixSelf(parts[0], "", "");
      assert "" + parts[0] + "" == parts[0];
    } else if i == 0 {
      InfixSelf(parts[0], "", sep + Join(parts[1..], sep));
      assert "" + parts[0] + (sep + Join(parts[1..], sep)) == Join(parts, sep);
    } else {
      JoinShowsParts(parts[1..], sep, i - 1);
      InfixExtend(parts[i], Join(parts[1..], sep), parts[0] + sep, "");
      assert parts[0] + sep + Join(parts[1..], sep) + "" == Join(parts, sep);
    }
  }

  /** A section shows its category's heading and a bullet for each of its URLs. */
  lemma SectionShows(category: string, urls: seq<string>, url: string)
    requires url in urls
    ensures Infix("\n**" + category + ":**\n", Section(category, urls))
    ensures Infix("\U{1F539} " + url, Section(category, urls))
  {
    var heading := "\n**" + category + ":**\n";
    var body := Join(Bullets(urls), "\n");
    assert Section(category, urls) == heading + body;
    var i :| 0 <= i < |urls| && urls[i] == url;
    JoinShowsParts(Bullets(urls), "\n", i);
    InfixExtend("\U{1F539} " + url, body, heading, "");
    assert heading + body + "" == heading + body;
    InfixSelf(heading, "", body);
    assert "" + heading + body == heading + body;
  }

  /** The listing names every category and shows a bullet for each of its feed URLs. */
  lemma {:induction false} ListingShowsEveryFeed(keys: seq<string>, feeds: map<string, seq<string>>, k: string, url: string)
    requires forall c :: c in keys ==> c in feeds
    requires k in keys && url in feeds[k]
    ensures Infix("\n**" + k + ":**\n", Listing(keys, feeds))
    ensures Infix("\U{1F539} " + url, Listing(keys, feeds))
    decreases |keys|
  {
    var last := keys[|keys| - 1];
    var prefix := Listing(keys[..|keys| - 1], feeds);
    var section := Section(last, feeds[last]);
    assert Listing(keys, feeds) == prefix + section;
    if k == last {
      SectionShows(k, feeds[k], url);
      InfixExtend("\n**" + k + ":**\n", section, prefix, "");
      InfixExtend("\U{1F539} " + url, section, prefix, "");
    } else {
      assert k in keys[..|keys| - 1];
      ListingShowsEveryFeed(keys[..|keys| - 1], feeds, k, url);
      InfixExtend("\n**" + k + ":**\n", prefix, "", section);
      InfixExtend("\U{1F539} " + url, prefix, "", section);
    }
    assert prefix + section + "" == "" + prefix + section == prefix + section;
  }

  // ---------------------------------------------------------------------
  // The effect of a command on the configuration.

  /** Every category's list of feed URLs is free of duplicates. */
  ghost predicate FeedListsDistinct(feeds: map<string, seq<string>>) {
    forall k :: k in feeds ==> NoDuplicates(feeds[k])
  }

  /**
   * `on_message` once the command is known: the new configuration and the
   * reply sent to the channel, if any. Only `channels`, `feedKeys` and
   * `feeds` can change, and the key order stays consistent.
   */
  function Handle(cfg: Config, cmd: Command, channelId: int): (r: (Config, Option<string>))
    requires OrderedKeys(cfg.feedKeys, cfg.feeds)
    ensures OrderedKeys(r.0.feedKeys, r.0.feeds)
    ensures r.0.webhooks == cfg.webhooks && r.0.fetchInterval == cfg.fetchInterval && r.0.rssDelay == cfg.rssDelay
    ensures cfg.feedKeys <= r.0.feedKeys && |r.0.feedKeys| <= |cfg.feedKeys| + 1
    ensures r.1.None? <==> cmd.Ignore?
  {
    match cmd
    case Ignore => (cfg, None)
    case SetChannel(c) => (cfg.(channels := cfg.channels[c := channelId]), Some(SetChannelReply(c)))
    case AddRss(c, u) =>
      var urls := FeedsOf(cfg.feeds, c);
      var keys := if c in cfg.feeds then cfg.feedKeys else cfg.feedKeys + [c];
      assert NoDuplicates(keys);
      (cfg.(feedKeys := keys, feeds := cfg.feeds[c := AppendIfAbsent(urls, u)]),
       Some(if u in urls then AlreadyAddedReply else AddedReply(c, u)))
    case RemoveRss(c, u) =>
      if c in cfg.feeds && u in cfg.feeds[c] then
        (cfg.(feeds := cfg.feeds[c := RemoveFirst(cfg.feeds[c], u)]), Some(RemovedReply(c, u)))
      else (cfg, Some(NotFoundReply))
    case ListRss => (cfg, Some(ListReply(cfg.feedKeys, cfg.feeds)))
  }

  /**
   * Nothing else changes: a command touches at most the channel or the
   * feed list of the category it names; `!listrss` and ignored messages
   * touch nothing.
   */
  lemma HandleTouchesOnlyItsCategory(cfg: Config, cmd: Command, channelId: int, k: string)
    requires OrderedKeys(cfg.feedKeys, cfg.feeds)
    requires !(cmd.SetChannel? || cmd.AddRss? || cmd.RemoveRss?) || k != cmd.category
    ensures var next := Handle(cfg, cmd, channelId).0;
            && (k in next.channels <==> k in cfg.channels)
            && (k in cfg.channels ==> next.channels[k] == cfg.channels[k])
            && (k in next.feeds <==> k in cfg.feeds)
            && (k in cfg.feeds ==> next.feeds[k] == cfg.feeds[k])
  {
  }

  /** `!setchannel c` binds `c` to the channel the command was typed in. */
  lemma SetChannelBinds(cfg: Config, c: string, channelId: int)
    requires OrderedKeys(cfg.feedKeys, cfg.feeds)
    ensures var next := Handle(cfg, SetChannel(c), channelId).0;
            c in next.channels && next.channels[c] == channelId &&
            next.feedKeys == cfg.feedKeys && next.feeds == cfg.feeds
  {
  }

  /**
   * `!addrss c u`: afterwards `c` has a list holding `u`, grown by `u` at
   * its end if it lacked it and unchanged otherwise; a new category goes
   * last in the key order.
   */
  lemma AddRssEffect(cfg: Config, c: string, u: string, channelId: int)
    requires OrderedKeys(cfg.feedKeys, cfg.feeds)
    ensures var (next, reply) := Handle(cfg, AddRss(c, u), channelId);
            var before := FeedsOf(cfg.feeds, c);
            && c in next.feeds && u in next.feeds[c]
            && next.feeds[c] == (if u in before then before else before + [u])
            && next.feedKeys == (if c in cfg.feeds then cfg.feedKeys else cfg.feedKeys + [c])
            && next.channels == cfg.channels
            && reply == Some(if u in before then AlreadyAddedReply else AddedReply(c, u))
  {
  }

  /**
   * `!removerss c u`: when `c` lists `u`, its first occurrence is dropped
   * (the category stays, even if its list becomes empty); otherwise nothing
   * changes and the reply says the feed was not found.
   */
  lemma RemoveRssEffect(cfg: Config, c: string, u: string, channelId: int)
    requires OrderedKeys(cfg.feedKeys, cfg.feeds)
    ensures var (next, reply) := Handle(cfg, RemoveRss(c, u), channelId);
            && next.channels == cfg.channels
            && next.feedKeys == cfg.feedKeys
            && (c in cfg.feeds && u in cfg.feeds[c] ==>
                  next.feeds == cfg.feeds[c := RemoveFirst(cfg.feeds[c], u)] && reply == Some(RemovedReply(c, u)))
            && (!(c in cfg.feeds && u in cfg.feeds[c]) ==> next == cfg && reply == Some(NotFoundReply))
  {
  }

  /** Commands never give a category's feed list a duplicate. */
  lemma HandleKeepsListsDistinct(cfg: Config, cmd: Command, channelId: int)
    requires OrderedKeys(cfg.feedKeys, cfg.feeds)
    requires FeedListsDistinct(cfg.feeds)
    ensures FeedListsDistinct(Handle(cfg, cmd, channelId).0.feeds)
  {
    match cmd
    case AddRss(c, u) =>
      AppendIfAbsentNoDuplicates(FeedsOf(cfg.feeds, c), u);
    case RemoveRss(c, u) =>
      if c in cfg.feeds && u in cfg.feeds[c] { RemoveFirstNoDuplicates(cfg.feeds[c], u); }
    case _ =>
  }

  /**
   * `!removerss c u` right after an `!addrss c u` that added `u` restores
   * the category's list (a category the add created stays, empty).
   */
  lemma RemoveRssUndoesAddRss(cfg: Config, c: string, u: string, channelId: int)
    requires OrderedKeys(cfg.feedKeys, cfg.feeds)
    requires u !in FeedsOf(cfg.feeds, c)
    ensures var added := Handle(cfg, AddRss(c, u), channelId).0;
            var (removed, reply) := Handle(added, RemoveRss(c, u), channelId);
            && removed.feeds == cfg.feeds[c := FeedsOf(cfg.feeds, c)]
            && reply == Some(RemovedReply(c, u))
  {
    RemoveUndoesAppend(FeedsOf(cfg.feeds, c), u);
  }
}
