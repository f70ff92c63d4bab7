# RSS feed relay bot — a Dafny model

`bot.py` is a Discord bot that relays RSS feeds to Discord webhooks. Its
feeds are grouped by category. A background task polls every feed of every
category in turn. For each feed it picks the newest entry. If the entry's
link is not yet in the seen map, the task posts it to the category's webhook
and records the link with the current time. Operators edit the configuration
with four chat commands: `!setchannel`, `!addrss`, `!removerss` and
`!listrss`.

This project models that core:

- `Feed` (feed.dfy): feed entries and the choice of a feed's latest entry.
  `LatestIndex` picks the first entry of greatest publication time, and a
  missing time ranks lowest. A stable descending insertion sort (`SortDesc`)
  is the reference for Python's `sorted(..., reverse=True)`. A lemma proves
  that its head is the entry `LatestIndex` picks.
- `Webhook` (webhook.dfy): `send_webhook` as the function `Send`. It covers
  the missing webhook table, the missing or empty URL, and the payload
  `{username, content}`. The HTTP status is an input.
- `Poll` (poll.dfy): the body of the polling loop as functions. `PollFeed`
  handles one feed, `RunFeeds` one category and `RunCategories` all
  categories in order. `Cycle` adds the pause between cycles. The lemmas
  cover these properties of a cycle:
  - it never forgets or re-times a seen link;
  - it records every feed's latest link;
  - it notifies only links that were unseen, each at most once;
  - a second cycle over the same feeds notifies nothing.
  The effects are a list of events: notifier calls with their outcomes, and
  the pauses (`rss_delay` after each non-empty feed, `fetch_interval` at the
  end of the cycle).
- `Commands` (commands.dfy): the pure parts of `on_message`.
  - `Parse` is the command dispatch on the message's tokens.
  - `AppendIfAbsent` models `!addrss` and `RemoveFirst` models `list.remove`.
  - `ListReply` is the reply text of `!listrss`.
  - `Handle` gives a command's effect on the configuration.
- `Bot` (bot.dfy): the class `RssBot`. Its fields are the globals `config`
  and `seen_entries` of `bot.py`. `FetchCycle` runs the loop over
  categories, `PollCategory` the loop over a category's URLs and `PollUrl`
  one URL. They update `seen` in place and are proved equal to `Poll.Cycle`,
  `Poll.RunFeeds` and `Poll.PollFeed`. `OnMessage` and its per-command methods update `channels`,
  `feedKeys` and `feeds` in place. They are proved equal to
  `Commands.Handle`. `DoListRss` builds the listing in a loop and is proved
  equal to `Commands.ListReply`.
- `Text` (text.dfy): Python's `str.split()` and `sep.join`.
  `Split(Join(ws, " ")) == ws` is proved for non-empty, whitespace-free tokens.
- `Configuration` (configuration.dfy): the configuration record and
  `DEFAULT_CONFIG`. The model keeps the `rss_feeds` dict as a map plus the
  insertion order of its keys (`feedKeys`), because the poller and
  `!listrss` both iterate it in that order.

Inputs stand for the outside world. `Env.source` gives the entries the feed
parser returns for a URL. `Env.post` gives the HTTP status a webhook answers.
`Env.now` is the time string that gets recorded.

Two behaviours of `bot.py` shape the model:
- A configuration without a `"webhooks"` key makes `send_webhook` raise
  `KeyError` (bot.py:43). `DEFAULT_CONFIG` has no such key. The exception
  ends the polling task before the entry is recorded.
  `Poll.DefaultConfigHaltsPolling` shows this.
- An empty feed `continue`s (bot.py:78) before the `rss_delay` pause, so only
  non-empty feeds are followed by a pause.

## Model

| member | source | states |
|---|---|---|
| Feed.LatestIndex | bot.py:81-83 | the selected entry ranks at least as high as every entry of the feed (a missing timestamp ranking lowest), and every entry before it ranks strictly lower, so ties go to the first in feed order |
| Feed.LatestIndexUnique | bot.py:81-83 | those two properties determine the selected index uniquely |
| Feed.Insert | bot.py:81 | inserting into a descending list adds exactly the new entry (length and multiset) |
| Feed.SortDesc | bot.py:81 | the reference stable sort keeps the number of entries |
| Feed.SortDescCorrect | bot.py:81 | the reference sort returns its input permuted and in non-increasing order of publication time |
| Feed.LatestIsHeadOfSort | bot.py:81-83 | `sorted_entries[0]` of the stable descending sort is the entry `LatestIndex` selects |
| Feed.Latest | bot.py:83 | the chosen entry is one of the feed's entries and ranks at least as high as each of them; `Feed.LatestIsHeadOfSort` ties it to `sorted_entries[0]` |
| Feed.MixedFeedNotSortable | bot.py:81 | a feed with one dated and one undated entry has sort keys of two Python types, in either order; the intended ranking picks the dated one |
| Webhook.Send | bot.py:42-58 | no POST without a webhook table, without an entry for the category or with an empty URL; otherwise one POST to the category's URL with username `category + " Bot"` and content `"**" + title + "**\n" + link`, which, for a title without a newline of its own, splits back into the bolded title and the link, with the status the endpoint returned |
| Webhook.BuildPayload | bot.py:48-51 | the username is the category followed by `" Bot"`; the content is `**title**`, a newline right after it, then exactly the link |
| Webhook.PayloadContentRoundTrip | bot.py:48-51 | for a title without a newline of its own, the content splits back at its first newline into `**title**` and the link |
| Poll.PollFeed | bot.py:73-94 | an empty feed changes nothing; a seen latest link changes only the event list (one pause); an unseen one adds exactly one notifier call with (category, `**title**`, link) followed by the pause, then records the link with the current time whatever the delivery outcome, unless the notifier raised; existing seen entries are never overwritten |
| Poll.RunFeeds | bot.py:73-94 | the feeds of one category add at most two events per URL, and a halt only ever follows the notification that raised; `Poll.RunFeedsNotifiesOncePerUrl` bounds the notifications by one per URL, and `Poll.RunFeedsKeeps`, `Poll.RunFeedsRecords` and `Poll.RunFeedsAtMostOnce` state the rest |
| Poll.RunCategories | bot.py:72-94 | the same two facts over all categories: at most two events per feed URL of the categories, and a halt only after the notification that raised; `Poll.RunCategoriesNotifiesOncePerUrl` bounds the notifications by one per URL |
| Poll.Cycle | bot.py:71-96 | a cycle has at most two events per feed URL plus one; it halts only right after a notification that raised for want of a webhook table, and otherwise ends with the `fetch_interval` pause; `Poll.CycleKeepsSeen`, `Poll.CycleRecordsLatest`, `Poll.SecondCycleQuiet` and `Poll.CycleNotifiesOnlyNewLinks` state the rest |
| Poll.PollFeedNotifiesOnce | bot.py:84-88 | one feed makes at most one notifier call |
| Poll.RunFeedsNotifiesOncePerUrl | bot.py:73-94 | a category makes at most one notifier call per feed URL |
| Poll.RunCategoriesNotifiesOncePerUrl | bot.py:72-94 | the categories make at most one notifier call per feed URL among them |
| Poll.CycleNotifiesOncePerUrl | bot.py:71-96 | a cycle makes at most as many notifier calls as there are feed URLs |
| Poll.CycleKeepsSeen | bot.py:72-92 | a cycle never removes a link from the seen map nor changes its recorded time |
| Poll.CycleRecordsLatest | bot.py:72-92 | after a cycle that was not halted, the latest link of every non-empty feed of every category is in the seen map |
| Poll.SecondCycleQuiet | bot.py:72-96 | polling again with unchanged feeds notifies nothing and leaves the seen map unchanged |
| Poll.CycleNotifiesOnlyNewLinks | bot.py:84-92 | within a cycle the notifier is called only for links not seen before, never twice for one link |
| Poll.FailedDeliveryStillRecorded | bot.py:88-92 | an unseen entry whose POST got any status other than 204 is still recorded with the current time, so it is never retried |
| Poll.PostedTitleBoldedTwice | bot.py:85 | the posted content wraps the entry title in four asterisks, since the poller bolds it and the notifier bolds it again |
| Poll.OneFeedCycle | bot.py:72-96 | one category with one single-entry feed: the cycle's exact events and seen map, halted or not |
| Poll.SingleFeedScenario | bot.py:72-96 | one category with a webhook: the first cycle posts and records the entry, the second posts nothing |
| Poll.NoWebhookScenario | bot.py:43-46 | a category without a webhook: nothing is posted and the entry is still recorded |
| Poll.DefaultConfigHaltsPolling | bot.py:20-25 | with DEFAULT_CONFIG (no webhook table) the first unseen entry ends the polling task without being recorded |
| Text.Split | bot.py:110 | every token of `str.split()` is non-empty and free of whitespace |
| Text.SplitJoin | bot.py:110 | splitting tokens joined by single spaces gives the tokens back |
| Commands.Parse | bot.py:106-142 | own messages and messages of fewer than two tokens are ignored; a well-formed command is recognised and a recognised one is well-formed: `!setchannel` exactly when it has one argument, `!addrss` and `!removerss` exactly when they have two (bot.py:122, 133), `!listrss` with any number of arguments (bot.py:142), each binding its arguments in order; the four `Parse…` lemmas show typed commands are recognised after splitting |
| Commands.ParseSetChannel | bot.py:110-118 | `!setchannel c` is recognised as the set-channel command for `c` |
| Commands.ParseAddRss | bot.py:122-123 | `!addrss c u` is recognised as adding `u` to `c` |
| Commands.ParseRemoveRss | bot.py:133-134 | `!removerss c u` is recognised as removing `u` from `c` |
| Commands.ParseListRss | bot.py:110-112 | `!listrss` with any second token lists the feeds; alone it is ignored |
| Commands.AppendIfAbsent | bot.py:126-127 | a list that holds the URL is unchanged; otherwise the URL is appended at the end |
| Commands.AppendIfAbsentNoDuplicates | bot.py:126-127 | adding a URL never creates a duplicate |
| Commands.RemoveFirst | bot.py:136 | removal drops exactly the first occurrence of the URL, and changes nothing when the URL is absent |
| Commands.RemoveFirstNoDuplicates | bot.py:136 | removal keeps a duplicate-free list duplicate-free, and the URL is then gone |
| Commands.RemoveFirstCount | bot.py:136 | removal takes exactly one copy of the URL out of the list |
| Commands.RemoveUndoesAppend | bot.py:126-136 | removing a URL right after adding it restores the list |
| Commands.Section | bot.py:148 | a category's block starts with its bold heading; `Commands.SectionShows` adds a bullet for each URL |
| Commands.Listing | bot.py:146-148 | the listing starts with its header; `Commands.ListingShowsEveryFeed` shows every category and URL in it |
| Commands.ListReply | bot.py:142-149 | the "no feeds" warning is the reply exactly when no category exists; otherwise the reply is the listing with its header |
| Commands.SectionShows | bot.py:148 | a category's section shows its heading and a bullet for each of its URLs |
| Commands.ListingShowsEveryFeed | bot.py:146-148 | the listing names every category and shows a bullet for every feed URL |
| Commands.Handle | bot.py:106-149 | a command changes only channels and feed lists; key order stays consistent and only grows at its end; a reply is sent unless the message is ignored; each command's own effect is stated by `Commands.SetChannelBinds`, `Commands.AddRssEffect` and `Commands.RemoveRssEffect` |
| Commands.HandleTouchesOnlyItsCategory | bot.py:116-140 | a command leaves every other category's channel and feed list as it was |
| Commands.SetChannelBinds | bot.py:116-118 | `!setchannel c` maps `c` to the channel the message came from and leaves the feeds alone |
| Commands.AddRssEffect | bot.py:122-131 | `!addrss c u` leaves `c` with a list that holds `u`, extended by `u` only if it lacked it; a new category goes last; the reply says which |
| Commands.RemoveRssEffect | bot.py:133-140 | `!removerss c u` drops the first occurrence of `u` from `c`'s list when present and replies "removed"; otherwise the configuration is unchanged and the reply is "not found"; channels and key order never change |
| Commands.HandleKeepsListsDistinct | bot.py:122-140 | no command gives a category's feed list a duplicate |
| Commands.RemoveRssUndoesAddRss | bot.py:122-140 | `!removerss c u` right after an `!addrss c u` that added `u` restores `c`'s list |
| Bot.RssBot.Load | bot.py:20-39 | startup state: the stored configuration and seen map, or DEFAULT_CONFIG and an empty map |
| Bot.RssBot.FetchCycle | bot.py:68-96 | the loop over categories leaves `seen` and return the events exactly as `Poll.Cycle` prescribes, stopping when the notifier raises |
| Bot.RssBot.PollCategory | bot.py:73-94 | the inner loop over one category's URLs leaves `seen` and the events exactly as `Poll.RunFeeds` prescribes, stopping when the notifier raises |
| Bot.RssBot.PollUrl | bot.py:74-94 | one URL's iteration (sort, pick `sorted_entries[0]`, notify and record if unseen, pause) leaves `seen` and the events exactly as `Poll.PollFeed` prescribes |
| Bot.RssBot.DoSetChannel | bot.py:116-120 | the in-place update of `channels` matches `Commands.Handle` |
| Bot.RssBot.DoAddRss | bot.py:122-131 | the in-place update of `rss_feeds` matches `Commands.Handle` |
| Bot.RssBot.DoRemoveRss | bot.py:133-140 | the in-place update of `rss_feeds` matches `Commands.Handle`, whose effect `Commands.RemoveRssEffect` states |
| Bot.RssBot.DoListRss | bot.py:142-149 | the text built category by category is `Commands.ListReply` |
| Bot.RssBot.OnMessage | bot.py:105-149 | splitting, dispatch and the command's effect together match `Commands.Handle` on the parsed command |

## Left out

- Discord itself is not modelled: `client.run`, `on_ready`, `wait_until_ready` and `message.channel.send`. The reply is returned instead of sent, and "the message is from the bot itself" is a boolean input.
- The unbounded `while not client.is_closed()` loop is not modelled: one cycle is modelled, and the sleeps become `Slept` events.
- Concurrency is not modelled. Commands can run while the poller is suspended, and the poller iterates the live dicts. A key added meanwhile makes Python raise "dictionary changed size during iteration". The model runs a cycle over a fixed configuration.
- `feedparser.parse` is an input (`Env.source`). Every entry is assumed to have a `title` and a `link`.
- Only the status of the `aiohttp` POST is modelled, as an input (`Env.post`). A transport exception, which would end the polling task, is not modelled.
- Bot.RssBot.FetchCycle: records the same `Env.now` for every entry of a cycle, while the source reads the clock at each recording.
- `save_config` and `save_seen_entries` (file writes) are not modelled. `Load` takes the already-parsed file contents, and a malformed file, which makes `json.load` raise at startup, is not modelled.
- The Python types of JSON values are fixed: channel ids are integers and webhook URLs are strings. A `null` URL is skipped like the empty string.
- Publication times are integers, not `time.struct_time`. Python cannot compare `struct_time` with `datetime.min` (see Findings). The selection uses the intended order, where a missing time ranks lowest.
- A stored `config.json` is assumed to carry `channels`, `rss_feeds`, `fetch_interval` and `rss_delay`: `Config` has no way to lack them. A hand-edited file that omits one makes the source raise KeyError where it is read (bot.py:72, 94, 96, 118, 124). Only the optional `webhooks` table is modelled as possibly absent.
- The `print` logging is not modelled.

## Findings

| source | as written | input that shows it | evidently intended | confidence | as-written member | corrected member |
|---|---|---|---|---|---|---|
| bot.py:81 | the sort key is the entry's `published_parsed` (a `time.struct_time`) or `datetime.min`. Python cannot order these two types against each other, so `sorted` raises TypeError, and that ends the polling task | a feed with one entry that has `published_parsed` and one that has not | entries without a timestamp rank below every dated entry, so the dated one is selected | not executed; high | Feed.MixedFeedNotSortable | Feed.LatestIndex |
