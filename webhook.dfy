/**
 * The notifier: looks up a category's webhook URL, builds the JSON payload
 * and reports what became of the POST. The HTTP status of the POST is an
 * input (`post`), since the network is outside the model.
 */
module Webhook {
  import opened Wrappers

  /** The JSON body `{username, content}` of the POST. */
  datatype Payload = Payload(username: string, content: string)

  /** What one call of the notifier did. */
  datatype Outcome =
    | MissingTable                                        // config has no "webhooks" key: KeyError
    | NoWebhook                                           // no (or an empty) URL for the category
    | Posted(url: string, payload: Payload, status: int)  // one POST, with the status it returned
  {
    /** The webhook acknowledged the message. */
    predicate Delivered() {
      Posted? && status == 204
    }
  }

  /** The status an endpoint answers to a POST of a payload. */
  type Poster = (string, Payload) -> int

  function BuildPayload(category: string, title: string, link: string): (p: Payload)
    ensures category <= p.username && p.username[|category|..] == " Bot"
    ensures |p.content| == |title| + 5 + |link|
    ensures p.content[..|title| + 4] == "**" + title + "**"
    ensures p.content[|title| + 4] == '\n' && p.content[|title| + 5..] == link
  {
    Payload(category + " Bot", "**" + title + "**\n" + link)
  }

  /**
   * `send_webhook(category, title, link)`: no POST without a webhook table,
   * without an entry for the category, or with an empty URL; otherwise
   * exactly one POST of the category's payload to the category's URL.
   */
  function Send(webhooks: Option<map<string, string>>, category: string, title: string, link: string,
                post: Poster): (o: Outcome)
    ensures o.MissingTable? <==> webhooks.None?
    ensures o.NoWebhook? <==> webhooks.Some? && (category !in webhooks.value || webhooks.value[category] == "")
    ensures o.Posted? ==>
              && o.url == webhooks.value[category]
              && o.payload.username == category + " Bot"
              && o.payload.content == "**" + title + "**\n" + link
              && o.status == post(o.url, o.payload)
    ensures o.Posted? && '\n' !in title ==>
              FirstLine(o.payload.content) == "**" + title + "**" &&
              AfterFirstLine(o.payload.content) == link
  {
    match webhooks
    case None => MissingTable
    case Some(table) =>
      if category !in table || table[category] == "" then NoWebhook
      else
        var payload := BuildPayload(category, title, link);
        assert '\n' !in title ==>
                 FirstLine(payload.content) == "**" + title + "**" && AfterFirstLine(payload.content) == link
        by {
          if '\n' !in title { PayloadContentRoundTrip(category, title, link); }
        }
        Posted(table[category], payload, post(table[category], payload))
  }

  /** Index of the first newline of `s`, or `|s|` when there is none. */
  function LineEnd(s: string): (n: nat)
    ensures n <= |s|
    ensures '\n' !in s[..n]
    ensures n < |s| ==> s[n] == '\n'
  {
    if s == [] || s[0] == '\n' then 0
    else
      var n := 1 + LineEnd(s[1..]);
      assert s[..n] == [s[0]] + s[1..][..n - 1];
      n
  }

  function FirstLine(s: string): string {
    s[..LineEnd(s)]
  }

  function AfterFirstLine(s: string): string {
    if LineEnd(s) < |s| then s[LineEnd(s) + 1..] else ""
  }

  lemma {:induction false} LineEndOfLine(line: string, rest: string)
    requires '\n' !in line
    ensures LineEnd(line + "\n" + rest) == |line|
    decreases |line|
  {
    var s := line + "\n" + rest;
    if line != [] {
      assert s[0] == line[0];
      assert s[1..] == line[1..] + "\n" + rest;
      LineEndOfLine(line[1..], rest);
    }
  }

  /**
   * A payload's content splits back, at its first newline, into the bolded
   * title and the link (a title without a newline of its own).
   */
  lemma PayloadContentRoundTrip(category: string, title: string, link: string)
    requires '\n' !in title
    ensures FirstLine(BuildPayload(category, title, link).content) == "**" + title + "**"
    ensures AfterFirstLine(BuildPayload(category, title, link).content) == link
  {
    var line := "**" + title + "**";
    assert '\n' !in line by {
      assert forall i :: 0 <= i < |line| ==> line[i] == '*' || line[i] in title;
    }
    var s := line + "\n" + link;
    assert BuildPayload(category, title, link).content == s;
    LineEndOfLine(line, link);
    assert s[..|line|] == line;
    assert s[|line| + 1..] == link;
  }
}
