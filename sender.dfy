/**
 * `QyWeChatSender` (src/sender.py): the WeChat Work robot client. Its
 * constructor fixes the webhook URL and the key once; `send` refuses, without
 * touching the network, a sender with no usable URL or key and a message with
 * no content. The HTTP round trip itself (`requests.post` and the `errcode`
 * check of the reply) is the `delivered` parameter.
 */
module Sender {
  import opened Wrappers
  import opened Text
  import Models

  const DefaultWebhookBaseUrl := "https://qyapi.weixin.qq.com/cgi-bin/webhook/send"

  /** The key recorded for a full URL whose query has no `key` (src/sender.py:39). */
  const KeyPlaceholder := "从完整URL中提取"

  // ====================================================== URL query parsing

  /** `s.split(c, 1)` when `c` occurs in `s`: the text before the first `c` and the text after it. */
  function SplitOnce(s: string, c: char): (r: Option<(string, string)>)
    ensures r.None? <==> c !in s
    ensures r.Some? ==> r.value.0 + [c] + r.value.1 == s && c !in r.value.0
    decreases |s|
  {
    if s == [] then None
    else if s[0] == c then Some(([], s[1..]))
    else
      match SplitOnce(s[1..], c)
      case None => None
      case Some((a, b)) => Some(([s[0]] + a, b))
  }

  /** The query part `urlparse` finds: after the first '?', up to the fragment's '#'. */
  function Query(url: string): string {
    var beforeFragment := match SplitOnce(url, '#') case None => url case Some((a, _)) => a;
    match SplitOnce(beforeFragment, '?')
    case None => ""
    case Some((_, q)) => q
  }

  /**
   * The values `parse_qs` lists under `name` for these `&`-separated fields:
   * a field without '=' and a field with an empty value are dropped, and a
   * value runs from the first '=' to the end of its field.
   */
  function Values(fields: seq<string>, name: string): (vs: seq<string>)
    ensures forall i | 0 <= i < |vs| :: vs[i] != ""
    decreases |fields|
  {
    if fields == [] then []
    else
      var rest := Values(fields[1..], name);
      match SplitOnce(fields[0], '=')
      case None => rest
      case Some((n, v)) => if n == name && v != "" then [v] + rest else rest
  }

  /** `parse_qs(urlparse(url).query)['key'][0]`, when the query has a `key`. */
  function QueryKey(url: string): (k: Option<string>)
    ensures k.Some? ==> k.value != ""
  {
    var vs := Values(Split(Query(url), '&'), "key");
    if vs == [] then None else Some(vs[0])
  }

  // ========================================================= configuration

  datatype Config = Config(key: string, webhookUrl: string)

  /** The URL and key `__init__` settles on (src/sender.py:29-48). */
  function Configure(key: string, webhookBaseUrl: string, webhookUrl: string): (c: Config)
    ensures webhookUrl != "" ==> c.webhookUrl == webhookUrl
    ensures webhookUrl == "" ==> c.key == key
  {
    if webhookUrl != "" then
      Config(match QueryKey(webhookUrl) case Some(k) => k case None => KeyPlaceholder, webhookUrl)
    else
      Config(key, RStrip(webhookBaseUrl, '?') + "?key=" + key)
  }

  /** Trailing '?' characters of the base URL make no difference: exactly one '?' precedes `key=`. */
  lemma TrailingQuestionMarkIgnored(key: string, webhookBaseUrl: string)
    ensures Configure(key, webhookBaseUrl + "?", "") == Configure(key, webhookBaseUrl, "")
  {
    assert (webhookBaseUrl + "?")[..|webhookBaseUrl + "?"| - 1] == webhookBaseUrl;
  }

  /** Why `send` refuses to post (src/sender.py:60-71), in the order it checks. */
  datatype Refusal = NoUrl | NoKey | NoContent

  function Guard(c: Config, content: Option<string>): (r: Option<Refusal>)
  {
    if c.webhookUrl == "" then Some(NoUrl)
    else if c.key == "" && !Contains(c.webhookUrl, "key=") then Some(NoKey)
    else if content.None? || content.value == "" then Some(NoContent)
    else None
  }

  /** `message.markdown.get("content")`, with no message counting as no content. */
  function ContentOf(message: Option<Models.QyWeChatMarkdown>): Option<string>
    reads if message.Some? then {message.value} else {}
  {
    match message
    case None => None
    case Some(m) => if "content" in m.markdown then Some(m.markdown["content"]) else None
  }

  class QyWeChatSender {
    var key: string
    var webhookUrl: string

    constructor(key: string := "", webhookBaseUrl: string := DefaultWebhookBaseUrl, webhookUrl: string := "")
      ensures Config(this.key, this.webhookUrl) == Configure(key, webhookBaseUrl, webhookUrl)
    {
      var c := Configure(key, webhookBaseUrl, webhookUrl);
      this.key := c.key;
      this.webhookUrl := c.webhookUrl;
    }

    /** `send`: a refused message is never posted; otherwise the result is the delivery's. */
    method Send(message: Option<Models.QyWeChatMarkdown>, delivered: bool) returns (ok: bool)
      ensures ok <==> Guard(Config(key, webhookUrl), ContentOf(message)).None? && delivered
    {
      if webhookUrl == "" {
        return false;
      }
      if key == "" && !Contains(webhookUrl, "key=") {
        return false;
      }
      var content := ContentOf(message);
      if content.None? || content.value == "" {
        return false;
      }
      ok := delivered;
    }

    /** `send_firing`: no message is a refusal, any other goes through `send`. */
    method SendFiring(message: Option<Models.QyWeChatMarkdown>, delivered: bool) returns (ok: bool)
      ensures ok <==> message.Some? && Guard(Config(key, webhookUrl), ContentOf(message)).None? && delivered
    {
      if message.Some? {
        ok := Send(message, delivered);
      } else {
        ok := false;
      }
    }

    /** `send_resolved`: the same guard as `send_firing`. */
    method SendResolved(message: Option<Models.QyWeChatMarkdown>, delivered: bool) returns (ok: bool)
      ensures ok <==> message.Some? && Guard(Config(key, webhookUrl), ContentOf(message)).None? && delivered
    {
      if message.Some? {
        ok := Send(message, delivered);
      } else {
        ok := false;
      }
    }
  }

  // ================================================================ lemmas

  /** Splitting at a character that does not occur before the given position finds that position. */
  lemma {:induction false} SplitOnceAt(a: string, b: string, c: char)
    requires c !in a
    ensures SplitOnce(a + [c] + b, c) == Some((a, b))
    decreases |a|
  {
    var s := a + [c] + b;
    if a == [] {
      assert s[0] == c && s[1..] == b;
    } else {
      assert s[0] == a[0] && s[0] != c;
      assert s[1..] == a[1..] + [c] + b;
      assert c !in a[1..] by {
        forall x | x in a[1..] ensures x != c {
          assert x in a;
        }
      }
      SplitOnceAt(a[1..], b, c);
      assert [a[0]] + a[1..] == a;
    }
  }

  /**
   * Every constructed sender passes the URL and key checks: whatever it was
   * built from, `send` refuses only a message without content.
   */
  lemma ConfiguredSenderRefusesOnlyEmptyContent(key: string, webhookBaseUrl: string, webhookUrl: string, content: Option<string>)
    ensures var c := Configure(key, webhookBaseUrl, webhookUrl);
      c.webhookUrl != "" && (c.key != "" || Contains(c.webhookUrl, "key="))
    ensures Guard(Configure(key, webhookBaseUrl, webhookUrl), content).None? <==> content.Some? && content.value != ""
    ensures Guard(Configure(key, webhookBaseUrl, webhookUrl), content).Some? ==> Guard(Configure(key, webhookBaseUrl, webhookUrl), content) == Some(NoContent)
  {
    var c := Configure(key, webhookBaseUrl, webhookUrl);
    if webhookUrl != "" {
      assert c.key != "";
    } else {
      var base := RStrip(webhookBaseUrl, '?');
      assert OccursAt(c.webhookUrl, "key=", |base| + 1);
    }
  }

  /** The query of `base?query`, for a base with no '?' or '#' and a query with no '#'. */
  lemma QueryAfterBase(base: string, query: string)
    requires '?' !in base && '#' !in base && '#' !in query
    ensures Query(base + ['?'] + query) == query
  {
    var url := base + ['?'] + query;
    assert '#' !in url by {
      forall x | x in url ensures x != '#' {
        if x !in base && x != '?' { assert x in query; }
      }
    }
    SplitOnceAt(base, query, '?');
  }

  /** `parse_qs` reads a lone `key=k` field back as `k`. */
  lemma KeyFieldValue(key: string)
    requires key != "" && '&' !in key
    ensures Values(Split("key=" + key, '&'), "key") == [key]
  {
    var field := "key=" + key;
    assert '&' !in field by {
      forall x | x in field ensures x != '&' {
        if x !in key { assert x in "key="; }
      }
    }
    SplitWithoutSeparator(field, '&');
    assert field == "key" + ['='] + key;
    SplitOnceAt("key", key, '=');
  }

  /**
   * Passing the composed URL as a full `webhook_url` builds the same sender,
   * for a base with no '?' or '#' and a non-empty key with no '&' or '#'.
   */
  lemma ComposedUrlRoundTrip(key: string, webhookBaseUrl: string, otherBase: string)
    requires '?' !in webhookBaseUrl && '#' !in webhookBaseUrl
    requires key != "" && '&' !in key && '#' !in key
    ensures Configure("", otherBase, Configure(key, webhookBaseUrl, "").webhookUrl) == Configure(key, webhookBaseUrl, "")
  {
    assert RStrip(webhookBaseUrl, '?') == webhookBaseUrl;
    var field := "key=" + key;
    assert '#' !in field by {
      forall x | x in field ensures x != '#' {
        if x !in key { assert x in "key="; }
      }
    }
    assert webhookBaseUrl + "?key=" + key == webhookBaseUrl + ['?'] + field;
    QueryAfterBase(webhookBaseUrl, field);
    KeyFieldValue(key);
  }
}
