/**
 * The data model of src/models.py: the `Alert` record and the three robot
 * message dataclasses, whose `__post_init__` and `set_content` fill their
 * dictionaries in place and whose `to_dict` gives the JSON body sent to the
 * robot. Also `_parse_alert` (src/transformer.py:42-57), which builds an
 * `Alert` from one entry of the notification's `alerts` list.
 */
module Models {
  import opened Wrappers

  /** JSON values as the message dictionaries hold them. */
  datatype Json = JStr(str: string) | JBool(b: bool) | JArr(items: seq<Json>) | JObj(fields: map<string, Json>)

  /** A dictionary of strings as a JSON object. */
  function StrDict(m: map<string, string>): Json {
    JObj(map k | k in m :: JStr(m[k]))
  }

  /** The inverse of `StrDict`: an object whose every value is a string. */
  function AsStrDict(j: Json): Option<map<string, string>> {
    if j.JObj? && forall k | k in j.fields :: j.fields[k].JStr? then
      Some(map k | k in j.fields :: j.fields[k].str)
    else None
  }

  lemma StrDictRoundTrip(m: map<string, string>)
    ensures AsStrDict(StrDict(m)) == Some(m)
  {
    var j := StrDict(m);
    assert (map k | k in j.fields :: j.fields[k].str) == m;
  }

  // ------------------------------------------------------------- alerts

  /**
   * A `datetime`, held as its CST rendering `%Y-%m-%d %H:%M:%S`, which is all
   * the model needs of it; a rendering is never empty.
   */
  type TimeText = s: string | s != "" witness "0"

  /** `Alert` (src/models.py:9-20). */
  datatype Alert = Alert(status: string, labels: map<string, string>, annotations: map<string, string>,
                         startsAt: TimeText, endsAt: Option<string>, fingerprint: string,
                         startTime: string, endTime: string, count: int)

  /** The dataclass constructor with its defaults (src/models.py:16-20). */
  function NewAlert(status: string, labels: map<string, string>, annotations: map<string, string>,
                    startsAt: TimeText, endsAt: Option<string> := None, fingerprint: string := ""): (a: Alert)
    ensures a.count == 0 && a.startTime == "" && a.endTime == ""
    ensures a.status == status && a.labels == labels && a.annotations == annotations
    ensures a.startsAt == startsAt && a.endsAt == endsAt && a.fingerprint == fingerprint
  {
    Alert(status, labels, annotations, startsAt, endsAt, fingerprint, "", "", 0)
  }

  /**
   * A timestamp field of the incoming JSON: absent or falsy (a missing key,
   * `null` or the empty string), a string `fromisoformat` rejects, or a time.
   */
  datatype RawTime = Missing | Malformed | At(cst: TimeText)

  /** One element of the notification's `alerts` list. */
  datatype RawAlert = RawAlert(status: Option<string>, labels: map<string, string>,
                               annotations: map<string, string>, startsAt: RawTime, endsAt: RawTime,
                               fingerprint: Option<string>)

  /**
   * `_parse_alert` (src/transformer.py:42-57, transformer.py:46-62):
   * `alert_data["status"]` and a parsable `alert_data["startsAt"]` are
   * required (a missing key raises, and so does `fromisoformat` on the empty
   * string); an `endsAt` is parsed only when truthy, and one that is not
   * ISO 8601 raises.
   */
  function ParseAlert(raw: RawAlert): (a: Option<Alert>)
    ensures a.Some? <==> raw.status.Some? && raw.startsAt.At? && !raw.endsAt.Malformed?
    ensures a.Some? ==> (
      && a.value.status == raw.status.value && a.value.startsAt == raw.startsAt.cst && a.value.count == 0
      && a.value.labels == raw.labels && a.value.annotations == raw.annotations
      && a.value.fingerprint == raw.fingerprint.GetOr("")
      && a.value.endsAt == (if raw.endsAt.At? then Some(raw.endsAt.cst) else None))
  {
    if raw.status.None? || !raw.startsAt.At? || raw.endsAt.Malformed? then None
    else
      var endsAt := if raw.endsAt.At? then Some(raw.endsAt.cst) else None;
      Some(NewAlert(raw.status.value, raw.labels, raw.annotations, raw.startsAt.cst, endsAt,
                    raw.fingerprint.GetOr("")))
  }

  /** Parsing the whole list: the first failure fails the notification. */
  function ParseAll(raws: seq<RawAlert>): (r: Option<seq<Alert>>)
    ensures r.Some? <==> forall i | 0 <= i < |raws| :: ParseAlert(raws[i]).Some?
    ensures r.Some? ==> |r.value| == |raws| && forall i | 0 <= i < |raws| :: Some(r.value[i]) == ParseAlert(raws[i])
  {
    if raws == [] then Some([])
    else match (ParseAlert(raws[0]), ParseAll(raws[1..]))
      case (Some(a), Some(rest)) => Some([a] + rest)
      case _ => None
  }

  // ----------------------------------------------------------- messages

  const TextDefault := "告警通知"

  /** `QyWeChatMarkdown` (src/models.py:37-55). */
  class QyWeChatMarkdown {
    var msgtype: string
    var markdown: map<string, string>

    /** The dataclass constructor and `__post_init__`: an empty `markdown` becomes `{"content": ""}`. */
    constructor (msgtype: string := "markdown", markdown: map<string, string> := map[])
      ensures this.msgtype == msgtype
      ensures this.markdown == if markdown == map[] then map["content" := ""] else markdown
    {
      this.msgtype := msgtype;
      this.markdown := if markdown == map[] then map["content" := ""] else markdown;
    }

    /** `set_content`: replaces only the "content" entry. */
    method SetContent(content: string)
      modifies this
      ensures markdown == old(markdown)["content" := content] && msgtype == old(msgtype)
    {
      markdown := markdown["content" := content];
    }

    /** `to_dict`: a body that reads back as exactly the two fields. */
    function ToDict(): (j: Json)
      reads this
      ensures j.JObj? && j.fields.Keys == {"msgtype", "markdown"}
      ensures j.fields["msgtype"] == JStr(msgtype) && AsStrDict(j.fields["markdown"]) == Some(markdown)
    {
      StrDictRoundTrip(markdown);
      JObj(map["msgtype" := JStr(msgtype), "markdown" := StrDict(markdown)])
    }
  }

  /** The card `FeishuMarkdown.__post_init__` starts from (src/models.py:64-71). */
  const FeishuDefaultCard: map<string, Json> :=
    map["config" := JObj(map["wide_screen_mode" := JBool(true)]), "elements" := JArr([])]

  /** The single element `FeishuMarkdown.set_content` writes (src/models.py:73-83). */
  function LarkElement(content: string): Json {
    JObj(map["tag" := JStr("div"), "text" := JObj(map["tag" := JStr("lark_md"), "content" := JStr(content)])])
  }

  /** The text a Feishu card shows: the content of its only `lark_md` element. */
  function CardContent(card: map<string, Json>): Option<string> {
    if "elements" in card && card["elements"].JArr? && |card["elements"].items| == 1 then
      var e := card["elements"].items[0];
      if e.JObj? && "text" in e.fields && e.fields["text"].JObj? && "content" in e.fields["text"].fields
         && e.fields["text"].fields["content"].JStr?
      then Some(e.fields["text"].fields["content"].str)
      else None
    else None
  }

  /** `FeishuMarkdown` (src/models.py:58-90). */
  class FeishuMarkdown {
    var msgType: string
    var card: map<string, Json>

    constructor (msgType: string := "interactive", card: map<string, Json> := map[])
      ensures this.msgType == msgType
      ensures this.card == if card == map[] then FeishuDefaultCard else card
    {
      this.msgType := msgType;
      this.card := if card == map[] then FeishuDefaultCard else card;
    }

    /** `set_content`: `elements` becomes one div holding the content; `config` is kept. */
    method SetContent(content: string)
      modifies this
      ensures card == old(card)["elements" := JArr([LarkElement(content)])] && msgType == old(msgType)
      ensures CardContent(card) == Some(content)
    {
      card := card["elements" := JArr([LarkElement(content)])];
    }

    /** `to_dict`: `msg_type` and the card, unchanged. */
    function ToDict(): (j: Json)
      reads this
      ensures j.JObj? && j.fields.Keys == {"msg_type", "card"}
      ensures j.fields["msg_type"] == JStr(msgType) && j.fields["card"] == JObj(card)
    {
      JObj(map["msg_type" := JStr(msgType), "card" := JObj(card)])
    }
  }

  /** `DingTalkMarkdown` (src/models.py:93-116). */
  class DingTalkMarkdown {
    var msgtype: string
    var markdown: map<string, string>

    constructor (msgtype: string := "markdown", markdown: map<string, string> := map[])
      ensures this.msgtype == msgtype
      ensures this.markdown == if markdown == map[] then map["title" := TextDefault, "text" := ""] else markdown
    {
      this.msgtype := msgtype;
      this.markdown := if markdown == map[] then map["title" := TextDefault, "text" := ""] else markdown;
    }

    /** `set_content(content, title="告警通知")`: sets both entries. */
    method SetContent(content: string, title: string := TextDefault)
      modifies this
      ensures markdown == old(markdown)["title" := title]["text" := content] && msgtype == old(msgtype)
    {
      markdown := markdown["title" := title];
      markdown := markdown["text" := content];
    }

    function ToDict(): (j: Json)
      reads this
      ensures j.JObj? && j.fields.Keys == {"msgtype", "markdown"}
      ensures j.fields["msgtype"] == JStr(msgtype) && AsStrDict(j.fields["markdown"]) == Some(markdown)
    {
      StrDictRoundTrip(markdown);
      JObj(map["msgtype" := JStr(msgtype), "markdown" := StrDict(markdown)])
    }
  }

  /** A message of one of the three robots. */
  datatype Message = QyWeChat(q: QyWeChatMarkdown) | Feishu(f: FeishuMarkdown) | DingTalk(d: DingTalkMarkdown)
  {
    function Repr(): set<object> {
      match this
      case QyWeChat(m) => {m}
      case Feishu(m) => {m}
      case DingTalk(m) => {m}
    }

    /** The JSON body `to_dict` gives. */
    function Body(): Json
      reads Repr()
    {
      match this
      case QyWeChat(m) => m.ToDict()
      case Feishu(m) => m.ToDict()
      case DingTalk(m) => m.ToDict()
    }
  }

  // ----------------------------------- what a fresh message carries

  /** `QyWeChatMarkdown()` followed by `set_content(content)`. */
  function QyWeChatBody(content: string): Json {
    JObj(map["msgtype" := JStr("markdown"), "markdown" := StrDict(map["content" := content])])
  }

  /** `FeishuMarkdown()` followed by `set_content(content)`. */
  function FeishuBody(content: string): Json {
    JObj(map["msg_type" := JStr("interactive"),
             "card" := JObj(FeishuDefaultCard["elements" := JArr([LarkElement(content)])])])
  }

  /** `DingTalkMarkdown()` followed by `set_content(content, title)`. */
  function DingTalkBody(content: string, title: string): Json {
    JObj(map["msgtype" := JStr("markdown"), "markdown" := StrDict(map["title" := title, "text" := content])])
  }

  /** The text of a body, wherever its robot keeps it. */
  function BodyContent(j: Json): Option<string> {
    if j.JObj? && "markdown" in j.fields then
      match AsStrDict(j.fields["markdown"])
      case Some(m) => if "content" in m then Some(m["content"]) else if "text" in m then Some(m["text"]) else None
      case None => None
    else if j.JObj? && "card" in j.fields && j.fields["card"].JObj? then CardContent(j.fields["card"].fields)
    else None
  }

  /** Each fresh message carries exactly the content it was given, where its robot reads it. */
  lemma BodiesCarryContent(content: string, title: string)
    ensures BodyContent(QyWeChatBody(content)) == Some(content)
    ensures BodyContent(FeishuBody(content)) == Some(content)
    ensures BodyContent(DingTalkBody(content, title)) == Some(content)
  {
    QyWeChatBodyContent(content);
    FeishuBodyContent(content);
    DingTalkBodyContent(content, title);
  }

  lemma QyWeChatBodyContent(content: string)
    ensures BodyContent(QyWeChatBody(content)) == Some(content)
  {
    StrDictRoundTrip(map["content" := content]);
  }

  lemma FeishuBodyContent(content: string)
    ensures BodyContent(FeishuBody(content)) == Some(content)
  {
    var card := FeishuDefaultCard["elements" := JArr([LarkElement(content)])];
    assert CardContent(card) == Some(content);
  }

  lemma DingTalkBodyContent(content: string, title: string)
    ensures BodyContent(DingTalkBody(content, title)) == Some(content)
  {
    StrDictRoundTrip(map["title" := title, "text" := content]);
  }

  /** Building a message the way the coordinators do, and its body. */
  method NewQyWeChat(content: string) returns (m: Message)
    ensures fresh(m.Repr()) && m.QyWeChat? && m.Body() == QyWeChatBody(content)
  {
    var q := new QyWeChatMarkdown();
    q.SetContent(content);
    assert q.markdown == map["content" := content];
    m := QyWeChat(q);
  }

  method NewFeishu(content: string) returns (m: Message)
    ensures fresh(m.Repr()) && m.Feishu? && m.Body() == FeishuBody(content)
  {
    var f := new FeishuMarkdown();
    f.SetContent(content);
    m := Feishu(f);
  }

  method NewDingTalk(content: string, title: string) returns (m: Message)
    ensures fresh(m.Repr()) && m.DingTalk? && m.Body() == DingTalkBody(content, title)
  {
    var d := new DingTalkMarkdown();
    d.SetContent(content, title);
    assert d.markdown == map["title" := title, "text" := content];
    m := DingTalk(d);
  }
}
