/**
 * The alert lifecycle coordinator `Transformer.transform_to_markdown`
 * (src/transformer.py:119-329). One notification is parsed, its firing and
 * resolved alerts are walked in order against the storage backend (which may
 * be absent), each alert is rendered, and one firing and one resolved message
 * are built for the robot type.
 *
 * The specification functions (`FireStep`, `ResolveStep`, `Transform`) give
 * the meaning of one call; the methods perform it on the backend objects and
 * are proved to follow them; the lemmas state the lifecycle properties.
 * Rendering the Jinja template is the parameter `render` (None stands for a
 * template that raises), and the clock is the parameter `now`.
 */
module Transformer {
  import opened Wrappers
  import opened Text
  import opened AlertRecord
  import opened Models
  import opened Storage
  import RobotFormat

  /** `ALERT_KEY_TTL` (src/transformer.py:24): seven days, in seconds. */
  const AlertKeyTtl := 7 * 24 * 60 * 60

  const FiringTitleQyWeChat := "# <font color=\"red\">触发告警</font>\n"
  const ResolvedTitleQyWeChat := "# <font color=\"green\">告警恢复</font>\n"
  const FiringTitleFeishu := "<font color=\"red\">触发告警</font>\n"
  const ResolvedTitleFeishu := "<font color=\"green\">告警恢复</font>\n"
  const FiringTitle := "触发告警"
  const ResolvedTitle := "告警恢复"

  /** Rendering one alert; None when the template raises. */
  type Renderer = Alert -> Option<string>

  // ====================================================== specification

  /** The storage state, when there is a storage. */
  ghost function StateOf(storage: Option<Backend>): Option<Store>
    reads if storage.Some? then storage.value.Repr() else {}
  {
    if storage.Some? then Some(storage.value.State()) else None
  }

  ghost predicate StorageValid(storage: Option<Backend>)
    reads if storage.Some? then storage.value.Repr() else {}
  {
    storage.Some? ==> storage.value.Valid()
  }

  /** The alerts of one status, in notification order (src/transformer.py:149-150). */
  function WithStatus(alerts: seq<Alert>, status: string): seq<Alert> {
    if alerts == [] then []
    else
      var last := alerts[|alerts| - 1];
      WithStatus(alerts[..|alerts| - 1], status) + (if last.status == status then [last] else [])
  }

  /** `labels.get("serverity") or labels.get("sereverity") or ""` (src/transformer.py:194). */
  function Severity(labels: map<string, string>): string {
    Or(Get(labels, "serverity", ""), Get(labels, "sereverity", ""))
  }

  /**
   * One firing alert (src/transformer.py:169-207). Its `startTime` is its own
   * `startsAt`. With a fingerprint and a storage, `exists` is asked before
   * `increment_count`, whose result becomes the count; the key's time to live
   * is renewed; only a fingerprint that did not exist gets its start time and
   * its non-empty information stored. Otherwise the count is 1.
   */
  function FireStep(st: Option<Store>, a: Alert, now: string): (Option<Store>, Alert) {
    var timed := a.(startTime := a.startsAt);
    if a.fingerprint != "" && st.Some? then
      var fp := a.fingerprint;
      var isNew := !st.value.Exists(fp);
      var (s1, n) := st.value.IncrementCount(fp, now);
      var s2 := s1.Expire(fp, AlertKeyTtl);
      var s3 :=
        if isNew then
          s2.SetStartTime(fp, timed.startTime, now)
            .SetAlertInfo(fp, NoneIfEmpty(Get(a.labels, "alertname", "")),
                          NoneIfEmpty(Get(a.annotations, "summary", "")),
                          NoneIfEmpty(Get(a.labels, "instance", "")),
                          NoneIfEmpty(Severity(a.labels)), now)
        else s2;
      (Some(s3), timed.(count := n))
    else (st, timed.(count := 1))
  }

  /** The firing alerts walked in order: the final storage state and the alerts as rendered. */
  function FireAll(st: Option<Store>, alerts: seq<Alert>, now: string): (r: (Option<Store>, seq<Alert>))
    ensures |r.1| == |alerts|
  {
    if alerts == [] then (st, [])
    else
      var (st1, done) := FireAll(st, alerts[..|alerts| - 1], now);
      var (st2, a) := FireStep(st1, alerts[|alerts| - 1], now);
      (st2, done + [a])
  }

  /** An incoming value is replaced only when empty or missing, and only by a non-empty stored one. */
  function Backfill(m: map<string, string>, k: string, stored: Option<string>): map<string, string> {
    if !HasValue(m, k) && OptTruthy(stored) then m[k := stored.value] else m
  }

  /** `endsAt` as `%Y-%m-%d %H:%M:%S` in CST, or "" when there is none. */
  function EndTime(a: Alert): string {
    if a.endsAt.Some? then a.endsAt.value else ""
  }

  /**
   * One resolved alert (src/transformer.py:223-266). `startTime` is its
   * `startsAt`, `endTime` its `endsAt` or "". With a fingerprint and a
   * storage, the stored information is read first, fills in a missing
   * summary, instance and alertname, and the record is then deleted.
   */
  function ResolveStep(st: Option<Store>, a: Alert, now: string): (Option<Store>, Alert) {
    var timed := a.(startTime := a.startsAt, endTime := EndTime(a));
    if a.fingerprint != "" && st.Some? then
      var fp := a.fingerprint;
      var info := st.value.GetAlertInfo(fp);
      var filled := timed.(annotations := Backfill(a.annotations, "summary", info.summary),
                           labels := Backfill(Backfill(a.labels, "instance", info.instance), "alertname", info.alertname));
      (Some(st.value.Delete(fp, Some(timed.endTime), now)), filled)
    else (st, timed)
  }

  function ResolveAll(st: Option<Store>, alerts: seq<Alert>, now: string): (r: (Option<Store>, seq<Alert>))
    ensures |r.1| == |alerts|
  {
    if alerts == [] then (st, [])
    else
      var (st1, done) := ResolveAll(st, alerts[..|alerts| - 1], now);
      var (st2, a) := ResolveStep(st1, alerts[|alerts| - 1], now);
      (st2, done + [a])
  }

  /** The rendered text of one alert, or the one-line fallback when the template raises. */
  function Part(render: Renderer, a: Alert): string {
    match render(a)
    case Some(text) => text
    case None => "告警主题: " + Get(a.annotations, "summary", "未知") + "\n"
  }

  function Parts(render: Renderer, alerts: seq<Alert>): (r: seq<string>)
    ensures |r| == |alerts|
  {
    if alerts == [] then [] else Parts(render, alerts[..|alerts| - 1]) + [Part(render, alerts[|alerts| - 1])]
  }

  /** Parts listed one per alert are the parts of those alerts. */
  lemma PartsFromPointwise(render: Renderer, alerts: seq<Alert>, parts: seq<string>)
    requires |parts| == |alerts| && forall j | 0 <= j < |alerts| :: parts[j] == Part(render, alerts[j])
    ensures parts == Parts(render, alerts)
  {
    PartsPointwise(render, alerts);
  }

  /** The `i`-th part is the rendering, or the summary fallback, of the `i`-th alert. */
  lemma {:induction false} PartsPointwise(render: Renderer, alerts: seq<Alert>)
    ensures forall i | 0 <= i < |alerts| :: Parts(render, alerts)[i] == Part(render, alerts[i])
    decreases |alerts|
  {
    if alerts != [] {
      var init := alerts[..|alerts| - 1];
      PartsPointwise(render, init);
      forall i | 0 <= i < |alerts| ensures Parts(render, alerts)[i] == Part(render, alerts[i]) {
        if i < |init| {
          assert alerts[i] == init[i];
        }
      }
    }
  }

  /** `"\n".join(parts)`. */
  function Content(render: Renderer, alerts: seq<Alert>): string {
    Join("\n", Parts(render, alerts))
  }

  /**
   * The body of the message built for robot `kind` (already lower-cased)
   * from `content` (src/transformer.py:279-320): none for empty content or an
   * unknown robot.
   */
  function MessageBody(kind: string, content: string, firing: bool): Option<Json> {
    if content == "" then None
    else if kind == "qywechat" then
      Some(QyWeChatBody((if firing then FiringTitleQyWeChat else ResolvedTitleQyWeChat) + content))
    else if kind == "feishu" then
      Some(FeishuBody((if firing then FiringTitleFeishu else ResolvedTitleFeishu)
                      + RobotFormat.FormatMarkdownForRobot(content, kind)))
    else if kind == "dingtalk" then
      Some(DingTalkBody(RobotFormat.FormatMarkdownForRobot(content, kind), if firing then FiringTitle else ResolvedTitle))
    else None
  }

  /**
   * One call of `transform_to_markdown`: the final storage state and the
   * bodies of the firing and the resolved message. An alert that fails to
   * parse fails the whole call before any storage operation.
   */
  function Transform(raws: seq<RawAlert>, robotType: string, st: Option<Store>, render: Renderer,
                     now: string): (Option<Store>, Option<Json>, Option<Json>) {
    match ParseAll(raws)
    case None => (st, None, None)
    case Some(alerts) =>
      var (st1, fired) := FireAll(st, WithStatus(alerts, "firing"), now);
      var (st2, resolved) := ResolveAll(st1, WithStatus(alerts, "resolved"), now);
      var kind := Lower(robotType);
      (st2, MessageBody(kind, Content(render, fired), true), MessageBody(kind, Content(render, resolved), false))
  }

  // ============================================================ methods

  /** The firing alert `a` against the storage. */
  method FireAlert(storage: Option<Backend>, a: Alert, now: string) returns (a': Alert)
    requires StorageValid(storage)
    modifies if storage.Some? then storage.value.Repr() else {}
    ensures StorageValid(storage)
    ensures (StateOf(storage), a') == FireStep(old(StateOf(storage)), a, now)
  {
    a' := a.(startTime := a.startsAt);
    if a.fingerprint != "" && storage.Some? {
      var b := storage.value;
      var fp := a.fingerprint;
      var exists_ := b.Exists(fp);
      var isNew := !exists_;
      var n := b.IncrementCount(fp, now);
      a' := a'.(count := n);
      b.Expire(fp, AlertKeyTtl);
      if isNew {
        b.SetStartTime(fp, a'.startTime, now);
        var alertname := Get(a.labels, "alertname", "");
        var summary := Get(a.annotations, "summary", "");
        var instance := Get(a.labels, "instance", "");
        var severity := Severity(a.labels);
        b.SetAlertInfo(fp, NoneIfEmpty(alertname), NoneIfEmpty(summary), NoneIfEmpty(instance),
                       NoneIfEmpty(severity), now);
      }
    } else {
      a' := a'.(count := 1);
    }
  }

  /** The resolved alert `a` against the storage. */
  method ResolveAlert(storage: Option<Backend>, a: Alert, now: string) returns (a': Alert)
    requires StorageValid(storage)
    modifies if storage.Some? then storage.value.Repr() else {}
    ensures StorageValid(storage)
    ensures (StateOf(storage), a') == ResolveStep(old(StateOf(storage)), a, now)
  {
    a' := a.(startTime := a.startsAt, endTime := EndTime(a));
    if a.fingerprint != "" && storage.Some? {
      var b := storage.value;
      var fp := a.fingerprint;
      var info := b.GetAlertInfo(fp);
      a' := a'.(annotations := Backfill(a'.annotations, "summary", info.summary));
      a' := a'.(labels := Backfill(a'.labels, "instance", info.instance));
      a' := a'.(labels := Backfill(a'.labels, "alertname", info.alertname));
      b.Delete(fp, Some(a'.endTime), now);
    }
  }

  /** The firing loop (src/transformer.py:166-217): the joined firing content. */
  method FireAlerts(storage: Option<Backend>, alerts: seq<Alert>, render: Renderer, now: string)
    returns (content: string, ghost fired: seq<Alert>)
    requires StorageValid(storage)
    modifies if storage.Some? then storage.value.Repr() else {}
    ensures StorageValid(storage)
    ensures (StateOf(storage), fired) == FireAll(old(StateOf(storage)), alerts, now)
    ensures content == Content(render, fired)
  {
    var parts: seq<string> := [];
    fired := [];
    var i := 0;
    while i < |alerts|
      invariant 0 <= i <= |alerts|
      invariant StorageValid(storage)
      invariant (StateOf(storage), fired) == FireAll(old(StateOf(storage)), alerts[..i], now)
      invariant |parts| == |fired| && forall j | 0 <= j < |fired| :: parts[j] == Part(render, fired[j])
    {
      FireAllUnfold(old(StateOf(storage)), alerts, i, now);
      var a := FireAlert(storage, alerts[i], now);
      fired := fired + [a];
      parts := parts + [Part(render, a)];
      i := i + 1;
    }
    assert alerts[..i] == alerts;
    PartsFromPointwise(render, fired, parts);
    content := Join("\n", parts);
  }

  lemma FireAllUnfold(st: Option<Store>, alerts: seq<Alert>, i: nat, now: string)
    requires i < |alerts|
    ensures var (st1, done) := FireAll(st, alerts[..i], now);
      FireAll(st, alerts[..i + 1], now) == (FireStep(st1, alerts[i], now).0, done + [FireStep(st1, alerts[i], now).1])
  {
    assert alerts[..i + 1][..i] == alerts[..i];
  }

  lemma ResolveAllUnfold(st: Option<Store>, alerts: seq<Alert>, i: nat, now: string)
    requires i < |alerts|
    ensures var (st1, done) := ResolveAll(st, alerts[..i], now);
      ResolveAll(st, alerts[..i + 1], now) == (ResolveStep(st1, alerts[i], now).0, done + [ResolveStep(st1, alerts[i], now).1])
  {
    assert alerts[..i + 1][..i] == alerts[..i];
  }

  /** The resolved loop (src/transformer.py:219-276): the joined resolved content. */
  method ResolveAlerts(storage: Option<Backend>, alerts: seq<Alert>, render: Renderer, now: string)
    returns (content: string, ghost resolved: seq<Alert>)
    requires StorageValid(storage)
    modifies if storage.Some? then storage.value.Repr() else {}
    ensures StorageValid(storage)
    ensures (StateOf(storage), resolved) == ResolveAll(old(StateOf(storage)), alerts, now)
    ensures content == Content(render, resolved)
  {
    var parts: seq<string> := [];
    resolved := [];
    var i := 0;
    while i < |alerts|
      invariant 0 <= i <= |alerts|
      invariant StorageValid(storage)
      invariant (StateOf(storage), resolved) == ResolveAll(old(StateOf(storage)), alerts[..i], now)
      invariant |parts| == |resolved| && forall j | 0 <= j < |resolved| :: parts[j] == Part(render, resolved[j])
    {
      ResolveAllUnfold(old(StateOf(storage)), alerts, i, now);
      var a := ResolveAlert(storage, alerts[i], now);
      resolved := resolved + [a];
      parts := parts + [Part(render, a)];
      i := i + 1;
    }
    assert alerts[..i] == alerts;
    PartsFromPointwise(render, resolved, parts);
    content := Join("\n", parts);
  }

  /** The parsing loop (src/transformer.py:144-146): every alert, or None at the first that raises. */
  method ParseAlerts(raws: seq<RawAlert>) returns (r: Option<seq<Alert>>)
    ensures r == ParseAll(raws)
  {
    var alerts: seq<Alert> := [];
    var i := 0;
    while i < |raws|
      invariant 0 <= i <= |raws| && |alerts| == i
      invariant forall j | 0 <= j < i :: ParseAlert(raws[j]) == Some(alerts[j])
    {
      var a := ParseAlert(raws[i]);
      if a.None? {
        return None;
      }
      alerts := alerts + [a.value];
      i := i + 1;
    }
    r := Some(alerts);
    assert ParseAll(raws).Some?;
    assert ParseAll(raws).value == alerts;
  }

  /**
   * The two messages for robot `kind`, built as the coordinator builds them
   * (src/transformer.py:285-325): one per non-empty content, none for an
   * unknown robot.
   */
  method BuildMessages(kind: string, firingContent: string, resolvedContent: string)
    returns (firing: Option<Message>, resolved: Option<Message>)
    ensures firing.Some? ==> fresh(firing.value.Repr())
    ensures resolved.Some? ==> fresh(resolved.value.Repr())
    ensures BodyOf(firing) == MessageBody(kind, firingContent, true)
    ensures BodyOf(resolved) == MessageBody(kind, resolvedContent, false)
  {
    var firingFormatted := RobotFormat.FormatMarkdownForRobot(firingContent, kind);
    var resolvedFormatted := RobotFormat.FormatMarkdownForRobot(resolvedContent, kind);
    firing, resolved := None, None;
    if kind == "qywechat" {
      if firingContent != "" {
        var m := NewQyWeChat(FiringTitleQyWeChat + firingContent);
        firing := Some(m);
      }
      if resolvedContent != "" {
        var m := NewQyWeChat(ResolvedTitleQyWeChat + resolvedContent);
        resolved := Some(m);
      }
    } else if kind == "feishu" {
      if firingContent != "" {
        var m := NewFeishu(FiringTitleFeishu + firingFormatted);
        firing := Some(m);
      }
      if resolvedContent != "" {
        var m := NewFeishu(ResolvedTitleFeishu + resolvedFormatted);
        resolved := Some(m);
      }
    } else if kind == "dingtalk" {
      if firingContent != "" {
        var m := NewDingTalk(firingFormatted, FiringTitle);
        firing := Some(m);
      }
      if resolvedContent != "" {
        var m := NewDingTalk(resolvedFormatted, ResolvedTitle);
        resolved := Some(m);
      }
    }
  }

  function BodyOf(m: Option<Message>): Option<Json>
    reads if m.Some? then m.value.Repr() else {}
  {
    if m.Some? then Some(m.value.Body()) else None
  }

  /**
   * `transform_to_markdown(notification_data, robot_type)`: the storage ends
   * in the state `Transform` gives and the two messages carry its bodies.
   */
  method TransformToMarkdown(raws: seq<RawAlert>, robotType: string, storage: Option<Backend>,
                             render: Renderer, now: string)
    returns (firing: Option<Message>, resolved: Option<Message>)
    requires StorageValid(storage)
    modifies if storage.Some? then storage.value.Repr() else {}
    ensures StorageValid(storage)
    ensures firing.Some? ==> fresh(firing.value.Repr())
    ensures resolved.Some? ==> fresh(resolved.value.Repr())
    ensures var spec := Transform(raws, robotType, old(StateOf(storage)), render, now);
      StateOf(storage) == spec.0 && BodyOf(firing) == spec.1 && BodyOf(resolved) == spec.2
  {
    ghost var st0 := StateOf(storage);
    var parsed := ParseAlerts(raws);
    if parsed.None? {
      return None, None;
    }
    assert StateOf(storage) == st0;
    TransformUnfold(raws, robotType, st0, render, now, parsed.value);
    firing, resolved := TransformAlerts(parsed.value, robotType, storage, render, now, st0);
  }

  /** Everything after parsing: the two loops, then the messages. */
  method TransformAlerts(alerts: seq<Alert>, robotType: string, storage: Option<Backend>,
                         render: Renderer, now: string, ghost st0: Option<Store>)
    returns (firing: Option<Message>, resolved: Option<Message>)
    requires StorageValid(storage) && st0 == StateOf(storage)
    modifies if storage.Some? then storage.value.Repr() else {}
    ensures StorageValid(storage)
    ensures firing.Some? ==> fresh(firing.value.Repr())
    ensures resolved.Some? ==> fresh(resolved.value.Repr())
    ensures var fireRun := FireAll(st0, WithStatus(alerts, "firing"), now);
      var resolveRun := ResolveAll(fireRun.0, WithStatus(alerts, "resolved"), now);
      && StateOf(storage) == resolveRun.0
      && BodyOf(firing) == MessageBody(Lower(robotType), Content(render, fireRun.1), true)
      && BodyOf(resolved) == MessageBody(Lower(robotType), Content(render, resolveRun.1), false)
  {
    var firingContent, fired := FireAlerts(storage, WithStatus(alerts, "firing"), render, now);
    var resolvedContent, done := ResolveAlerts(storage, WithStatus(alerts, "resolved"), render, now);
    label processed:
    firing, resolved := BuildMessages(Lower(robotType), firingContent, resolvedContent);
    StateKept@processed(storage);
  }

  twostate lemma StateKept(storage: Option<Backend>)
    requires storage.Some? ==> unchanged(storage.value.Repr())
    ensures StateOf(storage) == old(StateOf(storage))
  {
  }

  lemma TransformUnfold(raws: seq<RawAlert>, robotType: string, st: Option<Store>, render: Renderer,
                        now: string, alerts: seq<Alert>)
    requires ParseAll(raws) == Some(alerts)
    ensures var fireRun := FireAll(st, WithStatus(alerts, "firing"), now);
      var resolveRun := ResolveAll(fireRun.0, WithStatus(alerts, "resolved"), now);
      Transform(raws, robotType, st, render, now)
      == (resolveRun.0, MessageBody(Lower(robotType), Content(render, fireRun.1), true),
          MessageBody(Lower(robotType), Content(render, resolveRun.1), false))
  {
  }

  // ============================================================= lemmas

  /** The robot types a message is built for. */
  const Robots: set<string> := {"qywechat", "feishu", "dingtalk"}

  /** Filtering by status distributes over concatenation, so it keeps the notification's order. */
  lemma WithStatusSnoc(xs: seq<Alert>, last: Alert, status: string)
    ensures WithStatus(xs + [last], status) == WithStatus(xs, status) + (if last.status == status then [last] else [])
  {
    assert (xs + [last])[..|xs|] == xs;
  }

  /** The alerts kept are exactly those of the notification with that status. */
  lemma {:induction false} WithStatusMembers(alerts: seq<Alert>, status: string)
    ensures |WithStatus(alerts, status)| <= |alerts|
    ensures forall a :: a in WithStatus(alerts, status) <==> a in alerts && a.status == status
    decreases |alerts|
  {
    if alerts != [] {
      var init, last := alerts[..|alerts| - 1], alerts[|alerts| - 1];
      WithStatusMembers(init, status);
      assert alerts == init + [last];
    }
  }

  lemma {:induction false} WithStatusKeepsOrder(xs: seq<Alert>, ys: seq<Alert>, status: string)
    ensures WithStatus(xs + ys, status) == WithStatus(xs, status) + WithStatus(ys, status)
    decreases |ys|
  {
    if ys == [] {
      assert xs + ys == xs;
    } else {
      var init, last := ys[..|ys| - 1], ys[|ys| - 1];
      WithStatusKeepsOrder(xs, init, status);
      assert ys == init + [last];
      assert xs + ys == (xs + init) + [last];
      WithStatusSnoc(xs + init, last, status);
      WithStatusSnoc(init, last, status);
    }
  }

  /** `"\n".join` of the parts is empty only for no alert, or one alert rendered as "". */
  lemma ContentEmpty(render: Renderer, alerts: seq<Alert>)
    ensures Content(render, alerts) == "" <==> |alerts| == 0 || (|alerts| == 1 && render(alerts[0]) == Some(""))
  {
    JoinEmpty("\n", Parts(render, alerts));
    if |alerts| == 1 && render(alerts[0]).None? {
      assert |Part(render, alerts[0])| > 0;
    }
  }

  /**
   * A message is built exactly for non-empty content and a known robot, and
   * carries the title and the content where its robot reads it: WeChat Work
   * gets the raw content, Feishu the same (formatting leaves it unchanged),
   * DingTalk the formatted content, with no tag left in it.
   */
  lemma MessageBodyMeaning(kind: string, content: string, firing: bool)
    ensures MessageBody(kind, content, firing).Some? <==> content != "" && kind in Robots
    ensures content != "" && kind == "qywechat" ==>
      BodyContent(MessageBody(kind, content, firing).value)
      == Some((if firing then FiringTitleQyWeChat else ResolvedTitleQyWeChat) + content)
    ensures content != "" && kind == "feishu" ==>
      BodyContent(MessageBody(kind, content, firing).value)
      == Some((if firing then FiringTitleFeishu else ResolvedTitleFeishu) + content)
    ensures content != "" && kind == "dingtalk" ==>
      && BodyContent(MessageBody(kind, content, firing).value) == Some(RobotFormat.FormatMarkdownForRobot(content, kind))
      && RobotFormat.NoTags(RobotFormat.FormatMarkdownForRobot(content, kind))
  {
    var title := if firing then FiringTitle else ResolvedTitle;
    if content == "" {
    } else if kind == "qywechat" {
      BodiesCarryContent((if firing then FiringTitleQyWeChat else ResolvedTitleQyWeChat) + content, title);
    } else if kind == "feishu" {
      RobotFormat.FormatKeepsOtherRobots(content, kind);
      BodiesCarryContent((if firing then FiringTitleFeishu else ResolvedTitleFeishu) + content, title);
    } else if kind == "dingtalk" {
      RobotFormat.DingTalkHasNoTags(content);
      BodiesCarryContent(RobotFormat.FormatMarkdownForRobot(content, kind), title);
    }
  }

  /** Without a fingerprint or without a storage an alert counts 1 and nothing is stored. */
  lemma FireWithoutRecord(st: Option<Store>, a: Alert, now: string)
    requires a.fingerprint == "" || st.None?
    ensures FireStep(st, a, now).0 == st
    ensures FireStep(st, a, now).1 == a.(startTime := a.startsAt, count := 1)
  {
  }

  /** With no storage at all, every firing alert of a notification counts 1. */
  lemma {:induction false} NoStorageCountsOne(alerts: seq<Alert>, now: string)
    ensures FireAll(None, alerts, now).0.None?
    ensures forall i | 0 <= i < |alerts| ::
      FireAll(None, alerts, now).1[i] == alerts[i].(startTime := alerts[i].startsAt, count := 1)
  {
    if alerts != [] {
      NoStorageCountsOne(alerts[..|alerts| - 1], now);
      var done := FireAll(None, alerts[..|alerts| - 1], now).1;
      assert FireAll(None, alerts, now).1 == done + [FireStep(None, alerts[|alerts| - 1], now).1];
    }
  }

  /**
   * A firing alert with a fingerprint: its count is the stored count plus
   * one, or 1 when none is stored; a reachable backend holds that count
   * afterwards; an unreachable one is left as it was.
   */
  lemma FireStepBehaviour(s: Store, a: Alert, now: string)
    requires s.Valid() && a.fingerprint != ""
    ensures var (st', a') := FireStep(Some(s), a, now);
      var fp := a.fingerprint;
      && st'.Some? && st'.value.Valid() && st'.value.Online() == s.Online()
      && a'.startTime == a.startsAt && a'.count >= 1
      && (s.GetAlertCount(fp).None? ==> a'.count == 1)
      && (s.GetAlertCount(fp).Some? ==> a'.count == s.GetAlertCount(fp).value + 1)
      && (s.Online() ==> st'.value.Exists(fp) && st'.value.GetAlertCount(fp) == Some(a'.count))
      && (!s.Online() ==> st'.value == s)
  {
    var fp := a.fingerprint;
    IncrementBehaviour(s, fp, now);
    if s.Exists(fp) {
      RepeatFiringKeepsRecord(s, fp, now, AlertKeyTtl);
    } else if s.Online() {
      FirstFiringRecords(s, fp, a.startsAt, NoneIfEmpty(Get(a.labels, "alertname", "")),
                         NoneIfEmpty(Get(a.annotations, "summary", "")), NoneIfEmpty(Get(a.labels, "instance", "")),
                         NoneIfEmpty(Severity(a.labels)), now, AlertKeyTtl);
    }
  }

  /**
   * The first firing of a fingerprint stores the alert's own start time and
   * its non-empty alertname, summary and instance.
   */
  lemma FirstFiringStoresRecord(s: Store, a: Alert, now: string)
    requires s.Valid() && s.Online() && a.fingerprint != "" && !s.Exists(a.fingerprint)
    ensures var (st', a') := FireStep(Some(s), a, now);
      var fp := a.fingerprint;
      && a'.count == 1
      && st'.value.GetStartTime(fp) == Some(a.startsAt)
      && st'.value.GetAlertInfo(fp) == AlertInfo(NoneIfEmpty(Get(a.labels, "alertname", "")),
                                                 NoneIfEmpty(Get(a.annotations, "summary", "")),
                                                 NoneIfEmpty(Get(a.labels, "instance", "")))
  {
    FirstFiringRecords(s, a.fingerprint, a.startsAt, NoneIfEmpty(Get(a.labels, "alertname", "")),
                       NoneIfEmpty(Get(a.annotations, "summary", "")), NoneIfEmpty(Get(a.labels, "instance", "")),
                       NoneIfEmpty(Severity(a.labels)), now, AlertKeyTtl);
  }

  /**
   * A repeat firing keeps the start time and information of the episode's
   * first firing, whatever the repeated alert carries.
   */
  lemma RepeatFiringKeepsEpisode(s: Store, a: Alert, now: string)
    requires s.Valid() && a.fingerprint != "" && s.Exists(a.fingerprint)
    ensures var st' := FireStep(Some(s), a, now).0;
      && st'.value.GetStartTime(a.fingerprint) == s.GetStartTime(a.fingerprint)
      && st'.value.GetAlertInfo(a.fingerprint) == s.GetAlertInfo(a.fingerprint)
  {
    RepeatFiringKeepsRecord(s, a.fingerprint, now, AlertKeyTtl);
  }

  /** The same firing alert delivered `n` times. */
  function Refire(st: Option<Store>, a: Alert, now: string, n: nat): Option<Store> {
    if n == 0 then st else FireStep(Refire(st, a, now, n - 1), a, now).0
  }

  /** From a fingerprint with no count, the `n`-th delivery of a firing alert is rendered with count `n`. */
  lemma {:induction false} NthFiringOfEpisode(s: Store, a: Alert, now: string, n: nat)
    requires s.Valid() && s.Online() && a.fingerprint != "" && s.GetAlertCount(a.fingerprint).None? && n >= 1
    ensures FireStep(Refire(Some(s), a, now, n - 1), a, now).1.count == n
    ensures var r := Refire(Some(s), a, now, n);
      r.Some? && r.value.Valid() && r.value.Online() && r.value.GetAlertCount(a.fingerprint) == Some(n)
  {
    if n > 1 {
      NthFiringOfEpisode(s, a, now, n - 1);
    }
    FireStepBehaviour(Refire(Some(s), a, now, n - 1).value, a, now);
  }

  /**
   * Key `k` of `m'` is the incoming value when `m` has a non-empty one,
   * otherwise the stored value when that is non-empty, otherwise what `m` had.
   */
  predicate Restored(m: map<string, string>, m': map<string, string>, k: string, stored: Option<string>) {
    && (HasValue(m, k) ==> k in m' && m'[k] == m[k])
    && (!HasValue(m, k) && OptTruthy(stored) ==> k in m' && m'[k] == stored.value)
    && (!HasValue(m, k) && !OptTruthy(stored) ==> Get(m', k, "") == Get(m, k, ""))
  }

  /** No key outside `keys` is added, dropped or changed. */
  ghost predicate Untouched(m: map<string, string>, m': map<string, string>, keys: set<string>) {
    forall j | j !in keys :: (j in m' <==> j in m) && (j in m ==> m'[j] == m[j])
  }

  lemma BackfillBehaviour(m: map<string, string>, k: string, stored: Option<string>)
    ensures Restored(m, Backfill(m, k, stored), k, stored)
    ensures Untouched(m, Backfill(m, k, stored), {k})
  {
  }

  /**
   * A resolved alert with a fingerprint: the times come from the alert
   * itself; the summary, instance and alertname are restored from what the
   * storage held before the alert was deleted, never over a non-empty
   * incoming value; afterwards the fingerprint is gone and its next firing
   * counts 1. An unreachable backend restores nothing and stays as it was.
   */
  lemma ResolveStepBehaviour(s: Store, a: Alert, now: string, now2: string)
    requires s.Valid() && a.fingerprint != ""
    ensures var (st', a') := ResolveStep(Some(s), a, now);
      var fp := a.fingerprint;
      var info := s.GetAlertInfo(fp);
      && st'.Some? && st'.value.Valid() && st'.value.Online() == s.Online()
      && a'.startTime == a.startsAt && a'.endTime == EndTime(a)
      && a'.count == a.count && a'.status == a.status && a'.fingerprint == fp
      && Restored(a.annotations, a'.annotations, "summary", info.summary)
      && Restored(a.labels, a'.labels, "instance", info.instance)
      && Restored(a.labels, a'.labels, "alertname", info.alertname)
      && Untouched(a.annotations, a'.annotations, {"summary"})
      && Untouched(a.labels, a'.labels, {"instance", "alertname"})
      && !st'.value.Exists(fp) && st'.value.GetAlertCount(fp).None?
      && st'.value.IncrementCount(fp, now2).1 == 1
      && (!s.Online() ==> st'.value == s && a'.labels == a.labels && a'.annotations == a.annotations)
  {
    var fp := a.fingerprint;
    var info := s.GetAlertInfo(fp);
    OperationsKeepValid(s, fp, "", None, None, None, None, Some(EndTime(a)), 0, None, None, now);
    DeleteEndsEpisode(s, fp, Some(EndTime(a)), now, None, now2);
    BackfillBehaviour(a.annotations, "summary", info.summary);
    BackfillBehaviour(a.labels, "instance", info.instance);
    BackfillBehaviour(Backfill(a.labels, "instance", info.instance), "alertname", info.alertname);
  }

  /**
   * The lifecycle on either backend: a resolved alert sent without its
   * summary, instance or alertname gets back the ones its first firing
   * stored, because the information is read before the record is deleted;
   * the next firing of the fingerprint then starts a new episode at count 1.
   */
  lemma FireThenResolveRestoresInfo(s: Store, a: Alert, b: Alert, now: string, now2: string, now3: string)
    requires s.Valid() && s.Online() && a.fingerprint != "" && b.fingerprint == a.fingerprint
    requires !s.Exists(a.fingerprint)
    ensures var st1 := FireStep(Some(s), a, now).0;
      var (st2, b') := ResolveStep(st1, b, now2);
      && Restored(b.annotations, b'.annotations, "summary", NoneIfEmpty(Get(a.annotations, "summary", "")))
      && Restored(b.labels, b'.labels, "instance", NoneIfEmpty(Get(a.labels, "instance", "")))
      && Restored(b.labels, b'.labels, "alertname", NoneIfEmpty(Get(a.labels, "alertname", "")))
      && st2.Some? && !st2.value.Exists(a.fingerprint)
      && FireStep(st2, a, now3).1.count == 1
  {
    FireStepBehaviour(s, a, now);
    FirstFiringStoresRecord(s, a, now);
    var st1 := FireStep(Some(s), a, now).0;
    ResolveStepBehaviour(st1.value, b, now2, now3);
    var st2 := ResolveStep(st1, b, now2).0;
    FireStepBehaviour(st2.value, a, now3);
  }

  /** What a call does to one fingerprint, it does to no other. */
  lemma StepsKeepOtherFingerprints(s: Store, a: Alert, other: string, now: string)
    requires other != a.fingerprint
    ensures FireStep(Some(s), a, now).0.Some? && ResolveStep(Some(s), a, now).0.Some?
    ensures View(FireStep(Some(s), a, now).0.value, other) == View(s, other)
    ensures View(ResolveStep(Some(s), a, now).0.value, other) == View(s, other)
  {
    var fp := a.fingerprint;
    if fp != "" {
      var s1 := s.IncrementCount(fp, now).0;
      var s2 := s1.Expire(fp, AlertKeyTtl);
      var s3 := s2.SetStartTime(fp, a.startsAt, now);
      OtherFingerprintsUnaffected(s, fp, other, a.startsAt, None, None, None, None, None, AlertKeyTtl, now);
      OtherFingerprintsUnaffected(s1, fp, other, a.startsAt, None, None, None, None, None, AlertKeyTtl, now);
      OtherFingerprintsUnaffected(s2, fp, other, a.startsAt, None, None, None, None, None, AlertKeyTtl, now);
      OtherFingerprintsUnaffected(s3, fp, other, a.startsAt, NoneIfEmpty(Get(a.labels, "alertname", "")),
                                  NoneIfEmpty(Get(a.annotations, "summary", "")),
                                  NoneIfEmpty(Get(a.labels, "instance", "")),
                                  NoneIfEmpty(Severity(a.labels)), None, AlertKeyTtl, now);
      OtherFingerprintsUnaffected(s, fp, other, a.startsAt, None, None, None, None, Some(EndTime(a)), AlertKeyTtl, now);
    }
  }

  /** An alert the parser rejects fails the whole call: no message, and no storage operation. */
  lemma MalformedAlertFailsCall(raws: seq<RawAlert>, i: nat, robotType: string, st: Option<Store>,
                                render: Renderer, now: string)
    requires i < |raws|
    requires raws[i].status.None? || !raws[i].startsAt.At? || raws[i].endsAt.Malformed?
    ensures Transform(raws, robotType, st, render, now) == (st, None, None)
  {
    assert ParseAlert(raws[i]).None?;
  }

  /** The storage operations do not depend on the robot type or on rendering. */
  lemma StorageIgnoresRobot(raws: seq<RawAlert>, robotType: string, robotType2: string, st: Option<Store>,
                            render: Renderer, render2: Renderer, now: string)
    ensures Transform(raws, robotType, st, render, now).0 == Transform(raws, robotType2, st, render2, now).0
  {
  }

  /** An unknown robot type gets no message, although the storage operations still happen. */
  lemma UnknownRobotGetsNothing(raws: seq<RawAlert>, robotType: string, st: Option<Store>,
                                render: Renderer, now: string)
    requires Lower(robotType) !in Robots
    ensures Transform(raws, robotType, st, render, now).1.None?
    ensures Transform(raws, robotType, st, render, now).2.None?
  {
    MessageBodyMeaning(Lower(robotType), "", true);
    if ParseAll(raws).Some? {
      var alerts := ParseAll(raws).value;
      var fireRun := FireAll(st, WithStatus(alerts, "firing"), now);
      var resolveRun := ResolveAll(fireRun.0, WithStatus(alerts, "resolved"), now);
      MessageBodyMeaning(Lower(robotType), Content(render, fireRun.1), true);
      MessageBodyMeaning(Lower(robotType), Content(render, resolveRun.1), false);
    }
  }

  /**
   * For a known robot and a template that never renders an alert as "", a
   * well-formed notification yields a firing message exactly when it holds a
   * firing alert, and a resolved message exactly when it holds a resolved one.
   */
  lemma MessagesFollowAlerts(raws: seq<RawAlert>, robotType: string, st: Option<Store>,
                             render: Renderer, now: string)
    requires Lower(robotType) in Robots
    requires forall a :: render(a) != Some("")
    requires forall i | 0 <= i < |raws| :: ParseAlert(raws[i]).Some?
    ensures Transform(raws, robotType, st, render, now).1.Some?
            <==> exists i | 0 <= i < |raws| :: raws[i].status == Some("firing")
    ensures Transform(raws, robotType, st, render, now).2.Some?
            <==> exists i | 0 <= i < |raws| :: raws[i].status == Some("resolved")
  {
    var alerts := ParseAll(raws).value;
    var firing := WithStatus(alerts, "firing");
    var resolvedAlerts := WithStatus(alerts, "resolved");
    var fireRun := FireAll(st, firing, now);
    var resolveRun := ResolveAll(fireRun.0, resolvedAlerts, now);
    ContentEmpty(render, fireRun.1);
    ContentEmpty(render, resolveRun.1);
    MessageBodyMeaning(Lower(robotType), Content(render, fireRun.1), true);
    MessageBodyMeaning(Lower(robotType), Content(render, resolveRun.1), false);
    StatusesSurvive(raws, alerts, "firing");
    StatusesSurvive(raws, alerts, "resolved");
  }

  lemma ParsedStatuses(raws: seq<RawAlert>, alerts: seq<Alert>)
    requires ParseAll(raws) == Some(alerts)
    ensures |alerts| == |raws| && forall i | 0 <= i < |raws| :: raws[i].status == Some(alerts[i].status)
  {
  }

  lemma StatusesSurvive(raws: seq<RawAlert>, alerts: seq<Alert>, status: string)
    requires ParseAll(raws) == Some(alerts)
    ensures |WithStatus(alerts, status)| > 0 <==> exists i | 0 <= i < |raws| :: raws[i].status == Some(status)
  {
    WithStatusMembers(alerts, status);
    ParsedStatuses(raws, alerts);
    var kept := WithStatus(alerts, status);
    if i :| 0 <= i < |raws| && raws[i].status == Some(status) {
      assert alerts[i] in kept;
    }
    if |kept| > 0 {
      assert kept[0] in kept;
      assert kept[0] in alerts && kept[0].status == status;
      var i :| 0 <= i < |alerts| && alerts[i] == kept[0];
      assert raws[i].status == Some(status);
    }
  }
}
