/**
 * The first version of the coordinator, `Transformer.transform_to_markdown`
 * in transformer.py:96-267. It talks to Redis directly: the hash of an alert
 * is stored under the bare fingerprint, has no time to live, gets the start
 * time of every firing written over the last one, keeps the alert's
 * information only when the count read back is 1, and on resolution prefers
 * the stored start time to the incoming one. Messages are always WeChat Work
 * markdown.
 */
module LegacyTransformer {
  import opened Wrappers
  import opened Text
  import opened Models
  import K = RedisKeyspace
  import N = Transformer
  import Storage

  /** A connected `redis.Redis` client and the keyspace of the server behind it. */
  class RedisClient {
    var ks: K.Keyspace

    constructor (existing: K.Keyspace)
      ensures ks == existing
    {
      ks := existing;
    }

    method HSet(key: string, f: K.Field, v: string)
      modifies this
      ensures ks == K.HSet(old(ks), key, f, v)
    {
      ks := ks.(db := ks.db[key := K.SetField(K.Lookup(ks, key), f, v)]);
    }

    method HIncrBy(key: string, delta: int) returns (n: int)
      modifies this
      ensures (ks, n) == K.HIncrBy(old(ks), key, delta)
    {
      var h := K.Lookup(ks, key);
      n := h.count.GetOr(0) + delta;
      ks := ks.(db := ks.db[key := h.(count := Some(n))]);
    }

    method HGet(key: string, f: K.Field) returns (v: Option<string>)
      ensures v == K.HGet(ks, key, f)
    {
      v := K.GetField(K.Lookup(ks, key), f);
    }

    /** `HGET key count`, the decimal reply read as the integer it spells. */
    method HGetCount(key: string) returns (v: Option<int>)
      ensures v == K.HGetCount(ks, key)
    {
      v := K.Lookup(ks, key).count;
    }

    method Delete(key: string)
      modifies this
      ensures ks == K.Del(old(ks), key)
    {
      ks := K.Del(ks, key);
    }
  }

  /** The keyspace behind the client, or None when `_get_redis_client` found no server. */
  ghost function StateOf(r: Option<RedisClient>): Option<K.Keyspace>
    reads if r.Some? then {r.value} else {}
  {
    if r.Some? then Some(r.value.ks) else None
  }

  // ======================================================= specification

  /** The information HSETs of a first firing (transformer.py:163-182), each only for a non-empty value. */
  function StoreInfo(ks: K.Keyspace, fp: string, a: Alert): K.Keyspace {
    var k1 := K.HSetIf(ks, fp, K.Alertname, Some(Get(a.labels, "alertname", "")));
    var k2 := K.HSetIf(k1, fp, K.Summary, Some(Get(a.annotations, "summary", "")));
    var k3 := K.HSetIf(k2, fp, K.Instance, Some(Get(a.labels, "instance", "")));
    K.HSetIf(k3, fp, K.Severity, Some(N.Severity(a.labels)))
  }

  /**
   * One firing alert (transformer.py:145-187): with a fingerprint and a
   * client, HSET the start time, HINCRBY the count, read the count back
   * (`int(count) if count else 1`) and store the information when that count
   * is 1. Otherwise the count is 1.
   */
  function FireStep(ks: Option<K.Keyspace>, a: Alert): (Option<K.Keyspace>, Alert) {
    var timed := a.(startTime := a.startsAt);
    var fp := a.fingerprint;
    if fp != "" && ks.Some? then
      var k1 := K.HSet(ks.value, fp, K.StartTime, timed.startTime);
      var k2 := K.HIncrBy(k1, fp, 1).0;
      var stored := K.HGetCount(k2, fp);
      var count := if stored.Some? then stored.value else 1;
      (Some(if count == 1 then StoreInfo(k2, fp, a) else k2), timed.(count := count))
    else (ks, timed.(count := 1))
  }

  function FireAll(ks: Option<K.Keyspace>, alerts: seq<Alert>): (r: (Option<K.Keyspace>, seq<Alert>))
    ensures |r.1| == |alerts|
  {
    if alerts == [] then (ks, [])
    else
      var (ks1, done) := FireAll(ks, alerts[..|alerts| - 1]);
      var (ks2, a) := FireStep(ks1, alerts[|alerts| - 1]);
      (ks2, done + [a])
  }

  /**
   * One resolved alert (transformer.py:204-238): with a fingerprint and a
   * client, the stored start time wins over `startsAt`, a missing summary,
   * instance and alertname are filled from the hash, and the hash is deleted.
   */
  function ResolveStep(ks: Option<K.Keyspace>, a: Alert): (Option<K.Keyspace>, Alert) {
    var fp := a.fingerprint;
    if fp != "" && ks.Some? then
      var s := ks.value;
      var stored := K.HGet(s, fp, K.StartTime);
      var filled := a.(startTime := if OptTruthy(stored) then stored.value else a.startsAt,
                       annotations := N.Backfill(a.annotations, "summary", K.HGet(s, fp, K.Summary)),
                       labels := N.Backfill(N.Backfill(a.labels, "instance", K.HGet(s, fp, K.Instance)),
                                            "alertname", K.HGet(s, fp, K.Alertname)),
                       endTime := N.EndTime(a));
      (Some(K.Del(s, fp)), filled)
    else (ks, a.(startTime := a.startsAt, endTime := N.EndTime(a)))
  }

  function ResolveAll(ks: Option<K.Keyspace>, alerts: seq<Alert>): (r: (Option<K.Keyspace>, seq<Alert>))
    ensures |r.1| == |alerts|
  {
    if alerts == [] then (ks, [])
    else
      var (ks1, done) := ResolveAll(ks, alerts[..|alerts| - 1]);
      var (ks2, a) := ResolveStep(ks1, alerts[|alerts| - 1]);
      (ks2, done + [a])
  }

  /** The WeChat Work message built for non-empty content (transformer.py:250-261). */
  function MessageBody(content: string, firing: bool): Option<Json> {
    if content == "" then None
    else Some(QyWeChatBody((if firing then N.FiringTitleQyWeChat else N.ResolvedTitleQyWeChat) + content))
  }

  /** One call: the final keyspace and the bodies of the firing and the resolved message. */
  function Transform(raws: seq<RawAlert>, ks: Option<K.Keyspace>, render: N.Renderer)
    : (Option<K.Keyspace>, Option<Json>, Option<Json>)
  {
    match ParseAll(raws)
    case None => (ks, None, None)
    case Some(alerts) =>
      var (ks1, fired) := FireAll(ks, N.WithStatus(alerts, "firing"));
      var (ks2, resolved) := ResolveAll(ks1, N.WithStatus(alerts, "resolved"));
      (ks2, MessageBody(N.Content(render, fired), true), MessageBody(N.Content(render, resolved), false))
  }

  // ============================================================ methods

  method FireAlert(r: Option<RedisClient>, a: Alert) returns (a': Alert)
    modifies if r.Some? then {r.value} else {}
    ensures (StateOf(r), a') == FireStep(old(StateOf(r)), a)
  {
    a' := a.(startTime := a.startsAt);
    var fp := a.fingerprint;
    if fp != "" && r.Some? {
      var c := r.value;
      c.HSet(fp, K.StartTime, a'.startTime);
      var incremented := c.HIncrBy(fp, 1);
      var count := c.HGetCount(fp);
      a' := a'.(count := if count.Some? then count.value else 1);
      if a'.count == 1 {
        var alertname := Get(a.labels, "alertname", "");
        if alertname != "" {
          c.HSet(fp, K.Alertname, alertname);
        }
        var summary := Get(a.annotations, "summary", "");
        if summary != "" {
          c.HSet(fp, K.Summary, summary);
        }
        var instance := Get(a.labels, "instance", "");
        if instance != "" {
          c.HSet(fp, K.Instance, instance);
        }
        var severity := N.Severity(a.labels);
        if severity != "" {
          c.HSet(fp, K.Severity, severity);
        }
      }
    } else {
      a' := a'.(count := 1);
    }
  }

  method ResolveAlert(r: Option<RedisClient>, a: Alert) returns (a': Alert)
    modifies if r.Some? then {r.value} else {}
    ensures (StateOf(r), a') == ResolveStep(old(StateOf(r)), a)
  {
    a' := a;
    var fp := a.fingerprint;
    if fp != "" && r.Some? {
      var c := r.value;
      var startTime := c.HGet(fp, K.StartTime);
      a' := a'.(startTime := if OptTruthy(startTime) then startTime.value else a.startsAt);
      var summary := c.HGet(fp, K.Summary);
      if !HasValue(a'.annotations, "summary") && OptTruthy(summary) {
        a' := a'.(annotations := a'.annotations["summary" := summary.value]);
      }
      var instance := c.HGet(fp, K.Instance);
      if !HasValue(a'.labels, "instance") && OptTruthy(instance) {
        a' := a'.(labels := a'.labels["instance" := instance.value]);
      }
      var alertname := c.HGet(fp, K.Alertname);
      if !HasValue(a'.labels, "alertname") && OptTruthy(alertname) {
        a' := a'.(labels := a'.labels["alertname" := alertname.value]);
      }
      a' := a'.(endTime := N.EndTime(a));
      c.Delete(fp);
    } else {
      a' := a'.(startTime := a.startsAt, endTime := N.EndTime(a));
    }
  }

  lemma FireAllUnfold(ks: Option<K.Keyspace>, alerts: seq<Alert>, i: nat)
    requires i < |alerts|
    ensures var (ks1, done) := FireAll(ks, alerts[..i]);
      FireAll(ks, alerts[..i + 1]) == (FireStep(ks1, alerts[i]).0, done + [FireStep(ks1, alerts[i]).1])
  {
    assert alerts[..i + 1][..i] == alerts[..i];
  }

  lemma ResolveAllUnfold(ks: Option<K.Keyspace>, alerts: seq<Alert>, i: nat)
    requires i < |alerts|
    ensures var (ks1, done) := ResolveAll(ks, alerts[..i]);
      ResolveAll(ks, alerts[..i + 1]) == (ResolveStep(ks1, alerts[i]).0, done + [ResolveStep(ks1, alerts[i]).1])
  {
    assert alerts[..i + 1][..i] == alerts[..i];
  }

  /** One more iteration of the loop extends the walk by one step. */
  lemma FireAllStep(ks: Option<K.Keyspace>, alerts: seq<Alert>, i: nat, ks1: Option<K.Keyspace>, done: seq<Alert>,
                    ks2: Option<K.Keyspace>, a: Alert)
    requires i < |alerts|
    requires (ks1, done) == FireAll(ks, alerts[..i])
    requires (ks2, a) == FireStep(ks1, alerts[i])
    ensures (ks2, done + [a]) == FireAll(ks, alerts[..i + 1])
  {
    FireAllUnfold(ks, alerts, i);
  }

  /** One more iteration of the loop extends the walk by one step. */
  lemma ResolveAllStep(ks: Option<K.Keyspace>, alerts: seq<Alert>, i: nat, ks1: Option<K.Keyspace>, done: seq<Alert>,
                       ks2: Option<K.Keyspace>, a: Alert)
    requires i < |alerts|
    requires (ks1, done) == ResolveAll(ks, alerts[..i])
    requires (ks2, a) == ResolveStep(ks1, alerts[i])
    ensures (ks2, done + [a]) == ResolveAll(ks, alerts[..i + 1])
  {
    ResolveAllUnfold(ks, alerts, i);
  }

  /** The firing loop (transformer.py:141-197). */
  method FireAlerts(r: Option<RedisClient>, alerts: seq<Alert>, render: N.Renderer)
    returns (content: string, ghost fired: seq<Alert>)
    modifies if r.Some? then {r.value} else {}
    ensures (StateOf(r), fired) == FireAll(old(StateOf(r)), alerts)
    ensures content == N.Content(render, fired)
  {
    var parts: seq<string> := [];
    fired := [];
    var i := 0;
    while i < |alerts|
      invariant 0 <= i <= |alerts|
      invariant (StateOf(r), fired) == FireAll(old(StateOf(r)), alerts[..i])
      invariant |parts| == |fired| && forall j | 0 <= j < |fired| :: parts[j] == N.Part(render, fired[j])
    {
      ghost var st := StateOf(r);
      var a := FireAlert(r, alerts[i]);
      FireAllStep(old(StateOf(r)), alerts, i, st, fired, StateOf(r), a);
      fired := fired + [a];
      parts := parts + [N.Part(render, a)];
      i := i + 1;
    }
    assert alerts[..i] == alerts;
    N.PartsFromPointwise(render, fired, parts);
    content := Join("\n", parts);
  }

  /** The resolved loop (transformer.py:199-248). */
  method ResolveAlerts(r: Option<RedisClient>, alerts: seq<Alert>, render: N.Renderer)
    returns (content: string, ghost resolved: seq<Alert>)
    modifies if r.Some? then {r.value} else {}
    ensures (StateOf(r), resolved) == ResolveAll(old(StateOf(r)), alerts)
    ensures content == N.Content(render, resolved)
  {
    var parts: seq<string> := [];
    resolved := [];
    var i := 0;
    while i < |alerts|
      invariant 0 <= i <= |alerts|
      invariant (StateOf(r), resolved) == ResolveAll(old(StateOf(r)), alerts[..i])
      invariant |parts| == |resolved| && forall j | 0 <= j < |resolved| :: parts[j] == N.Part(render, resolved[j])
    {
      ghost var st := StateOf(r);
      var a := ResolveAlert(r, alerts[i]);
      ResolveAllStep(old(StateOf(r)), alerts, i, st, resolved, StateOf(r), a);
      resolved := resolved + [a];
      parts := parts + [N.Part(render, a)];
      i := i + 1;
    }
    assert alerts[..i] == alerts;
    N.PartsFromPointwise(render, resolved, parts);
    content := Join("\n", parts);
  }

  /**
   * `transform_to_markdown(notification_data)`: the keyspace ends in the
   * state `Transform` gives and the two messages carry its bodies.
   */
  method TransformToMarkdown(raws: seq<RawAlert>, r: Option<RedisClient>, render: N.Renderer)
    returns (firing: Option<Message>, resolved: Option<Message>)
    modifies if r.Some? then {r.value} else {}
    ensures firing.Some? ==> fresh(firing.value.Repr())
    ensures resolved.Some? ==> fresh(resolved.value.Repr())
    ensures var spec := Transform(raws, old(StateOf(r)), render);
      StateOf(r) == spec.0 && N.BodyOf(firing) == spec.1 && N.BodyOf(resolved) == spec.2
  {
    ghost var ks0 := StateOf(r);
    var parsed := N.ParseAlerts(raws);
    if parsed.None? {
      return None, None;
    }
    assert StateOf(r) == ks0;
    firing, resolved := TransformAlerts(parsed.value, r, render, ks0);
  }

  /** Everything after parsing: the two loops, then the WeChat Work messages. */
  method TransformAlerts(alerts: seq<Alert>, r: Option<RedisClient>, render: N.Renderer, ghost ks0: Option<K.Keyspace>)
    returns (firing: Option<Message>, resolved: Option<Message>)
    requires ks0 == StateOf(r)
    modifies if r.Some? then {r.value} else {}
    ensures firing.Some? ==> fresh(firing.value.Repr())
    ensures resolved.Some? ==> fresh(resolved.value.Repr())
    ensures var fireRun := FireAll(ks0, N.WithStatus(alerts, "firing"));
      var resolveRun := ResolveAll(fireRun.0, N.WithStatus(alerts, "resolved"));
      && StateOf(r) == resolveRun.0
      && N.BodyOf(firing) == MessageBody(N.Content(render, fireRun.1), true)
      && N.BodyOf(resolved) == MessageBody(N.Content(render, resolveRun.1), false)
  {
    var firingContent, fired := FireAlerts(r, N.WithStatus(alerts, "firing"), render);
    var resolvedContent, done := ResolveAlerts(r, N.WithStatus(alerts, "resolved"), render);
    firing, resolved := None, None;
    if firingContent != "" {
      var m := NewQyWeChat(N.FiringTitleQyWeChat + firingContent);
      firing := Some(m);
    }
    if resolvedContent != "" {
      var m := NewQyWeChat(N.ResolvedTitleQyWeChat + resolvedContent);
      resolved := Some(m);
    }
  }

  // ============================================================= lemmas

  /**
   * A firing alert with a fingerprint and a client: the start time is
   * overwritten with this alert's, the count is the stored count plus one
   * (or 1), and the information fields change only when that count is 1.
   */
  lemma FireStepBehaviour(s: K.Keyspace, a: Alert)
    requires a.fingerprint != ""
    ensures var (ks', a') := FireStep(Some(s), a);
      var fp := a.fingerprint;
      && ks'.Some? && fp in ks'.value.db
      && a'.startTime == a.startsAt
      && a'.count == K.HGetCount(s, fp).GetOr(0) + 1
      && K.HGetCount(ks'.value, fp) == Some(a'.count)
      && K.HGet(ks'.value, fp, K.StartTime) == Some(a.startsAt)
      && (a'.count == 1 ==>
            && K.HGet(ks'.value, fp, K.Alertname) == K.Overwrite(K.HGet(s, fp, K.Alertname), Some(Get(a.labels, "alertname", "")))
            && K.HGet(ks'.value, fp, K.Summary) == K.Overwrite(K.HGet(s, fp, K.Summary), Some(Get(a.annotations, "summary", "")))
            && K.HGet(ks'.value, fp, K.Instance) == K.Overwrite(K.HGet(s, fp, K.Instance), Some(Get(a.labels, "instance", ""))))
      && (a'.count != 1 ==>
            && K.HGet(ks'.value, fp, K.Alertname) == K.HGet(s, fp, K.Alertname)
            && K.HGet(ks'.value, fp, K.Summary) == K.HGet(s, fp, K.Summary)
            && K.HGet(ks'.value, fp, K.Instance) == K.HGet(s, fp, K.Instance))
  {
    var fp := a.fingerprint;
    var k2 := K.HIncrBy(K.HSet(s, fp, K.StartTime, a.startsAt), fp, 1).0;
    StoreInfoBehaviour(k2, fp, a);
  }

  /** The information HSETs touch only the information fields of the one hash. */
  lemma StoreInfoBehaviour(ks: K.Keyspace, fp: string, a: Alert)
    ensures var ks' := StoreInfo(ks, fp, a);
      && (fp in ks.db ==> fp in ks'.db)
      && K.HGetCount(ks', fp) == K.HGetCount(ks, fp)
      && K.HGet(ks', fp, K.StartTime) == K.HGet(ks, fp, K.StartTime)
      && K.HGet(ks', fp, K.Alertname) == K.Overwrite(K.HGet(ks, fp, K.Alertname), Some(Get(a.labels, "alertname", "")))
      && K.HGet(ks', fp, K.Summary) == K.Overwrite(K.HGet(ks, fp, K.Summary), Some(Get(a.annotations, "summary", "")))
      && K.HGet(ks', fp, K.Instance) == K.Overwrite(K.HGet(ks, fp, K.Instance), Some(Get(a.labels, "instance", "")))
  {
    var k1 := K.HSetIf(ks, fp, K.Alertname, Some(Get(a.labels, "alertname", "")));
    var k2 := K.HSetIf(k1, fp, K.Summary, Some(Get(a.annotations, "summary", "")));
    var k3 := K.HSetIf(k2, fp, K.Instance, Some(Get(a.labels, "instance", "")));
    K.HSetIfReads(ks, fp, K.Alertname, Some(Get(a.labels, "alertname", "")));
    K.HSetIfReads(k1, fp, K.Summary, Some(Get(a.annotations, "summary", "")));
    K.HSetIfReads(k2, fp, K.Instance, Some(Get(a.labels, "instance", "")));
    K.HSetIfReads(k3, fp, K.Severity, Some(N.Severity(a.labels)));
  }

  /** Without a fingerprint or without a client the count is 1 and the keyspace is untouched. */
  lemma FireWithoutClient(ks: Option<K.Keyspace>, a: Alert)
    requires a.fingerprint == "" || ks.None?
    ensures FireStep(ks, a) == (ks, a.(startTime := a.startsAt, count := 1))
  {
  }

  /** The same firing alert delivered `n` times. */
  function Refire(ks: Option<K.Keyspace>, a: Alert, n: nat): Option<K.Keyspace> {
    if n == 0 then ks else FireStep(Refire(ks, a, n - 1), a).0
  }

  /**
   * From a hash with no count, the `n`-th delivery of a firing alert is
   * rendered with count `n`, and the hash then holds count `n` and this
   * alert's start time.
   */
  lemma {:induction false} NthFiringOfEpisode(s: K.Keyspace, a: Alert, n: nat)
    requires a.fingerprint != "" && K.HGetCount(s, a.fingerprint).None? && n >= 1
    ensures FireStep(Refire(Some(s), a, n - 1), a).1.count == n
    ensures var r := Refire(Some(s), a, n);
      && r.Some? && K.HGetCount(r.value, a.fingerprint) == Some(n)
      && K.HGet(r.value, a.fingerprint, K.StartTime) == Some(a.startsAt)
  {
    if n > 1 {
      NthFiringOfEpisode(s, a, n - 1);
    }
    FireStepBehaviour(Refire(Some(s), a, n - 1).value, a);
  }

  /**
   * A resolved alert with a fingerprint and a client: a stored start time
   * wins over `startsAt`; the summary, instance and alertname are restored
   * from the hash, never over a non-empty incoming value; the hash is gone
   * and the next firing of the fingerprint counts 1.
   */
  lemma ResolveStepBehaviour(s: K.Keyspace, a: Alert)
    requires a.fingerprint != ""
    ensures var (ks', a') := ResolveStep(Some(s), a);
      var fp := a.fingerprint;
      var stored := K.HGet(s, fp, K.StartTime);
      && ks'.Some? && fp !in ks'.value.db
      && (OptTruthy(stored) ==> a'.startTime == stored.value)
      && (!OptTruthy(stored) ==> a'.startTime == a.startsAt)
      && a'.endTime == N.EndTime(a) && a'.count == a.count
      && N.Restored(a.annotations, a'.annotations, "summary", K.HGet(s, fp, K.Summary))
      && N.Restored(a.labels, a'.labels, "instance", K.HGet(s, fp, K.Instance))
      && N.Restored(a.labels, a'.labels, "alertname", K.HGet(s, fp, K.Alertname))
      && N.Untouched(a.annotations, a'.annotations, {"summary"})
      && N.Untouched(a.labels, a'.labels, {"instance", "alertname"})
      && FireStep(ks', a).1.count == 1
  {
    var fp := a.fingerprint;
    N.BackfillBehaviour(a.annotations, "summary", K.HGet(s, fp, K.Summary));
    N.BackfillBehaviour(a.labels, "instance", K.HGet(s, fp, K.Instance));
    N.BackfillBehaviour(N.Backfill(a.labels, "instance", K.HGet(s, fp, K.Instance)), "alertname", K.HGet(s, fp, K.Alertname));
    FireStepBehaviour(K.Del(s, fp), a);
  }

  /** `b`'s summary, instance and alertname filled from what the first firing `a` stored. */
  function FilledFromFirst(a: Alert, b: Alert): (map<string, string>, map<string, string>) {
    (N.Backfill(b.annotations, "summary", NoneIfEmpty(Get(a.annotations, "summary", ""))),
     N.Backfill(N.Backfill(b.labels, "instance", NoneIfEmpty(Get(a.labels, "instance", ""))),
                "alertname", NoneIfEmpty(Get(a.labels, "alertname", ""))))
  }

  /** First firing `a`, repeat `a2`, resolution `b` on a fresh hash of the old coordinator. */
  lemma LegacyEpisode(ks: K.Keyspace, a: Alert, a2: Alert, b: Alert)
    requires a.fingerprint != "" && a2.fingerprint == a.fingerprint && b.fingerprint == a.fingerprint
    requires a.fingerprint !in ks.db
    ensures var (ks1, la) := FireStep(Some(ks), a);
      var (ks2, la2) := FireStep(ks1, a2);
      var lb := ResolveStep(ks2, b).1;
      && la.count == 1 && la2.count == 2
      && (lb.annotations, lb.labels) == FilledFromFirst(a, b)
      && lb.startTime == a2.startsAt
  {
    var fp := a.fingerprint;
    FireStepBehaviour(ks, a);
    var ks1 := FireStep(Some(ks), a).0.value;
    FireStepBehaviour(ks1, a2);
    var ks2 := FireStep(Some(ks1), a2).0.value;
    assert K.HGet(ks2, fp, K.Summary) == NoneIfEmpty(Get(a.annotations, "summary", ""));
    assert K.HGet(ks2, fp, K.Instance) == NoneIfEmpty(Get(a.labels, "instance", ""));
    assert K.HGet(ks2, fp, K.Alertname) == NoneIfEmpty(Get(a.labels, "alertname", ""));
  }

  /** The same episode on an empty record of either backend of the new coordinator. */
  lemma NewEpisode(s: Storage.Store, a: Alert, a2: Alert, b: Alert, now: string)
    requires s.Valid() && s.Online() && !s.Exists(a.fingerprint)
    requires a.fingerprint != "" && a2.fingerprint == a.fingerprint && b.fingerprint == a.fingerprint
    ensures var (st1, na) := N.FireStep(Some(s), a, now);
      var (st2, na2) := N.FireStep(st1, a2, now);
      var nb := N.ResolveStep(st2, b, now).1;
      && na.count == 1 && na2.count == 2
      && (nb.annotations, nb.labels) == FilledFromFirst(a, b)
      && nb.startTime == b.startsAt
  {
    N.FireStepBehaviour(s, a, now);
    N.FirstFiringStoresRecord(s, a, now);
    var st1 := N.FireStep(Some(s), a, now).0.value;
    N.FireStepBehaviour(st1, a2, now);
    N.RepeatFiringKeepsEpisode(st1, a2, now);
  }

  /**
   * One episode on a fresh fingerprint, as both coordinators run it: the
   * first firing `a` and a repeat `a2` count 1 and 2 in both, and the
   * resolved `b` gets back the same summary, instance and alertname, those of
   * `a`. The firing alerts they show are equal, and the resolved ones differ
   * only in the start time: the old coordinator reports the last firing's,
   * the new one `b`'s own `startsAt`.
   */
  lemma CoordinatorsCompared(s: Storage.Store, ks: K.Keyspace, a: Alert, a2: Alert, b: Alert, now: string)
    requires s.Valid() && s.Online() && !s.Exists(a.fingerprint)
    requires a.fingerprint != "" && a2.fingerprint == a.fingerprint && b.fingerprint == a.fingerprint
    requires a.fingerprint !in ks.db
    ensures var (ks1, la) := FireStep(Some(ks), a);
      var (ks2, la2) := FireStep(ks1, a2);
      var lb := ResolveStep(ks2, b).1;
      var (st1, na) := N.FireStep(Some(s), a, now);
      var (st2, na2) := N.FireStep(st1, a2, now);
      var nb := N.ResolveStep(st2, b, now).1;
      && la.count == na.count == 1
      && la2.count == na2.count == 2
      && lb.annotations == nb.annotations && lb.labels == nb.labels
      && N.Restored(b.annotations, lb.annotations, "summary", NoneIfEmpty(Get(a.annotations, "summary", "")))
      && nb.startTime == b.startsAt
      && lb.startTime == a2.startsAt
      && la == na && la2 == na2
      && lb == nb.(startTime := lb.startTime)
  {
    LegacyEpisode(ks, a, a2, b);
    NewEpisode(s, a, a2, b, now);
    N.BackfillBehaviour(b.annotations, "summary", NoneIfEmpty(Get(a.annotations, "summary", "")));
  }

  /** The old coordinator's messages are the new one's WeChat Work messages. */
  lemma MessagesAreWeChat(content: string, firing: bool)
    ensures MessageBody(content, firing) == N.MessageBody("qywechat", content, firing)
    ensures MessageBody(content, firing).Some? <==> content != ""
  {
  }

  /** An alert the parser rejects fails the whole call before any Redis command. */
  lemma MalformedAlertFailsCall(raws: seq<RawAlert>, i: nat, ks: Option<K.Keyspace>, render: N.Renderer)
    requires i < |raws|
    requires raws[i].status.None? || !raws[i].startsAt.At? || raws[i].endsAt.Malformed?
    ensures Transform(raws, ks, render) == (ks, None, None)
  {
    assert ParseAlert(raws[i]).None?;
  }
}
