/**
 * A Redis keyspace as the alert code uses it: one hash per key with the
 * fields `count`, `startTime`, `alertname`, `summary`, `instance` and
 * `severity`, plus the keys' time-to-live settings. The hash commands are
 * functions on the keyspace value; the second half gives the meaning of each
 * `RedisStorageBackend` operation (src/storage.py:117-331), which works on
 * the key `"alertmanager:alert:" + fingerprint`.
 */
module RedisKeyspace {
  import opened Wrappers
  import opened Text
  import opened AlertRecord

  /** The string-valued hash fields (`count` is kept apart: HINCRBY treats it as an integer). */
  datatype Field = StartTime | Alertname | Summary | Instance | Severity

  datatype Hash = Hash(count: Option<int>, startTime: Option<string>, alertname: Option<string>,
                       summary: Option<string>, instance: Option<string>, severity: Option<string>)

  /** The hash of an absent key (Redis never stores an empty hash). */
  const NoHash := Hash(None, None, None, None, None, None)

  datatype Keyspace = Keyspace(db: map<string, Hash>, ttl: map<string, int>)

  const EmptyKeyspace := Keyspace(map[], map[])

  /**
   * Stored hashes are non-empty, an expiry exists only for a stored key, and
   * counts written by `HINCRBY key count 1` are positive.
   */
  predicate Valid(ks: Keyspace) {
    && (forall k | k in ks.db :: ks.db[k] != NoHash)
    && (forall k | k in ks.db :: ks.db[k].count.Some? ==> ks.db[k].count.value >= 1)
    && ks.ttl.Keys <= ks.db.Keys
  }

  function GetField(h: Hash, f: Field): Option<string> {
    match f
    case StartTime => h.startTime
    case Alertname => h.alertname
    case Summary => h.summary
    case Instance => h.instance
    case Severity => h.severity
  }

  function SetField(h: Hash, f: Field, v: string): (h': Hash)
    ensures GetField(h', f) == Some(v) && h'.count == h.count
    ensures forall g :: g != f ==> GetField(h', g) == GetField(h, g)
  {
    match f
    case StartTime => h.(startTime := Some(v))
    case Alertname => h.(alertname := Some(v))
    case Summary => h.(summary := Some(v))
    case Instance => h.(instance := Some(v))
    case Severity => h.(severity := Some(v))
  }

  function Lookup(ks: Keyspace, key: string): Hash {
    if key in ks.db then ks.db[key] else NoHash
  }

  // ------------------------------------------------------------ commands

  /** `HSET key field value`: creates the hash if needed, keeps any expiry. */
  function HSet(ks: Keyspace, key: string, f: Field, v: string): Keyspace {
    ks.(db := ks.db[key := SetField(Lookup(ks, key), f, v)])
  }

  /** `HINCRBY key count delta`: an absent field counts as 0; returns the new value. */
  function HIncrBy(ks: Keyspace, key: string, delta: int): (Keyspace, int) {
    var h := Lookup(ks, key);
    var n := h.count.GetOr(0) + delta;
    (ks.(db := ks.db[key := h.(count := Some(n))]), n)
  }

  function HGet(ks: Keyspace, key: string, f: Field): Option<string> {
    GetField(Lookup(ks, key), f)
  }

  function HGetCount(ks: Keyspace, key: string): Option<int> {
    Lookup(ks, key).count
  }

  /** `DEL key`: the hash and its expiry go. */
  function Del(ks: Keyspace, key: string): Keyspace {
    Keyspace(ks.db - {key}, ks.ttl - {key})
  }

  predicate KeyExists(ks: Keyspace, key: string) {
    key in ks.db
  }

  /** `EXPIRE key seconds`: nothing for an absent key; a non-positive time deletes the key. */
  function Expire(ks: Keyspace, key: string, seconds: int): Keyspace {
    if key !in ks.db then ks
    else if seconds <= 0 then Del(ks, key)
    else ks.(ttl := ks.ttl[key := seconds])
  }

  // ------------------------------------------------ the backend on top

  const KeyPrefix := "alertmanager:alert:"

  /** `ALERT_KEY_TTL`: seven days in seconds. */
  const AlertKeyTtl := 7 * 24 * 60 * 60

  /** `_get_redis_key`. */
  function Key(fp: string): (k: string)
    ensures StartsWith(k, KeyPrefix) && |k| == |KeyPrefix| + |fp| && k[|KeyPrefix|..] == fp
  {
    KeyPrefix + fp
  }

  predicate Exists(ks: Keyspace, fp: string) {
    KeyExists(ks, Key(fp))
  }

  /** `increment_count`: `int(count) if count else 1` on the HINCRBY reply. */
  function IncrementCount(ks: Keyspace, fp: string): (Keyspace, int) {
    var (ks', n) := HIncrBy(ks, Key(fp), 1);
    (ks', if n != 0 then n else 1)
  }

  function SetStartTime(ks: Keyspace, fp: string, startTime: string): Keyspace {
    HSet(ks, Key(fp), StartTime, startTime)
  }

  /** One queued HSET, issued only for a truthy value. */
  function HSetIf(ks: Keyspace, key: string, f: Field, v: Option<string>): Keyspace {
    if OptTruthy(v) then HSet(ks, key, f, v.value) else ks
  }

  /** `set_alert_info`: a pipeline of HSETs for the truthy arguments, executed together. */
  function SetAlertInfo(ks: Keyspace, fp: string, alertname: Option<string>, summary: Option<string>,
                        instance: Option<string>, severity: Option<string>): Keyspace {
    var key := Key(fp);
    HSetIf(HSetIf(HSetIf(HSetIf(ks, key, Alertname, alertname), key, Summary, summary),
                  key, Instance, instance), key, Severity, severity)
  }

  function GetStartTime(ks: Keyspace, fp: string): Option<string> {
    HGet(ks, Key(fp), StartTime)
  }

  function GetAlertInfo(ks: Keyspace, fp: string): AlertInfo {
    AlertInfo(HGet(ks, Key(fp), Alertname), HGet(ks, Key(fp), Summary), HGet(ks, Key(fp), Instance))
  }

  /** `get_alert_count`: a stored count always renders as a non-empty string. */
  function GetAlertCount(ks: Keyspace, fp: string): Option<int> {
    HGetCount(ks, Key(fp))
  }

  function Delete(ks: Keyspace, fp: string): Keyspace {
    Del(ks, Key(fp))
  }

  function ExpireAlert(ks: Keyspace, fp: string, seconds: int): Keyspace {
    Expire(ks, Key(fp), seconds)
  }

  /** Only the hash at `key` may differ between `ks` and `ks'`. */
  ghost predicate OnlyKeyChanged(ks: Keyspace, ks': Keyspace, key: string) {
    && (forall k | k != key :: Lookup(ks', k) == Lookup(ks, k))
    && (forall k | k != key :: (k in ks'.ttl <==> k in ks.ttl))
    && (forall k | k != key && k in ks.ttl && k in ks'.ttl :: ks'.ttl[k] == ks.ttl[k])
  }

  // ================================================================ lemmas

  lemma KeyInjective(a: string, b: string)
    ensures Key(a) == Key(b) <==> a == b
  {
    if Key(a) == Key(b) {
      assert a == Key(a)[|KeyPrefix|..];
    }
  }

  lemma HSetIfKeepsValid(ks: Keyspace, key: string, f: Field, v: Option<string>)
    requires Valid(ks)
    ensures Valid(HSetIf(ks, key, f, v))
    ensures OnlyKeyChanged(ks, HSetIf(ks, key, f, v), key)
    ensures HSetIf(ks, key, f, v).ttl == ks.ttl
  {
    if OptTruthy(v) {
      var h' := SetField(Lookup(ks, key), f, v.value);
      assert GetField(h', f) != GetField(NoHash, f);
    }
  }

  lemma OperationsKeepValid(ks: Keyspace, fp: string, s: string, alertname: Option<string>,
                            summary: Option<string>, instance: Option<string>,
                            severity: Option<string>, seconds: int)
    requires Valid(ks)
    ensures Valid(IncrementCount(ks, fp).0)
    ensures Valid(SetStartTime(ks, fp, s))
    ensures Valid(SetAlertInfo(ks, fp, alertname, summary, instance, severity))
    ensures Valid(Delete(ks, fp))
    ensures Valid(ExpireAlert(ks, fp, seconds))
  {
    IncrementKeepsValid(ks, fp);
    SetStartTimeKeepsValid(ks, fp, s);
    SetAlertInfoKeepsValid(ks, fp, alertname, summary, instance, severity);
  }

  lemma IncrementKeepsValid(ks: Keyspace, fp: string)
    requires Valid(ks)
    ensures Valid(IncrementCount(ks, fp).0)
  {
  }

  lemma SetStartTimeKeepsValid(ks: Keyspace, fp: string, s: string)
    requires Valid(ks)
    ensures Valid(SetStartTime(ks, fp, s))
  {
    HSetIfKeepsValid(ks, Key(fp), StartTime, Some(s));
    var h' := SetField(Lookup(ks, Key(fp)), StartTime, s);
    assert h'.startTime != NoHash.startTime;
  }

  /** The four conditional HSETs of `set_alert_info` keep the keyspace valid and touch only its key. */
  lemma SetAlertInfoKeepsValid(ks: Keyspace, fp: string, alertname: Option<string>, summary: Option<string>,
                               instance: Option<string>, severity: Option<string>)
    requires Valid(ks)
    ensures Valid(SetAlertInfo(ks, fp, alertname, summary, instance, severity))
    ensures OnlyKeyChanged(ks, SetAlertInfo(ks, fp, alertname, summary, instance, severity), Key(fp))
    ensures SetAlertInfo(ks, fp, alertname, summary, instance, severity).ttl == ks.ttl
  {
    var key := Key(fp);
    var ks1 := HSetIf(ks, key, Alertname, alertname);
    HSetIfKeepsValid(ks, key, Alertname, alertname);
    var ks2 := HSetIf(ks1, key, Summary, summary);
    HSetIfKeepsValid(ks1, key, Summary, summary);
    var ks3 := HSetIf(ks2, key, Instance, instance);
    HSetIfKeepsValid(ks2, key, Instance, instance);
    HSetIfKeepsValid(ks3, key, Severity, severity);
  }

  /** `increment_count` on a key: 1 for a new hash or new field, the old count + 1 otherwise. */
  lemma IncrementBehaviour(ks: Keyspace, fp: string)
    requires Valid(ks)
    ensures var (ks', n) := IncrementCount(ks, fp);
      && n >= 1
      && (GetAlertCount(ks, fp).None? ==> n == 1)
      && (GetAlertCount(ks, fp).Some? ==> n == GetAlertCount(ks, fp).value + 1)
      && GetAlertCount(ks', fp) == Some(n)
      && Exists(ks', fp)
      && GetAlertInfo(ks', fp) == GetAlertInfo(ks, fp)
      && GetStartTime(ks', fp) == GetStartTime(ks, fp)
      && ks'.ttl == ks.ttl
      && OnlyKeyChanged(ks, ks', Key(fp))
  {
  }

  /** `delete` drops everything stored for the fingerprint: a later read finds nothing. */
  lemma DeleteBehaviour(ks: Keyspace, fp: string)
    ensures var ks' := Delete(ks, fp);
      && !Exists(ks', fp)
      && GetAlertCount(ks', fp).None?
      && GetStartTime(ks', fp).None?
      && GetAlertInfo(ks', fp) == NoInfo
      && Key(fp) !in ks'.ttl
      && OnlyKeyChanged(ks, ks', Key(fp))
      && Delete(ks', fp) == ks'
      && IncrementCount(ks', fp).1 == 1
  {
  }

  lemma SetStartTimeBehaviour(ks: Keyspace, fp: string, startTime: string)
    ensures var ks' := SetStartTime(ks, fp, startTime);
      && GetStartTime(ks', fp) == Some(startTime)
      && GetAlertInfo(ks', fp) == GetAlertInfo(ks, fp)
      && GetAlertCount(ks', fp) == GetAlertCount(ks, fp)
      && Exists(ks', fp)
      && ks'.ttl == ks.ttl
      && OnlyKeyChanged(ks, ks', Key(fp))
  {
  }

  /** The value a field holds after an HSET issued only for a truthy argument. */
  function Overwrite(old_: Option<string>, arg: Option<string>): Option<string> {
    if OptTruthy(arg) then arg else old_
  }

  lemma SetAlertInfoBehaviour(ks: Keyspace, fp: string, alertname: Option<string>, summary: Option<string>,
                              instance: Option<string>, severity: Option<string>)
    requires Valid(ks)
    ensures var ks' := SetAlertInfo(ks, fp, alertname, summary, instance, severity);
      var key := Key(fp);
      && HGet(ks', key, Alertname) == Overwrite(HGet(ks, key, Alertname), alertname)
      && HGet(ks', key, Summary) == Overwrite(HGet(ks, key, Summary), summary)
      && HGet(ks', key, Instance) == Overwrite(HGet(ks, key, Instance), instance)
      && HGet(ks', key, Severity) == Overwrite(HGet(ks, key, Severity), severity)
      && GetStartTime(ks', fp) == GetStartTime(ks, fp)
      && GetAlertCount(ks', fp) == GetAlertCount(ks, fp)
      && ks'.ttl == ks.ttl
      && OnlyKeyChanged(ks, ks', key)
      && (!OptTruthy(alertname) && !OptTruthy(summary) && !OptTruthy(instance) && !OptTruthy(severity) ==> ks' == ks)
  {
    SetAlertInfoKeepsValid(ks, fp, alertname, summary, instance, severity);
    SetAlertInfoFields(ks, fp, alertname, summary, instance, severity);
  }

  lemma SetAlertInfoFields(ks: Keyspace, fp: string, alertname: Option<string>, summary: Option<string>,
                           instance: Option<string>, severity: Option<string>)
    ensures var ks' := SetAlertInfo(ks, fp, alertname, summary, instance, severity);
      var key := Key(fp);
      && HGet(ks', key, Alertname) == Overwrite(HGet(ks, key, Alertname), alertname)
      && HGet(ks', key, Summary) == Overwrite(HGet(ks, key, Summary), summary)
      && HGet(ks', key, Instance) == Overwrite(HGet(ks, key, Instance), instance)
      && HGet(ks', key, Severity) == Overwrite(HGet(ks, key, Severity), severity)
      && HGet(ks', key, StartTime) == HGet(ks, key, StartTime)
      && HGetCount(ks', key) == HGetCount(ks, key)
  {
    var key := Key(fp);
    var ks1 := HSetIf(ks, key, Alertname, alertname);
    var ks2 := HSetIf(ks1, key, Summary, summary);
    var ks3 := HSetIf(ks2, key, Instance, instance);
    HSetIfReads(ks, key, Alertname, alertname);
    HSetIfReads(ks1, key, Summary, summary);
    HSetIfReads(ks2, key, Instance, instance);
    HSetIfReads(ks3, key, Severity, severity);
  }

  /** What an HSET issued only for a truthy value leaves in each field of its key. */
  lemma HSetIfReads(ks: Keyspace, key: string, f: Field, v: Option<string>)
    ensures forall g :: HGet(HSetIf(ks, key, f, v), key, g) == (if g == f then Overwrite(HGet(ks, key, f), v) else HGet(ks, key, g))
    ensures HGetCount(HSetIf(ks, key, f, v), key) == HGetCount(ks, key)
    ensures key in ks.db ==> key in HSetIf(ks, key, f, v).db
  {
  }

  /** `expire` sets the time to live of a stored key and touches no data. */
  lemma ExpireBehaviour(ks: Keyspace, fp: string, seconds: int)
    requires seconds > 0
    ensures var ks' := ExpireAlert(ks, fp, seconds);
      && ks'.db == ks.db
      && (Exists(ks, fp) ==> Key(fp) in ks'.ttl && ks'.ttl[Key(fp)] == seconds)
      && (!Exists(ks, fp) ==> ks' == ks)
      && OnlyKeyChanged(ks, ks', Key(fp))
  {
  }

  /**
   * A first firing: the hash does not exist, so after `increment_count`,
   * `expire`, `set_start_time` and `set_alert_info` it holds count 1, the
   * start time and exactly the truthy information fields.
   */
  lemma FirstFiringHash(ks: Keyspace, fp: string, startTime: string, alertname: Option<string>,
                        summary: Option<string>, instance: Option<string>, severity: Option<string>, seconds: int)
    requires Valid(ks) && !Exists(ks, fp) && seconds > 0
    ensures var ks' := SetAlertInfo(SetStartTime(ExpireAlert(IncrementCount(ks, fp).0, fp, seconds), fp, startTime),
                                    fp, alertname, summary, instance, severity);
      && Valid(ks') && Exists(ks', fp)
      && GetAlertCount(ks', fp) == Some(1)
      && GetStartTime(ks', fp) == Some(startTime)
      && GetAlertInfo(ks', fp) == AlertInfo(Overwrite(None, alertname), Overwrite(None, summary), Overwrite(None, instance))
  {
    var ks1 := IncrementCount(ks, fp).0;
    IncrementBehaviour(ks, fp);
    OperationsKeepValid(ks, fp, startTime, alertname, summary, instance, severity, seconds);
    var ks2 := ExpireAlert(ks1, fp, seconds);
    ExpireBehaviour(ks1, fp, seconds);
    OperationsKeepValid(ks1, fp, startTime, alertname, summary, instance, severity, seconds);
    var ks3 := SetStartTime(ks2, fp, startTime);
    SetStartTimeBehaviour(ks2, fp, startTime);
    OperationsKeepValid(ks2, fp, startTime, alertname, summary, instance, severity, seconds);
    SetAlertInfoBehaviour(ks3, fp, alertname, summary, instance, severity);
    OperationsKeepValid(ks3, fp, startTime, alertname, summary, instance, severity, seconds);
  }

  /** `key` holds the same hash, and is stored or absent alike, in both keyspaces. */
  ghost predicate SameAt(ks: Keyspace, ks': Keyspace, key: string) {
    (key in ks'.db <==> key in ks.db) && Lookup(ks', key) == Lookup(ks, key)
  }

  /** Operations on one fingerprint leave the hash of every other fingerprint as it was. */
  lemma OtherFingerprintsUntouched(ks: Keyspace, fp: string, other: string, s: string,
                                   alertname: Option<string>, summary: Option<string>,
                                   instance: Option<string>, severity: Option<string>, seconds: int)
    requires other != fp
    ensures SameAt(ks, IncrementCount(ks, fp).0, Key(other))
    ensures SameAt(ks, SetStartTime(ks, fp, s), Key(other))
    ensures SameAt(ks, SetAlertInfo(ks, fp, alertname, summary, instance, severity), Key(other))
    ensures SameAt(ks, Delete(ks, fp), Key(other))
    ensures SameAt(ks, ExpireAlert(ks, fp, seconds), Key(other))
  {
    KeyInjective(fp, other);
    SetAlertInfoElsewhere(ks, fp, alertname, summary, instance, severity, Key(other));
  }

  lemma SetAlertInfoElsewhere(ks: Keyspace, fp: string, alertname: Option<string>, summary: Option<string>,
                              instance: Option<string>, severity: Option<string>, other: string)
    requires other != Key(fp)
    ensures SameAt(ks, SetAlertInfo(ks, fp, alertname, summary, instance, severity), other)
  {
    var key := Key(fp);
    var ks1 := HSetIf(ks, key, Alertname, alertname);
    var ks2 := HSetIf(ks1, key, Summary, summary);
    var ks3 := HSetIf(ks2, key, Instance, instance);
    HSetIfElsewhere(ks, key, Alertname, alertname, other);
    HSetIfElsewhere(ks1, key, Summary, summary, other);
    HSetIfElsewhere(ks2, key, Instance, instance, other);
    HSetIfElsewhere(ks3, key, Severity, severity, other);
  }

  lemma HSetIfElsewhere(ks: Keyspace, key: string, f: Field, v: Option<string>, other: string)
    requires other != key
    ensures SameAt(ks, HSetIf(ks, key, f, v), other)
  {
  }
}
