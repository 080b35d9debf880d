/**
 * The `StorageBackend` interface (src/storage.py:28-114). A backend is either
 * of the two implementations; `Store` is the value a backend holds (the
 * SQLite table or the Redis keyspace, and whether the engine is reachable),
 * and its member functions give every interface operation's meaning. The
 * `Backend` methods dispatch to the implementation's methods and are proved
 * to follow those functions; the lemmas state the interface contract that
 * the coordinators rely on, for both implementations.
 */
module Storage {
  import opened Wrappers
  import opened Text
  import opened AlertRecord
  import T = SqliteTable
  import K = RedisKeyspace
  import opened SqliteStorage
  import opened RedisStorage

  /** `delete_expired`'s default `batch_size` (src/storage.py:748). */
  const DefaultBatchSize := 1000

  datatype Store =
    | SqliteStore(table: T.Table, sqliteOnline: bool)
    | RedisStore(keyspace: K.Keyspace, redisOnline: bool)
  {
    predicate Valid() {
      match this
      case SqliteStore(t, _) => T.Valid(t)
      case RedisStore(ks, _) => K.Valid(ks)
    }

    predicate Online() {
      match this
      case SqliteStore(_, on) => on
      case RedisStore(_, on) => on
    }

    predicate Exists(fp: string) {
      match this
      case SqliteStore(t, on) => on && T.Exists(t, fp)
      case RedisStore(ks, on) => on && K.Exists(ks, fp)
    }

    function IncrementCount(fp: string, now: string): (Store, int) {
      if !Online() then (this, 1)
      else match this
        case SqliteStore(t, on) => var (t', n) := T.IncrementCount(t, fp, now); (SqliteStore(t', on), n)
        case RedisStore(ks, on) => var (ks', n) := K.IncrementCount(ks, fp); (RedisStore(ks', on), n)
    }

    function SetStartTime(fp: string, startTime: string, now: string): Store {
      if !Online() then this
      else match this
        case SqliteStore(t, on) => SqliteStore(T.SetStartTime(t, fp, startTime, now), on)
        case RedisStore(ks, on) => RedisStore(K.SetStartTime(ks, fp, startTime), on)
    }

    function SetAlertInfo(fp: string, alertname: Option<string>, summary: Option<string>,
                          instance: Option<string>, severity: Option<string>, now: string): Store {
      if !Online() then this
      else match this
        case SqliteStore(t, on) => SqliteStore(T.SetAlertInfo(t, fp, alertname, summary, instance, severity, now), on)
        case RedisStore(ks, on) => RedisStore(K.SetAlertInfo(ks, fp, alertname, summary, instance, severity), on)
    }

    function GetStartTime(fp: string): Option<string> {
      if !Online() then None
      else match this
        case SqliteStore(t, _) => T.GetStartTime(t, fp)
        case RedisStore(ks, _) => K.GetStartTime(ks, fp)
    }

    function GetAlertInfo(fp: string): AlertInfo {
      if !Online() then NoInfo
      else match this
        case SqliteStore(t, _) => T.GetAlertInfo(t, fp)
        case RedisStore(ks, _) => K.GetAlertInfo(ks, fp)
    }

    function GetAlertCount(fp: string): Option<int> {
      if !Online() then None
      else match this
        case SqliteStore(t, _) => T.GetAlertCount(t, fp)
        case RedisStore(ks, _) => K.GetAlertCount(ks, fp)
    }

    function Delete(fp: string, endsAt: Option<string>, now: string): Store {
      if !Online() then this
      else match this
        case SqliteStore(t, on) => SqliteStore(T.Delete(t, fp, endsAt, now), on)
        case RedisStore(ks, on) => RedisStore(K.Delete(ks, fp), on)
    }

    /** Only Redis keeps a time to live; SQLite ignores `expire`. */
    function Expire(fp: string, seconds: int): Store {
      if !Online() then this
      else match this
        case SqliteStore(_, _) => this
        case RedisStore(ks, on) => RedisStore(K.ExpireAlert(ks, fp, seconds), on)
    }

    /**
     * Only SQLite keeps history; Redis returns 0 without touching anything.
     * `failAt` is the SQLite batch whose statement or commit raises, if any.
     */
    function DeleteExpired(cutoff: Option<string>, failAt: Option<nat>): (Store, nat) {
      match this
      case SqliteStore(t, on) =>
        if on then
          var (rows', n) := T.Sweep(t.rows, cutoff, DefaultBatchSize, failAt);
          (SqliteStore(T.Table(rows', t.nextId), on), n)
        else (this, 0)
      case RedisStore(_, _) => (this, 0)
    }

    function RecordSendHistory(fp: string, platform: Option<string>, alertStatus: string, sendSuccess: bool,
                               errorMessage: Option<string>, webhookUrl: Option<string>, now: string): Store {
      match this
      case SqliteStore(t, on) =>
        if on then SqliteStore(T.RecordSendHistory(t, fp, platform, alertStatus, sendSuccess, errorMessage, webhookUrl, now), on)
        else this
      case RedisStore(_, _) => this
    }
  }

  datatype Backend = SqliteBackend(sqlite: SqliteStorageBackend) | RedisBackend(redis: RedisStorageBackend)
  {
    function Repr(): set<object> {
      match this
      case SqliteBackend(s) => {s}
      case RedisBackend(r) => {r}
    }

    ghost function State(): Store
      reads Repr()
    {
      match this
      case SqliteBackend(s) => SqliteStore(s.Contents(), s.online)
      case RedisBackend(r) => RedisStore(r.Contents(), r.online)
    }

    ghost predicate Valid()
      reads Repr()
    {
      State().Valid()
    }

    method Exists(fp: string) returns (r: bool)
      ensures r == State().Exists(fp)
    {
      match this
      case SqliteBackend(s) => r := s.Exists(fp);
      case RedisBackend(b) => r := b.Exists(fp);
    }

    method IncrementCount(fp: string, now: string) returns (count: int)
      requires Valid()
      modifies Repr()
      ensures Valid() && (State(), count) == old(State()).IncrementCount(fp, now)
    {
      match this
      case SqliteBackend(s) => count := s.IncrementCount(fp, now);
      case RedisBackend(b) => count := b.IncrementCount(fp);
    }

    method SetStartTime(fp: string, startTime: string, now: string)
      requires Valid()
      modifies Repr()
      ensures Valid() && State() == old(State()).SetStartTime(fp, startTime, now)
    {
      match this
      case SqliteBackend(s) => s.SetStartTime(fp, startTime, now);
      case RedisBackend(b) => b.SetStartTime(fp, startTime);
    }

    method SetAlertInfo(fp: string, alertname: Option<string>, summary: Option<string>,
                        instance: Option<string>, severity: Option<string>, now: string)
      requires Valid()
      modifies Repr()
      ensures Valid() && State() == old(State()).SetAlertInfo(fp, alertname, summary, instance, severity, now)
    {
      match this
      case SqliteBackend(s) => s.SetAlertInfo(fp, alertname, summary, instance, severity, now);
      case RedisBackend(b) => b.SetAlertInfo(fp, alertname, summary, instance, severity);
    }

    method GetStartTime(fp: string) returns (r: Option<string>)
      ensures r == State().GetStartTime(fp)
    {
      match this
      case SqliteBackend(s) => r := s.GetStartTime(fp);
      case RedisBackend(b) => r := b.GetStartTime(fp);
    }

    method GetAlertInfo(fp: string) returns (r: AlertInfo)
      ensures r == State().GetAlertInfo(fp)
    {
      match this
      case SqliteBackend(s) => r := s.GetAlertInfo(fp);
      case RedisBackend(b) => r := b.GetAlertInfo(fp);
    }

    method GetAlertCount(fp: string) returns (r: Option<int>)
      ensures r == State().GetAlertCount(fp)
    {
      match this
      case SqliteBackend(s) => r := s.GetAlertCount(fp);
      case RedisBackend(b) => r := b.GetAlertCount(fp);
    }

    method Delete(fp: string, endsAt: Option<string>, now: string)
      requires Valid()
      modifies Repr()
      ensures Valid() && State() == old(State()).Delete(fp, endsAt, now)
    {
      match this
      case SqliteBackend(s) => s.Delete(fp, endsAt, now);
      case RedisBackend(b) => b.Delete(fp);
    }

    method Expire(fp: string, seconds: int)
      requires Valid()
      modifies Repr()
      ensures Valid() && State() == old(State()).Expire(fp, seconds)
    {
      match this
      case SqliteBackend(s) =>
      case RedisBackend(b) => b.Expire(fp, seconds);
    }

    /** `delete_expired(cutoff_time)` with the SQLite backend's default batch size. */
    method DeleteExpired(cutoff: Option<string>, failAt: Option<nat>) returns (deleted: nat)
      requires Valid()
      modifies Repr()
      ensures Valid() && (State(), deleted) == old(State()).DeleteExpired(cutoff, failAt)
    {
      match this
      case SqliteBackend(s) => deleted := s.DeleteExpired(cutoff, DefaultBatchSize, failAt);
      case RedisBackend(b) => deleted := b.DeleteExpired(cutoff);
    }

    method RecordSendHistory(fp: string, platform: Option<string>, alertStatus: string, sendSuccess: bool,
                             errorMessage: Option<string>, webhookUrl: Option<string>, now: string)
      requires Valid()
      modifies Repr()
      ensures Valid()
      ensures State() == old(State()).RecordSendHistory(fp, platform, alertStatus, sendSuccess, errorMessage, webhookUrl, now)
    {
      match this
      case SqliteBackend(s) => s.RecordSendHistory(fp, platform, alertStatus, sendSuccess, errorMessage, webhookUrl, now);
      case RedisBackend(_) =>
    }
  }

  // ======================================================= interface lemmas

  /** Every interface operation keeps the backend's invariant. */
  lemma OperationsKeepValid(s: Store, fp: string, startTime: string, alertname: Option<string>,
                            summary: Option<string>, instance: Option<string>, severity: Option<string>,
                            endsAt: Option<string>, seconds: int, cutoff: Option<string>, failAt: Option<nat>,
                            now: string)
    requires s.Valid()
    ensures s.IncrementCount(fp, now).0.Valid()
    ensures s.SetStartTime(fp, startTime, now).Valid()
    ensures s.SetAlertInfo(fp, alertname, summary, instance, severity, now).Valid()
    ensures s.Delete(fp, endsAt, now).Valid()
    ensures s.Expire(fp, seconds).Valid()
    ensures s.DeleteExpired(cutoff, failAt).0.Valid()
  {
    match s
    case SqliteStore(t, _) =>
      T.IncrementKeepsValid(t, fp, now);
      T.SetStartTimeKeepsValid(t, fp, startTime, now);
      T.SetAlertInfoKeepsValid(t, fp, alertname, summary, instance, severity, now);
      T.DeleteKeepsValid(t, fp, endsAt, now);
      T.SweepKeepsValid(t, cutoff, DefaultBatchSize, failAt);
    case RedisStore(ks, _) =>
      K.OperationsKeepValid(ks, fp, startTime, alertname, summary, instance, severity, seconds);
  }

  /** An unreachable backend answers with the safe defaults and changes nothing. */
  lemma UnavailableDefaults(s: Store, fp: string, startTime: string, endsAt: Option<string>,
                            seconds: int, cutoff: Option<string>, failAt: Option<nat>, now: string)
    requires !s.Online()
    ensures !s.Exists(fp)
    ensures s.IncrementCount(fp, now) == (s, 1)
    ensures s.SetStartTime(fp, startTime, now) == s
    ensures s.GetStartTime(fp).None? && s.GetAlertCount(fp).None? && s.GetAlertInfo(fp) == NoInfo
    ensures s.Delete(fp, endsAt, now) == s && s.Expire(fp, seconds) == s
    ensures s.DeleteExpired(cutoff, failAt) == (s, 0)
  {
  }

  /** `exists` is true exactly when there is a current count to increment. */
  lemma ExistsIffCount(s: Store, fp: string)
    requires s.Valid()
    ensures s.Exists(fp) ==> s.Online()
    ensures s.SqliteStore? ==> (s.Exists(fp) <==> s.GetAlertCount(fp).Some?)
    ensures s.RedisStore? ==> (s.GetAlertCount(fp).Some? ==> s.Exists(fp))
  {
    match s
    case SqliteStore(t, on) =>
      T.ExistsIffActive(t, fp);
    case RedisStore(ks, on) =>
  }

  /**
   * `increment_count`: the count the backend holds for the fingerprint goes
   * up by one, starting from 1 when it has none (src/storage.py:200-211,
   * 496-532); afterwards the fingerprint exists with that count. Unreachable,
   * it returns 1.
   */
  lemma IncrementBehaviour(s: Store, fp: string, now: string)
    requires s.Valid()
    ensures var (s', n) := s.IncrementCount(fp, now);
      && n >= 1
      && (s.GetAlertCount(fp).None? ==> n == 1)
      && (s.GetAlertCount(fp).Some? ==> n == s.GetAlertCount(fp).value + 1)
      && (s.Online() ==> s'.Exists(fp) && s'.GetAlertCount(fp) == Some(n))
      && s'.Online() == s.Online()
  {
    match s
    case SqliteStore(t, on) =>
      if on { T.IncrementBehaviour(t, fp, now); }
    case RedisStore(ks, on) =>
      if on { K.IncrementBehaviour(ks, fp); }
  }

  /** A first firing (no `exists`) always counts 1. */
  lemma FirstFiringCountsOne(s: Store, fp: string, now: string)
    requires s.Valid() && !s.Exists(fp)
    ensures s.IncrementCount(fp, now).1 == 1
  {
    ExistsIffCount(s, fp);
    IncrementBehaviour(s, fp, now);
  }

  /** `n` consecutive `increment_count` calls for one fingerprint. */
  function Increments(s: Store, fp: string, now: string, n: nat): Store {
    if n == 0 then s else Increments(s, fp, now, n - 1).IncrementCount(fp, now).0
  }

  /** From a fingerprint with no count, the `n`-th firing returns `n` (and leaves count `n` stored). */
  lemma {:induction false} NthFiringCountsN(s: Store, fp: string, now: string, n: nat)
    requires s.Valid() && s.Online() && s.GetAlertCount(fp).None? && n >= 1
    ensures Increments(s, fp, now, n - 1).IncrementCount(fp, now).1 == n
    ensures Increments(s, fp, now, n).GetAlertCount(fp) == Some(n)
    ensures Increments(s, fp, now, n).Valid() && Increments(s, fp, now, n).Online()
  {
    if n == 1 {
      IncrementBehaviour(s, fp, now);
      OperationsKeepValid(s, fp, "", None, None, None, None, None, 0, None, None, now);
    } else {
      NthFiringCountsN(s, fp, now, n - 1);
      var p := Increments(s, fp, now, n - 1);
      IncrementBehaviour(p, fp, now);
      OperationsKeepValid(p, fp, "", None, None, None, None, None, 0, None, None, now);
    }
  }

  /**
   * `delete` ends the episode on both backends: the fingerprint no longer
   * exists, there is no current count, the next firing counts 1 and a second
   * `delete` changes nothing.
   */
  lemma DeleteEndsEpisode(s: Store, fp: string, endsAt: Option<string>, now: string,
                          endsAt2: Option<string>, now2: string)
    requires s.Valid()
    ensures var s' := s.Delete(fp, endsAt, now);
      && !s'.Exists(fp)
      && s'.GetAlertCount(fp).None?
      && s'.IncrementCount(fp, now2).1 == 1
      && s'.Delete(fp, endsAt2, now2) == s'
  {
    var s' := s.Delete(fp, endsAt, now);
    OperationsKeepValid(s, fp, "", None, None, None, None, endsAt, 0, None, None, now);
    match s
    case SqliteStore(t, on) =>
      if on {
        T.DeleteBehaviour(t, fp, endsAt, now);
        T.DeleteTwiceIsNoop(t, fp, endsAt, now, endsAt2, now2);
      }
    case RedisStore(ks, on) =>
      if on { K.DeleteBehaviour(ks, fp); }
    FirstFiringCountsOne(s', fp, now2);
  }

  /**
   * Where the two backends differ: SQLite keeps the resolved row, so
   * `get_alert_info` and `get_start_time` read the same after `delete`;
   * Redis drops the hash, so they read nothing. A resolution therefore has to
   * read the stored info before it deletes.
   */
  lemma DeleteAndHistory(s: Store, fp: string, endsAt: Option<string>, now: string)
    requires s.Valid()
    ensures s.SqliteStore? ==> s.Delete(fp, endsAt, now).GetAlertInfo(fp) == s.GetAlertInfo(fp)
    ensures s.SqliteStore? ==> s.Delete(fp, endsAt, now).GetStartTime(fp) == s.GetStartTime(fp)
    ensures s.RedisStore? ==> s.Delete(fp, endsAt, now).GetAlertInfo(fp) == NoInfo
    ensures s.RedisStore? ==> s.Delete(fp, endsAt, now).GetStartTime(fp).None?
  {
    match s
    case SqliteStore(t, on) =>
      if on { T.DeleteKeepsHistory(t, fp, endsAt, now); }
    case RedisStore(ks, on) =>
      if on { K.DeleteBehaviour(ks, fp); }
  }

  /** The value a column or hash field ends up with when it was empty and `set_alert_info` got `v`. */
  function Given(v: Option<string>): (r: Option<string>)
    ensures r.Some? ==> r == v && v.value != ""
    ensures OptTruthy(v) ==> r == v
  {
    if OptTruthy(v) then v else None
  }

  /**
   * A repeat firing (`exists` true): `increment_count` followed by `expire`
   * leaves the start time and the information stored at the first firing as
   * they were, and the fingerprint holds the new count.
   */
  lemma RepeatFiringKeepsRecord(s: Store, fp: string, now: string, seconds: int)
    requires s.Valid() && s.Exists(fp) && seconds > 0
    ensures var (s1, n) := s.IncrementCount(fp, now);
      var s2 := s1.Expire(fp, seconds);
      && s2.Valid() && s2.Online() && s2.Exists(fp)
      && s2.GetAlertCount(fp) == Some(n)
      && s2.GetStartTime(fp) == s.GetStartTime(fp)
      && s2.GetAlertInfo(fp) == s.GetAlertInfo(fp)
  {
    OperationsKeepValid(s, fp, "", None, None, None, None, None, 0, None, None, now);
    IncrementBehaviour(s, fp, now);
    var s1 := s.IncrementCount(fp, now).0;
    OperationsKeepValid(s1, fp, "", None, None, None, None, None, seconds, None, None, now);
    match s
    case SqliteStore(t, _) =>
      T.ExistsIffActive(t, fp);
      T.ActiveIsNewest(t, fp);
      var k := T.Active(t, fp).value;
      var t1 := s1.table;
      assert forall j :: k < j < |t1.rows| ==> t1.rows[j] == t.rows[j];
      T.NewestUnique(t1.rows, fp, true, k);
      T.ActiveIsNewest(t1, fp);
    case RedisStore(ks, _) =>
      K.IncrementBehaviour(ks, fp);
      K.ExpireBehaviour(s1.keyspace, fp, seconds);
  }

  /**
   * A first firing (`exists` false) on a reachable backend: after
   * `increment_count`, `expire`, `set_start_time` and `set_alert_info` the
   * fingerprint is firing with count 1, holds the given start time and holds
   * exactly the non-empty parts of the information given.
   */
  lemma FirstFiringRecords(s: Store, fp: string, startTime: string, alertname: Option<string>,
                           summary: Option<string>, instance: Option<string>, severity: Option<string>,
                           now: string, seconds: int)
    requires s.Valid() && s.Online() && !s.Exists(fp) && seconds > 0
    ensures var (s1, n) := s.IncrementCount(fp, now);
      var s2 := s1.Expire(fp, seconds).SetStartTime(fp, startTime, now)
                  .SetAlertInfo(fp, alertname, summary, instance, severity, now);
      && n == 1
      && s2.Valid() && s2.Online() && s2.Exists(fp)
      && s2.GetAlertCount(fp) == Some(1)
      && s2.GetStartTime(fp) == Some(startTime)
      && s2.GetAlertInfo(fp) == AlertInfo(Given(alertname), Given(summary), Given(instance))
  {
    FirstFiringCountsOne(s, fp, now);
    match s
    case SqliteStore(t, _) =>
      T.FirstFiringRow(t, fp, startTime, alertname, summary, instance, severity, now);
    case RedisStore(ks, _) =>
      K.FirstFiringHash(ks, fp, startTime, alertname, summary, instance, severity, seconds);
  }

  /** The four reads of one fingerprint. */
  function View(s: Store, fp: string): (bool, Option<int>, Option<string>, AlertInfo) {
    (s.Exists(fp), s.GetAlertCount(fp), s.GetStartTime(fp), s.GetAlertInfo(fp))
  }

  /** Operations on one fingerprint leave what every other fingerprint reads unchanged. */
  lemma OtherFingerprintsUnaffected(s: Store, fp: string, other: string, startTime: string,
                                    alertname: Option<string>, summary: Option<string>,
                                    instance: Option<string>, severity: Option<string>,
                                    endsAt: Option<string>, seconds: int, now: string)
    requires other != fp
    ensures View(s.IncrementCount(fp, now).0, other) == View(s, other)
    ensures View(s.SetStartTime(fp, startTime, now), other) == View(s, other)
    ensures View(s.SetAlertInfo(fp, alertname, summary, instance, severity, now), other) == View(s, other)
    ensures View(s.Delete(fp, endsAt, now), other) == View(s, other)
    ensures View(s.Expire(fp, seconds), other) == View(s, other)
  {
    match s
    case SqliteStore(t, on) =>
      if on { SqliteOthersUnaffected(s, fp, other, startTime, alertname, summary, instance, severity, endsAt, seconds, now); }
    case RedisStore(ks, on) =>
      if on { RedisOthersUnaffected(s, fp, other, startTime, alertname, summary, instance, severity, endsAt, seconds, now); }
  }

  lemma SqliteOthersUnaffected(s: Store, fp: string, other: string, startTime: string,
                                    alertname: Option<string>, summary: Option<string>,
                                    instance: Option<string>, severity: Option<string>,
                                    endsAt: Option<string>, seconds: int, now: string)
    requires s.SqliteStore? && s.sqliteOnline
    requires other != fp
    ensures View(s.IncrementCount(fp, now).0, other) == View(s, other)
    ensures View(s.SetStartTime(fp, startTime, now), other) == View(s, other)
    ensures View(s.SetAlertInfo(fp, alertname, summary, instance, severity, now), other) == View(s, other)
    ensures View(s.Delete(fp, endsAt, now), other) == View(s, other)
    ensures View(s.Expire(fp, seconds), other) == View(s, other)
  {
    var t := s.table;
    T.MutationsChangeOnlyFor(t, fp, startTime, alertname, summary, instance, severity, endsAt,
                             None, "", false, None, None, now);
    T.ViewsElsewhere(t, T.IncrementCount(t, fp, now).0, fp, other);
    T.ViewsElsewhere(t, T.SetStartTime(t, fp, startTime, now), fp, other);
    T.ViewsElsewhere(t, T.SetAlertInfo(t, fp, alertname, summary, instance, severity, now), fp, other);
    T.ViewsElsewhere(t, T.Delete(t, fp, endsAt, now), fp, other);
  }

  lemma RedisOthersUnaffected(s: Store, fp: string, other: string, startTime: string,
                                    alertname: Option<string>, summary: Option<string>,
                                    instance: Option<string>, severity: Option<string>,
                                    endsAt: Option<string>, seconds: int, now: string)
    requires s.RedisStore? && s.redisOnline
    requires other != fp
    ensures View(s.IncrementCount(fp, now).0, other) == View(s, other)
    ensures View(s.SetStartTime(fp, startTime, now), other) == View(s, other)
    ensures View(s.SetAlertInfo(fp, alertname, summary, instance, severity, now), other) == View(s, other)
    ensures View(s.Delete(fp, endsAt, now), other) == View(s, other)
    ensures View(s.Expire(fp, seconds), other) == View(s, other)
  {
    var ks := s.keyspace;
    K.OtherFingerprintsUntouched(ks, fp, other, startTime, alertname, summary, instance, severity, seconds);
    RedisViewAt(ks, K.IncrementCount(ks, fp).0, other);
    RedisViewAt(ks, K.SetStartTime(ks, fp, startTime), other);
    RedisViewAt(ks, K.SetAlertInfo(ks, fp, alertname, summary, instance, severity), other);
    RedisViewAt(ks, K.Delete(ks, fp), other);
    RedisViewAt(ks, K.ExpireAlert(ks, fp, seconds), other);
  }

  /** What an online Redis store reads for `fp` depends only on the hash at its key. */
  lemma RedisViewAt(ks: K.Keyspace, ks': K.Keyspace, fp: string)
    requires K.SameAt(ks, ks', K.Key(fp))
    ensures View(RedisStore(ks', true), fp) == View(RedisStore(ks, true), fp)
  {
  }
}
