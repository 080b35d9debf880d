/**
 * `CleanupScheduler` (src/cleanup_scheduler.py): a background loop that,
 * once a day at the configured `HH:MM`, asks the storage backend to delete
 * the resolved rows older than the retention period. Instants are whole
 * seconds on the scheduler's local wall clock, so a day is 86400 seconds and
 * `now % Day` is the time of day; each clock reading, and each strftime of
 * an instant, is a parameter.
 */
module CleanupScheduling {
  import opened Wrappers
  import opened Text
  import opened AlertRecord
  import T = SqliteTable
  import Storage

  const Day := 24 * 60 * 60

  /** The pause after a failed iteration (src/cleanup_scheduler.py:127). */
  const RetryDelay := 3600

  // =========================================================== parsing

  predicate IsDigit(c: char) { '0' <= c <= '9' }

  predicate IsDigits(s: string) {
    |s| > 0 && forall i | 0 <= i < |s| :: IsDigit(s[i])
  }

  function DigitValue(c: char): nat
    requires IsDigit(c)
  {
    c as int - '0' as int
  }

  function DigitsValue(s: string): nat
    requires forall i | 0 <= i < |s| :: IsDigit(s[i])
  {
    if s == [] then 0 else DigitsValue(s[..|s| - 1]) * 10 + DigitValue(s[|s| - 1])
  }

  /** `int(s)` for an optionally signed string of ASCII digits; anything else raises. */
  function ParseInt(s: string): Option<int> {
    if |s| > 0 && (s[0] == '+' || s[0] == '-') && IsDigits(s[1..]) then
      var v: int := DigitsValue(s[1..]);
      Some(if s[0] == '-' then -v else v)
    else if IsDigits(s) then Some(DigitsValue(s))
    else None
  }

  /**
   * `hour, minute = map(int, cleanup_time.split(':'))` followed by
   * `now.replace(hour=hour, minute=minute)`: exactly two integer pieces, an
   * hour in 0..23 and a minute in 0..59; anything else raises.
   */
  function ParseCleanupTime(s: string): Option<(int, int)> {
    var parts := Split(s, ':');
    if |parts| != 2 then None
    else match (ParseInt(parts[0]), ParseInt(parts[1]))
      case (Some(h), Some(m)) => if 0 <= h < 24 && 0 <= m < 60 then Some((h, m)) else None
      case _ => None
  }

  /** `n` as two decimal digits, the way `HH:MM` writes it. */
  function Pad2(n: nat): (s: string)
    requires n < 100
    ensures |s| == 2 && IsDigits(s)
  {
    [('0' as int + n / 10) as char, ('0' as int + n % 10) as char]
  }

  // ========================================================= scheduling

  /** Seconds after midnight of the configured `HH:MM`. */
  function Slot(h: int, m: int): int {
    h * 3600 + m * 60
  }

  /**
   * `calculate_next_run_time` (src/cleanup_scheduler.py:54-71): today's
   * `HH:MM:00`, or tomorrow's when today's is not after `now`; None when the
   * configured time raises.
   */
  function NextRunTime(now: int, cleanupTime: string): Option<int> {
    match ParseCleanupTime(cleanupTime)
    case None => None
    case Some((h, m)) =>
      var todayRun := now - now % Day + Slot(h, m);
      Some(if todayRun <= now then todayRun + Day else todayRun)
  }

  /**
   * The argument of `delete_expired` (src/cleanup_scheduler.py:77-88): None for
   * a retention of 0 days, otherwise `now - retention_days` days as the
   * backend formats it.
   */
  function CutoffArgument(retentionDays: int, now: int, format: int -> string): (r: Option<string>)
    ensures r.None? <==> retentionDays == 0
  {
    if retentionDays == 0 then None else Some(format(now - retentionDays * Day))
  }

  /**
   * The timezone chosen by `__init__` (src/cleanup_scheduler.py:36-45): the
   * named zone when pytz knows it, UTC when it does not, and the system
   * clock (None) without pytz.
   */
  function ChooseTimezone(timezoneStr: string, knownZones: set<string>, pytzAvailable: bool): (r: Option<string>)
    ensures r.Some? <==> pytzAvailable
    ensures r.Some? ==> r.value in knownZones + {"UTC"}
    ensures pytzAvailable && timezoneStr in knownZones ==> r == Some(timezoneStr)
  {
    if !pytzAvailable then None
    else if timezoneStr in knownZones then Some(timezoneStr)
    else Some("UTC")
  }

  /**
   * What one loop iteration meets: the clock as it reads it (planning,
   * computing the wait, and cleaning after the sleep), and the SQLite batch,
   * if any, whose statement or commit raises during that iteration's sweep.
   */
  datatype Reading = Reading(plan: int, check: int, wake: int, failBatch: Option<nat>)

  /** What one iteration of `run` did. */
  datatype Iteration = Cleaned(waited: int, deleted: nat) | Retry(delay: int)

  /** One iteration of the loop (src/cleanup_scheduler.py:108-127). */
  function Iterate(st: Storage.Store, retentionDays: int, cleanupTime: string, r: Reading,
                   format: int -> string): (Storage.Store, Iteration)
  {
    match NextRunTime(r.plan, cleanupTime)
    case None => (st, Retry(RetryDelay))
    case Some(next) =>
      var wait := next - r.check;
      var (st', n) := st.DeleteExpired(CutoffArgument(retentionDays, r.wake, format), r.failBatch);
      (st', Cleaned(if wait > 0 then wait else 0, n))
  }

  /** The iterations that happen before `stop()`. */
  function RunAll(st: Storage.Store, retentionDays: int, cleanupTime: string, readings: seq<Reading>,
                  format: int -> string): (r: (Storage.Store, seq<Iteration>))
    ensures |r.1| == |readings|
  {
    if readings == [] then (st, [])
    else
      var (st1, done) := RunAll(st, retentionDays, cleanupTime, readings[..|readings| - 1], format);
      var (st2, it) := Iterate(st1, retentionDays, cleanupTime, readings[|readings| - 1], format);
      (st2, done + [it])
  }

  class CleanupScheduler {
    const storage: Storage.Backend
    const retentionDays: int
    const cleanupTime: string
    const timezone: Option<string>
    var running: bool

    /** `__init__` (src/cleanup_scheduler.py:21-45). */
    constructor (storage: Storage.Backend, retentionDays: int, cleanupTime: string, timezoneStr: string,
                 knownZones: set<string>, pytzAvailable: bool)
      ensures this.storage == storage && this.retentionDays == retentionDays && this.cleanupTime == cleanupTime
      ensures timezone == ChooseTimezone(timezoneStr, knownZones, pytzAvailable)
      ensures running
    {
      this.storage := storage;
      this.retentionDays := retentionDays;
      this.cleanupTime := cleanupTime;
      timezone := ChooseTimezone(timezoneStr, knownZones, pytzAvailable);
      running := true;
    }

    /** `cleanup_expired_records` (src/cleanup_scheduler.py:73-95) at the clock reading `now`. */
    method CleanupExpiredRecords(now: int, format: int -> string, failAt: Option<nat>) returns (deleted: nat)
      requires storage.Valid()
      modifies storage.Repr()
      ensures storage.Valid()
      ensures (storage.State(), deleted) == old(storage.State()).DeleteExpired(CutoffArgument(retentionDays, now, format), failAt)
    {
      if retentionDays == 0 {
        deleted := storage.DeleteExpired(None, failAt);
      } else {
        var cutoffTime := now - retentionDays * Day;
        deleted := storage.DeleteExpired(Some(format(cutoffTime)), failAt);
      }
    }

    /** One pass of the loop body, with its exception handler. */
    method RunOnce(r: Reading, format: int -> string) returns (it: Iteration)
      requires storage.Valid()
      modifies storage.Repr()
      ensures storage.Valid()
      ensures (storage.State(), it) == Iterate(old(storage.State()), retentionDays, cleanupTime, r, format)
    {
      var next := NextRunTime(r.plan, cleanupTime);
      if next.None? {
        // `calculate_next_run_time` raised: the handler sleeps an hour.
        return Retry(RetryDelay);
      }
      var waitSeconds := next.value - r.check;
      // `time.sleep(wait_seconds)` when positive; the clock then reads `r.wake`.
      var deleted := CleanupExpiredRecords(r.wake, format, r.failBatch);
      it := Cleaned(if waitSeconds > 0 then waitSeconds else 0, deleted);
    }

    /**
     * `run` (src/cleanup_scheduler.py:97-127): iterate while `running`. The
     * other thread's `stop()` lands after the iterations it lets happen,
     * which read the clock as `readings` says.
     */
    method Run(readings: seq<Reading>, format: int -> string) returns (log: seq<Iteration>)
      requires storage.Valid()
      modifies this, storage.Repr()
      ensures storage.Valid() && !running
      ensures var spec := RunAll(old(storage.State()), retentionDays, cleanupTime,
                                 if old(running) then readings else [], format);
        storage.State() == spec.0 && log == spec.1
    {
      ghost var st0 := storage.State();
      ghost var started := running;
      log := [];
      var i := 0;
      while running
        invariant i <= |readings| && storage.Valid()
        invariant started || (i == 0 && !running)
        invariant started ==> running || i == |readings|
        invariant (storage.State(), log) == RunAll(st0, retentionDays, cleanupTime, readings[..i], format)
        decreases |readings| - i + (if running then 1 else 0)
      {
        if i == |readings| {
          Stop();
        } else {
          RunAllUnfold(st0, retentionDays, cleanupTime, readings, i, format);
          var it := RunOnce(readings[i], format);
          log := log + [it];
          i := i + 1;
        }
      }
      if started {
        assert readings[..i] == readings;
      }
    }

    /** `stop` (src/cleanup_scheduler.py:129-132). */
    method Stop()
      modifies this
      ensures !running
    {
      running := false;
    }
  }

  lemma RunAllUnfold(st: Storage.Store, retentionDays: int, cleanupTime: string, readings: seq<Reading>, i: nat,
                     format: int -> string)
    requires i < |readings|
    ensures var (st1, done) := RunAll(st, retentionDays, cleanupTime, readings[..i], format);
      var (st2, it) := Iterate(st1, retentionDays, cleanupTime, readings[i], format);
      RunAll(st, retentionDays, cleanupTime, readings[..i + 1], format) == (st2, done + [it])
  {
    assert readings[..i + 1][..i] == readings[..i];
  }

  // ============================================================= lemmas

  lemma Pad2Value(n: nat)
    requires n < 100
    ensures DigitsValue(Pad2(n)) == n && ParseInt(Pad2(n)) == Some(n) && ':' !in Pad2(n)
  {
    var s := Pad2(n);
    assert s[..1] == [s[0]];
    assert DigitsValue(s[..1]) == n / 10;
  }

  /** A time written as `HH:MM` parses back to its hour and minute. */
  lemma CleanupTimeRoundTrip(h: nat, m: nat)
    requires h < 24 && m < 60
    ensures ParseCleanupTime(Pad2(h) + ":" + Pad2(m)) == Some((h, m))
  {
    Pad2Value(h);
    Pad2Value(m);
    SplitAtSeparator(Pad2(h), Pad2(m), ':');
    assert Pad2(h) + ":" + Pad2(m) == Pad2(h) + [':'] + Pad2(m);
  }

  /** A configured time parses only to a valid hour and minute. */
  lemma CleanupTimeInRange(s: string)
    requires ParseCleanupTime(s).Some?
    ensures var (h, m) := ParseCleanupTime(s).value;
      0 <= h < 24 && 0 <= m < 60 && 0 <= Slot(h, m) < Day && Slot(h, m) % 60 == 0
  {
  }

  /**
   * The next run is strictly after `now`, at most a day later, falls on the
   * configured hour and minute with zero seconds, and no earlier instant
   * after `now` does.
   */
  lemma NextRunTimeMeaning(now: int, cleanupTime: string)
    requires ParseCleanupTime(cleanupTime).Some?
    ensures NextRunTime(now, cleanupTime).Some?
    ensures var (h, m) := ParseCleanupTime(cleanupTime).value;
      var next := NextRunTime(now, cleanupTime).value;
      && now < next <= now + Day
      && next % Day == Slot(h, m)
      && next % 60 == 0
      && forall t | now < t < next :: t % Day != Slot(h, m)
  {
    var (h, m) := ParseCleanupTime(cleanupTime).value;
    CleanupTimeInRange(cleanupTime);
    NextSlot(now, Slot(h, m));
  }

  /** The first instant after `now` whose time of day is `slot`, as `next_run_time` finds it. */
  lemma NextSlot(now: int, slot: int)
    requires 0 <= slot < Day && slot % 60 == 0
    ensures var todayRun := now - now % Day + slot;
      var next := if todayRun <= now then todayRun + Day else todayRun;
      && now < next <= now + Day
      && next % Day == slot
      && next % 60 == 0
      && forall t | now < t < next :: t % Day != slot
  {
    var q := now / Day;
    var r := now % Day;
    assert now == q * Day + r;
    if slot <= r {
      NextSlotTomorrow(now, q, r, slot);
    } else {
      NextSlotToday(now, q, r, slot);
    }
  }

  lemma NextSlotTomorrow(now: int, q: int, r: int, slot: int)
    requires 0 <= slot <= r < Day && slot % 60 == 0 && now == q * Day + r
    ensures var next := (q + 1) * Day + slot;
      && next % Day == slot
      && next % 60 == 0
      && forall t | now < t < next :: t % Day != slot
  {
    var next := (q + 1) * Day + slot;
    ModOfMultiplePlus(q + 1, slot);
    forall t | now < t < next ensures t % Day != slot {
      TimeOfDayInDay(t, q, r, slot, next);
    }
    MultipleOfSixty(next, slot);
  }

  lemma NextSlotToday(now: int, q: int, r: int, slot: int)
    requires 0 <= r < slot < Day && slot % 60 == 0 && now == q * Day + r
    ensures var next := q * Day + slot;
      && next % Day == slot
      && next % 60 == 0
      && forall t | now < t < next :: t % Day != slot
  {
    var next := q * Day + slot;
    ModOfMultiplePlus(q, slot);
    forall t | now < t < next ensures t % Day != slot {
      ModOfMultiplePlus(q, t - q * Day);
    }
    MultipleOfSixty(next, slot);
  }

  lemma ModOfMultiplePlus(q: int, r: int)
    requires 0 <= r < Day
    ensures (q * Day + r) % Day == r && (q * Day + r) / Day == q
  {
  }

  lemma TimeOfDayInDay(t: int, q: int, r: int, slot: int, next: int)
    requires 0 <= slot <= r < Day && next == (q + 1) * Day + slot && q * Day + r < t < next
    ensures t % Day != slot
  {
    if t < (q + 1) * Day {
      ModOfMultiplePlus(q, t - q * Day);
    } else {
      ModOfMultiplePlus(q + 1, t - (q + 1) * Day);
    }
  }

  lemma MultipleOfSixty(next: int, slot: int)
    requires next % Day == slot && slot % 60 == 0
    ensures next % 60 == 0
  {
    var q := next / Day;
    assert next == q * 1440 * 60 + slot;
    assert next == (q * 1440 + slot / 60) * 60;
  }

  /** A configured time that raises makes every iteration wait an hour and touch nothing. */
  lemma {:induction false} BadTimeNeverCleans(st: Storage.Store, retentionDays: int, cleanupTime: string,
                                              readings: seq<Reading>, format: int -> string)
    requires ParseCleanupTime(cleanupTime).None?
    ensures RunAll(st, retentionDays, cleanupTime, readings, format).0 == st
    ensures forall i | 0 <= i < |readings| :: RunAll(st, retentionDays, cleanupTime, readings, format).1[i] == Retry(RetryDelay)
  {
    if readings != [] {
      BadTimeNeverCleans(st, retentionDays, cleanupTime, readings[..|readings| - 1], format);
    }
  }

  /** With a valid time, a wait measured after planning is positive until the slot and at most a day. */
  lemma IterationWaits(st: Storage.Store, retentionDays: int, cleanupTime: string, r: Reading, format: int -> string)
    requires ParseCleanupTime(cleanupTime).Some? && r.plan <= r.check
    ensures var it := Iterate(st, retentionDays, cleanupTime, r, format).1;
      && it.Cleaned?
      && 0 <= it.waited <= Day
      && (r.check == r.plan ==> it.waited > 0)
  {
    NextRunTimeMeaning(r.plan, cleanupTime);
  }

  /**
   * On a reachable SQLite store a cleanup removes only rows that are expired
   * for its cutoff, so never a firing row. When no batch raises, or the count
   * it reports is positive, it keeps exactly the rows that are not expired,
   * and with a retention of 0 days no resolved row at all; when a batch the
   * loop reaches raises, it reports 0 although the earlier batches' rows are gone.
   */
  lemma IterationSweeps(t: T.Table, retentionDays: int, cleanupTime: string, r: Reading, format: int -> string)
    requires ParseCleanupTime(cleanupTime).Some?
    ensures var cutoff := CutoffArgument(retentionDays, r.wake, format);
      var (st', it) := Iterate(Storage.SqliteStore(t, true), retentionDays, cleanupTime, r, format);
      && st'.SqliteStore? && it.Cleaned?
      && (forall row | row in st'.table.rows :: row in t.rows)
      && (forall row | row in t.rows && !T.Expired(row, cutoff) :: row in st'.table.rows)
      && (forall row | row in t.rows && row.status == Firing :: row in st'.table.rows)
      && (r.failBatch.None? || it.deleted > 0 ==>
            && (forall row :: row in st'.table.rows <==> row in t.rows && !T.Expired(row, cutoff))
            && it.deleted + |st'.table.rows| == |t.rows|
            && (retentionDays == 0 ==> forall row | row in st'.table.rows :: row.status != Resolved))
      && (r.failBatch.Some? && r.failBatch.value * Storage.DefaultBatchSize <= T.CountExpired(t.rows, cutoff) ==>
            it.deleted == 0 && |st'.table.rows| + r.failBatch.value * Storage.DefaultBatchSize == |t.rows|)
  {
    var cutoff := CutoffArgument(retentionDays, r.wake, format);
    NextRunTimeMeaning(r.plan, cleanupTime);
    T.SweepMeaning(t.rows, cutoff, Storage.DefaultBatchSize, r.failBatch);
    T.SurvivorsExactly(t.rows, cutoff);
  }

  /** Redis keeps no history: the loop never changes it and every cleanup deletes 0. */
  lemma {:induction false} RedisNeverCleans(ks: Storage.Store, retentionDays: int, cleanupTime: string,
                                            readings: seq<Reading>, format: int -> string)
    requires ks.RedisStore?
    ensures RunAll(ks, retentionDays, cleanupTime, readings, format).0 == ks
    ensures forall i | 0 <= i < |readings| ::
      var it := RunAll(ks, retentionDays, cleanupTime, readings, format).1[i];
      it.Cleaned? ==> it.deleted == 0
  {
    if readings != [] {
      RedisNeverCleans(ks, retentionDays, cleanupTime, readings[..|readings| - 1], format);
    }
  }
}
