/**
 * What the SQL statements of `SQLiteStorageBackend` (src/storage.py:483-803)
 * do to the `alerts` table, as functions on a table value. The table is the
 * sequence of rows in insertion order together with the next AUTOINCREMENT
 * id; `ORDER BY id DESC LIMIT 1` is "the last matching row", which the
 * increasing ids justify (lemma NewestHasHighestId).
 */
module SqliteTable {
  import opened Wrappers
  import opened Text
  import opened AlertRecord

  datatype Table = Table(rows: seq<Row>, nextId: nat)

  /** A freshly created table: no rows, AUTOINCREMENT starts at 1. */
  const Empty := Table([], 1)

  /** The WHERE clause `fingerprint = ?` (and `status = 'firing'` when `firingOnly`). */
  predicate Matches(r: Row, fp: string, firingOnly: bool) {
    r.fingerprint == fp && (!firingOnly || r.status == Firing)
  }

  /** The position of the newest row matching the WHERE clause, if any. */
  function Newest(rows: seq<Row>, fp: string, firingOnly: bool): (k: Option<nat>)
    ensures k.Some? ==> k.value < |rows| && Matches(rows[k.value], fp, firingOnly)
    ensures k.Some? ==> forall j :: k.value < j < |rows| ==> !Matches(rows[j], fp, firingOnly)
    ensures k.None? ==> forall j :: 0 <= j < |rows| ==> !Matches(rows[j], fp, firingOnly)
  {
    if |rows| == 0 then None
    else if Matches(rows[|rows| - 1], fp, firingOnly) then Some(|rows| - 1)
    else Newest(rows[..|rows| - 1], fp, firingOnly)
  }

  /** The active firing row of a fingerprint: the newest row with status firing. */
  function Active(t: Table, fp: string): Option<nat> {
    Newest(t.rows, fp, true)
  }

  /** `SELECT COUNT(*) FROM alerts WHERE fingerprint = ? AND status = 'firing'`. */
  function FiringCount(rows: seq<Row>, fp: string): nat {
    if |rows| == 0 then 0
    else FiringCount(rows[..|rows| - 1], fp) + (if Matches(rows[|rows| - 1], fp, true) then 1 else 0)
  }

  predicate IdsIncreasing(rows: seq<Row>) {
    forall i, j :: 0 <= i < j < |rows| ==> rows[i].id < rows[j].id
  }

  predicate AtMostOneFiring(rows: seq<Row>) {
    forall i, j :: 0 <= i < j < |rows| && rows[i].status == Firing && rows[j].status == Firing ==>
      rows[i].fingerprint != rows[j].fingerprint
  }

  /** One row per completed episode: every row that has a newer row of its fingerprint is resolved. */
  predicate OlderRowsResolved(rows: seq<Row>) {
    forall i, j :: 0 <= i < j < |rows| && rows[i].fingerprint == rows[j].fingerprint ==> rows[i].status == Resolved
  }

  /**
   * The table invariant: ids strictly increase in insertion order and stay
   * below the AUTOINCREMENT counter, every row satisfies the CHECK
   * constraints, and only the newest row of a fingerprint can be firing.
   */
  predicate Valid(t: Table) {
    && IdsIncreasing(t.rows)
    && (forall i :: 0 <= i < |t.rows| ==> t.rows[i].id < t.nextId && RowOk(t.rows[i]))
    && OlderRowsResolved(t.rows)
  }

  // ---------------------------------------------------------------- queries

  /** `exists` (src/storage.py:483-494). */
  predicate Exists(t: Table, fp: string) {
    FiringCount(t.rows, fp) > 0
  }

  /** `get_start_time` (src/storage.py:600-612): the newest row of any status. */
  function GetStartTime(t: Table, fp: string): Option<string> {
    match Newest(t.rows, fp, false)
    case Some(k) => Some(t.rows[k].startTime)
    case None => None
  }

  /** `get_alert_info` (src/storage.py:614-634): the newest row of any status. */
  function GetAlertInfo(t: Table, fp: string): AlertInfo {
    match Newest(t.rows, fp, false)
    case Some(k) => AlertInfo(t.rows[k].alertname, t.rows[k].summary, t.rows[k].instance)
    case None => NoInfo
  }

  /** `get_alert_count` (src/storage.py:636-648): the active firing row only. */
  function GetAlertCount(t: Table, fp: string): Option<int> {
    match Active(t, fp)
    case Some(k) => Some(t.rows[k].count)
    case None => None
  }

  // -------------------------------------------------------------- mutations

  /** The row `increment_count` INSERTs for a first firing (src/storage.py:519-526). */
  function NewRow(id: nat, fp: string, now: string): Row {
    Row(id, fp, Firing, 1, now, None, None, None, None, None, None,
        None, None, None, None, None, now, now)
  }

  /** `increment_count` (src/storage.py:496-528): the new table and the returned count. */
  function IncrementCount(t: Table, fp: string, now: string): (Table, int) {
    match Active(t, fp)
    case Some(k) =>
      var n := t.rows[k].count + 1;
      (t.(rows := t.rows[k := t.rows[k].(count := n, updatedAt := now)]), n)
    case None =>
      (Table(t.rows + [NewRow(t.nextId, fp, now)], t.nextId + 1), 1)
  }

  /** `set_start_time` (src/storage.py:534-550). */
  function SetStartTime(t: Table, fp: string, startTime: string, now: string): Table {
    match Active(t, fp)
    case Some(k) => t.(rows := t.rows[k := t.rows[k].(startTime := startTime, updatedAt := now)])
    case None => t
  }

  /** A column written by `set_alert_info` only when its argument is truthy. */
  function Overwrite(old_: Option<string>, arg: Option<string>): Option<string> {
    if OptTruthy(arg) then arg else old_
  }

  /** `set_alert_info` (src/storage.py:555-595). */
  function SetAlertInfo(t: Table, fp: string, alertname: Option<string>, summary: Option<string>,
                        instance: Option<string>, severity: Option<string>, now: string): Table {
    match Active(t, fp)
    case Some(k) =>
      if OptTruthy(alertname) || OptTruthy(summary) || OptTruthy(instance) || OptTruthy(severity) then
        var r := t.rows[k];
        t.(rows := t.rows[k := r.(alertname := Overwrite(r.alertname, alertname),
                                  summary := Overwrite(r.summary, summary),
                                  instance := Overwrite(r.instance, instance),
                                  severity := Overwrite(r.severity, severity),
                                  updatedAt := now)])
      else t
    case None => t
  }

  /** `delete` (src/storage.py:650-685): flips the active firing row to resolved. */
  function Delete(t: Table, fp: string, endsAt: Option<string>, now: string): Table {
    match Active(t, fp)
    case Some(k) =>
      var r := t.rows[k];
      t.(rows := t.rows[k := r.(status := Resolved, resolvedAt := Some(now),
                                endsAt := if OptTruthy(endsAt) then endsAt else r.endsAt,
                                updatedAt := now)])
    case None => t
  }

  /**
   * `record_send_history` (src/storage.py:695-746). A firing send updates the
   * active firing row, any other status the newest row; a platform outside the
   * CHECK set makes the UPDATE fail and roll back. The alert_count, alertname,
   * summary, instance and severity arguments are accepted and never written.
   */
  function RecordSendHistory(t: Table, fp: string, platform: Option<string>, alertStatus: string,
                             sendSuccess: bool, errorMessage: Option<string>,
                             webhookUrl: Option<string>, now: string): Table {
    match Newest(t.rows, fp, alertStatus == "firing")
    case Some(k) =>
      if PlatformOk(platform) then
        t.(rows := t.rows[k := t.rows[k].(platform := platform,
                                          sendStatus := Some(if sendSuccess then Success else Failed),
                                          sendError := errorMessage, webhookUrl := webhookUrl,
                                          lastSentAt := Some(now), updatedAt := now)])
      else t
    case None => t
  }

  // ---------------------------------------------------------- delete_expired

  /**
   * The WHERE clause of `delete_expired` (src/storage.py:762-786): resolved,
   * and with a cutoff also `resolved_at < cutoff` (a NULL resolved_at never
   * compares true).
   */
  predicate Expired(r: Row, cutoff: Option<string>) {
    r.status == Resolved &&
    (cutoff.None? || (r.resolvedAt.Some? && LexLess(r.resolvedAt.value, cutoff.value)))
  }

  function CountExpired(rows: seq<Row>, cutoff: Option<string>): nat {
    if rows == [] then 0
    else (if Expired(rows[0], cutoff) then 1 else 0) + CountExpired(rows[1..], cutoff)
  }

  /** What survives the whole sweep: every row that is not expired, in order. */
  function Survivors(rows: seq<Row>, cutoff: Option<string>): seq<Row> {
    if rows == [] then []
    else (if Expired(rows[0], cutoff) then [] else [rows[0]]) + Survivors(rows[1..], cutoff)
  }

  /**
   * One `DELETE ... WHERE id IN (SELECT id ... LIMIT ?)` statement: removes
   * `limit` expired rows (the first ones in table order; SQLite does not fix
   * which) or all of them when there are fewer.
   */
  function DeleteBatch(rows: seq<Row>, cutoff: Option<string>, limit: nat): seq<Row> {
    if rows == [] then []
    else if Expired(rows[0], cutoff) && limit > 0 then DeleteBatch(rows[1..], cutoff, limit - 1)
    else [rows[0]] + DeleteBatch(rows[1..], cutoff, limit)
  }

  /** The rows after the first `k` batches of at most `limit` expired rows each, committed one by one. */
  function Batches(rows: seq<Row>, cutoff: Option<string>, limit: nat, k: nat): seq<Row>
    decreases k
  {
    if k == 0 then rows else DeleteBatch(Batches(rows, cutoff, limit, k - 1), cutoff, limit)
  }

  /**
   * The whole `delete_expired` loop when the statement or commit of batch
   * `failAt` (counting from 0) raises. The loop reaches that batch only when
   * every earlier batch removed a full `limit`; the earlier batches are then
   * committed, the handler rolls back only the failing one, and the result is
   * 0. A failure at a batch the loop never reaches changes nothing.
   */
  function Sweep(rows: seq<Row>, cutoff: Option<string>, limit: nat, failAt: Option<nat>): (seq<Row>, nat) {
    if failAt.Some? && failAt.value * limit <= CountExpired(rows, cutoff) then
      (Batches(rows, cutoff, limit, failAt.value), 0)
    else
      (Survivors(rows, cutoff), CountExpired(rows, cutoff))
  }

  function Min(a: nat, b: nat): nat { if a < b then a else b }

  // ================================================================ lemmas

  /** `ORDER BY id DESC LIMIT 1` picks the last matching row when ids increase. */
  lemma NewestHasHighestId(rows: seq<Row>, fp: string, firingOnly: bool, j: nat)
    requires IdsIncreasing(rows)
    requires j < |rows| && Matches(rows[j], fp, firingOnly)
    ensures Newest(rows, fp, firingOnly).Some?
    ensures rows[j].id <= rows[Newest(rows, fp, firingOnly).value].id
  {
  }

  lemma {:induction false} FiringCountPositive(rows: seq<Row>, fp: string)
    ensures FiringCount(rows, fp) > 0 <==> Newest(rows, fp, true).Some?
  {
    if |rows| > 0 {
      FiringCountPositive(rows[..|rows| - 1], fp);
      if !Matches(rows[|rows| - 1], fp, true) {
        assert Newest(rows, fp, true) == Newest(rows[..|rows| - 1], fp, true);
      }
    }
  }

  /** The newest match is the one match with nothing matching after it. */
  lemma {:induction false} NewestUnique(rows: seq<Row>, fp: string, firingOnly: bool, k: nat)
    requires k < |rows| && Matches(rows[k], fp, firingOnly)
    requires forall j :: k < j < |rows| ==> !Matches(rows[j], fp, firingOnly)
    ensures Newest(rows, fp, firingOnly) == Some(k)
  {
    if k < |rows| - 1 {
      NewestUnique(rows[..|rows| - 1], fp, firingOnly, k);
    }
  }

  /** `exists` is true exactly when there is an active firing row. */
  lemma ExistsIffActive(t: Table, fp: string)
    ensures Exists(t, fp) <==> Active(t, fp).Some?
  {
    FiringCountPositive(t.rows, fp);
  }

  /** The invariant keeps at most one firing row per fingerprint. */
  lemma ValidHasAtMostOneFiring(t: Table)
    requires Valid(t)
    ensures AtMostOneFiring(t.rows)
  {
  }

  /** Under the invariant the COUNT(*) in `exists` is 0 or 1. */
  lemma {:induction false} FiringCountAtMostOne(rows: seq<Row>, fp: string)
    requires AtMostOneFiring(rows)
    ensures FiringCount(rows, fp) <= 1
  {
    if |rows| > 0 {
      var init := rows[..|rows| - 1];
      assert AtMostOneFiring(init) by {
        forall i, j | 0 <= i < j < |init| && init[i].status == Firing && init[j].status == Firing
          ensures init[i].fingerprint != init[j].fingerprint
        {
          assert rows[i] == init[i] && rows[j] == init[j];
        }
      }
      FiringCountAtMostOne(init, fp);
      if Matches(rows[|rows| - 1], fp, true) {
        FiringCountPositive(init, fp);
      }
    }
  }

  lemma EmptyValid()
    ensures Valid(Empty)
  {
  }

  // ------------------------------------------------ invariant preservation

  /** Replacing one row by a row with the same id, fingerprint and CHECK facts keeps the invariant when the status stays. */
  lemma ReplaceKeepsValid(t: Table, k: nat, r: Row)
    requires Valid(t) && k < |t.rows|
    requires r.id == t.rows[k].id && r.fingerprint == t.rows[k].fingerprint && RowOk(r)
    requires r.status == t.rows[k].status || r.status == Resolved
    ensures Valid(t.(rows := t.rows[k := r]))
  {
    var rows' := t.rows[k := r];
    forall i, j | 0 <= i < j < |rows'| && rows'[i].fingerprint == rows'[j].fingerprint
      ensures rows'[i].status == Resolved
    {
      assert t.rows[i].fingerprint == t.rows[j].fingerprint;
    }
  }

  lemma IncrementKeepsValid(t: Table, fp: string, now: string)
    requires Valid(t)
    ensures Valid(IncrementCount(t, fp, now).0)
  {
    match Active(t, fp)
    case Some(k) =>
      ReplaceKeepsValid(t, k, t.rows[k].(count := t.rows[k].count + 1, updatedAt := now));
    case None =>
      var t' := IncrementCount(t, fp, now).0;
      assert t'.rows == t.rows + [NewRow(t.nextId, fp, now)];
      forall i, j | 0 <= i < j < |t'.rows| && t'.rows[i].fingerprint == t'.rows[j].fingerprint
        ensures t'.rows[i].status == Resolved
      {
        if j == |t.rows| {
          assert !Matches(t.rows[i], fp, true);
        } else {
          assert t'.rows[i] == t.rows[i] && t'.rows[j] == t.rows[j];
        }
      }
  }

  lemma SetStartTimeKeepsValid(t: Table, fp: string, startTime: string, now: string)
    requires Valid(t)
    ensures Valid(SetStartTime(t, fp, startTime, now))
  {
    match Active(t, fp)
    case Some(k) => ReplaceKeepsValid(t, k, t.rows[k].(startTime := startTime, updatedAt := now));
    case None =>
  }

  lemma SetAlertInfoKeepsValid(t: Table, fp: string, alertname: Option<string>, summary: Option<string>,
                               instance: Option<string>, severity: Option<string>, now: string)
    requires Valid(t)
    ensures Valid(SetAlertInfo(t, fp, alertname, summary, instance, severity, now))
  {
    match Active(t, fp)
    case Some(k) =>
      var r := t.rows[k];
      ReplaceKeepsValid(t, k, r.(alertname := Overwrite(r.alertname, alertname),
                                 summary := Overwrite(r.summary, summary),
                                 instance := Overwrite(r.instance, instance),
                                 severity := Overwrite(r.severity, severity),
                                 updatedAt := now));
    case None =>
  }

  lemma DeleteKeepsValid(t: Table, fp: string, endsAt: Option<string>, now: string)
    requires Valid(t)
    ensures Valid(Delete(t, fp, endsAt, now))
  {
    match Active(t, fp)
    case Some(k) =>
      var r := t.rows[k];
      ReplaceKeepsValid(t, k, r.(status := Resolved, resolvedAt := Some(now),
                                 endsAt := if OptTruthy(endsAt) then endsAt else r.endsAt,
                                 updatedAt := now));
    case None =>
  }

  lemma RecordSendHistoryKeepsValid(t: Table, fp: string, platform: Option<string>, alertStatus: string,
                                    sendSuccess: bool, errorMessage: Option<string>,
                                    webhookUrl: Option<string>, now: string)
    requires Valid(t)
    ensures Valid(RecordSendHistory(t, fp, platform, alertStatus, sendSuccess, errorMessage, webhookUrl, now))
  {
    match Newest(t.rows, fp, alertStatus == "firing")
    case Some(k) =>
      if PlatformOk(platform) {
        ReplaceKeepsValid(t, k, t.rows[k].(platform := platform,
                                           sendStatus := Some(if sendSuccess then Success else Failed),
                                           sendError := errorMessage, webhookUrl := webhookUrl,
                                           lastSentAt := Some(now), updatedAt := now));
      }
    case None =>
  }

  // ------------------------------------------------------ lifecycle facts

  /** Under the invariant, an active firing row is the newest row of its fingerprint. */
  lemma ActiveIsNewest(t: Table, fp: string)
    requires Valid(t)
    ensures Active(t, fp).Some? ==> Newest(t.rows, fp, false) == Active(t, fp)
  {
    match Active(t, fp)
    case Some(k) =>
      forall j | k < j < |t.rows| ensures !Matches(t.rows[j], fp, false) {
        assert t.rows[k].fingerprint == fp;
      }
      NewestUnique(t.rows, fp, false, k);
    case None =>
  }

  /**
   * `increment_count`: with no firing row it appends a new firing row with
   * count 1 and returns 1; otherwise it stores count+1 on the active row and
   * returns it. Either way the fingerprint is firing afterwards with that count.
   */
  lemma IncrementBehaviour(t: Table, fp: string, now: string)
    requires Valid(t)
    ensures var (t', n) := IncrementCount(t, fp, now);
      && n >= 1
      && (GetAlertCount(t, fp).None? ==> n == 1 && t'.rows == t.rows + [NewRow(t.nextId, fp, now)])
      && (GetAlertCount(t, fp).Some? ==> n == GetAlertCount(t, fp).value + 1 && |t'.rows| == |t.rows|)
      && GetAlertCount(t', fp) == Some(n)
      && Exists(t', fp)
  {
    var (t', n) := IncrementCount(t, fp, now);
    IncrementKeepsValid(t, fp, now);
    match Active(t, fp)
    case Some(k) =>
      assert t'.rows[k].fingerprint == fp && t'.rows[k].status == Firing;
      assert Active(t', fp) == Some(k);
      ExistsIffActive(t', fp);
    case None =>
      assert Active(t', fp) == Some(|t.rows|);
      ExistsIffActive(t', fp);
  }

  /**
   * `delete`: the active firing row becomes resolved with `resolved_at` =
   * now, `ends_at` is stamped only when given non-empty, no other row changes,
   * and afterwards the fingerprint has no firing row.
   */
  lemma DeleteBehaviour(t: Table, fp: string, endsAt: Option<string>, now: string)
    requires Valid(t)
    ensures var t' := Delete(t, fp, endsAt, now);
      && |t'.rows| == |t.rows| && t'.nextId == t.nextId
      && !Exists(t', fp) && GetAlertCount(t', fp).None?
      && (Active(t, fp).None? ==> t' == t)
      && (Active(t, fp).Some? ==>
            var k := Active(t, fp).value;
            && t'.rows[k].status == Resolved
            && t'.rows[k].resolvedAt == Some(now)
            && t'.rows[k].endsAt == (if OptTruthy(endsAt) then endsAt else t.rows[k].endsAt)
            && t'.rows[k].count == t.rows[k].count
            && t'.rows[k].startTime == t.rows[k].startTime
            && (forall j :: 0 <= j < |t.rows| && j != k ==> t'.rows[j] == t.rows[j]))
  {
    var t' := Delete(t, fp, endsAt, now);
    match Active(t, fp)
    case Some(k) =>
      forall j | 0 <= j < |t'.rows| ensures !Matches(t'.rows[j], fp, true) {
        if j < k {
          assert t.rows[j].fingerprint == fp ==> t.rows[j].status == Resolved by {
            if t.rows[j].fingerprint == fp { assert t.rows[j].fingerprint == t.rows[k].fingerprint; }
          }
        }
      }
      ExistsIffActive(t', fp);
    case None =>
      ExistsIffActive(t', fp);
  }

  /** A second `delete` for the same fingerprint changes nothing. */
  lemma DeleteTwiceIsNoop(t: Table, fp: string, endsAt: Option<string>, now: string,
                          endsAt2: Option<string>, now2: string)
    requires Valid(t)
    ensures var t' := Delete(t, fp, endsAt, now); Delete(t', fp, endsAt2, now2) == t'
  {
    DeleteBehaviour(t, fp, endsAt, now);
    ExistsIffActive(Delete(t, fp, endsAt, now), fp);
  }

  /** After a resolution the next firing starts a new episode: a new row with count 1, the resolved row kept. */
  lemma ResolveThenFireStartsNewEpisode(t: Table, fp: string, endsAt: Option<string>, now: string, now2: string)
    requires Valid(t)
    ensures var t' := Delete(t, fp, endsAt, now);
            var (t'', n) := IncrementCount(t', fp, now2);
      && n == 1
      && t''.rows == t'.rows + [NewRow(t'.nextId, fp, now2)]
  {
    DeleteBehaviour(t, fp, endsAt, now);
    DeleteKeepsValid(t, fp, endsAt, now);
    IncrementBehaviour(Delete(t, fp, endsAt, now), fp, now2);
  }

  /** `delete` keeps what `get_alert_info` and `get_start_time` read: the resolved row is still the newest. */
  lemma DeleteKeepsHistory(t: Table, fp: string, endsAt: Option<string>, now: string)
    requires Valid(t)
    ensures GetAlertInfo(Delete(t, fp, endsAt, now), fp) == GetAlertInfo(t, fp)
    ensures GetStartTime(Delete(t, fp, endsAt, now), fp) == GetStartTime(t, fp)
  {
    var t' := Delete(t, fp, endsAt, now);
    ActiveIsNewest(t, fp);
    match Active(t, fp)
    case Some(k) =>
      NewestUnique(t'.rows, fp, false, k);
    case None =>
  }

  /**
   * `set_start_time` changes only the active firing row's start time and is a
   * no-op when the fingerprint has none.
   */
  lemma SetStartTimeBehaviour(t: Table, fp: string, startTime: string, now: string)
    ensures var t' := SetStartTime(t, fp, startTime, now);
      && (Active(t, fp).None? ==> t' == t)
      && (Active(t, fp).Some? ==>
            var k := Active(t, fp).value;
            && |t'.rows| == |t.rows|
            && t'.rows[k] == t.rows[k].(startTime := startTime, updatedAt := now)
            && (forall j :: 0 <= j < |t.rows| && j != k ==> t'.rows[j] == t.rows[j]))
  {
  }

  /**
   * `set_alert_info` never overwrites a column with an empty argument, and
   * writes nothing at all (not even updated_at) when every argument is empty
   * or there is no firing row.
   */
  lemma SetAlertInfoBehaviour(t: Table, fp: string, alertname: Option<string>, summary: Option<string>,
                              instance: Option<string>, severity: Option<string>, now: string)
    ensures var t' := SetAlertInfo(t, fp, alertname, summary, instance, severity, now);
      && (Active(t, fp).None? || !(OptTruthy(alertname) || OptTruthy(summary) || OptTruthy(instance) || OptTruthy(severity)) ==> t' == t)
      && |t'.rows| == |t.rows|
      && (Active(t, fp).Some? ==>
            var k := Active(t, fp).value;
            && (forall j :: 0 <= j < |t.rows| && j != k ==> t'.rows[j] == t.rows[j])
            && t'.rows[k].alertname == (if OptTruthy(alertname) then alertname else t.rows[k].alertname)
            && t'.rows[k].summary == (if OptTruthy(summary) then summary else t.rows[k].summary)
            && t'.rows[k].instance == (if OptTruthy(instance) then instance else t.rows[k].instance)
            && t'.rows[k].severity == (if OptTruthy(severity) then severity else t.rows[k].severity)
            && t'.rows[k].count == t.rows[k].count
            && t'.rows[k].startTime == t.rows[k].startTime)
  {
  }

  /**
   * `record_send_history` writes send_status "success"/"failed" from
   * `sendSuccess` onto the newest firing row for a firing send, onto the
   * newest row of any status otherwise, and is a no-op without such a row.
   */
  lemma RecordSendHistoryBehaviour(t: Table, fp: string, platform: Option<string>, alertStatus: string,
                                   sendSuccess: bool, errorMessage: Option<string>,
                                   webhookUrl: Option<string>, now: string)
    ensures var t' := RecordSendHistory(t, fp, platform, alertStatus, sendSuccess, errorMessage, webhookUrl, now);
      var target := Newest(t.rows, fp, alertStatus == "firing");
      && (target.None? || !PlatformOk(platform) ==> t' == t)
      && (target.Some? && PlatformOk(platform) ==>
            var k := target.value;
            && |t'.rows| == |t.rows|
            && t'.rows[k].sendStatus == Some(if sendSuccess then Success else Failed)
            && t'.rows[k].platform == platform
            && t'.rows[k].lastSentAt == Some(now)
            && t'.rows[k].status == t.rows[k].status && t'.rows[k].count == t.rows[k].count
            && (forall j :: 0 <= j < |t.rows| && j != k ==> t'.rows[j] == t.rows[j]))
  {
  }

  /**
   * A first firing: `increment_count` INSERTs the row that the following
   * `set_start_time` and `set_alert_info` then fill in; it is the newest row
   * of the fingerprint, so every read finds what was just written.
   */
  lemma FirstFiringRow(t: Table, fp: string, startTime: string, alertname: Option<string>,
                       summary: Option<string>, instance: Option<string>, severity: Option<string>, now: string)
    requires Valid(t) && !Exists(t, fp)
    ensures var t' := SetAlertInfo(SetStartTime(IncrementCount(t, fp, now).0, fp, startTime, now),
                                   fp, alertname, summary, instance, severity, now);
      && Valid(t') && Exists(t', fp)
      && GetAlertCount(t', fp) == Some(1)
      && GetStartTime(t', fp) == Some(startTime)
      && GetAlertInfo(t', fp) == AlertInfo(Overwrite(None, alertname), Overwrite(None, summary), Overwrite(None, instance))
  {
    ExistsIffActive(t, fp);
    var m := |t.rows|;
    var t1 := IncrementCount(t, fp, now).0;
    IncrementKeepsValid(t, fp, now);
    assert t1.rows == t.rows + [NewRow(t.nextId, fp, now)];
    NewestUnique(t1.rows, fp, true, m);
    var t2 := SetStartTime(t1, fp, startTime, now);
    SetStartTimeKeepsValid(t1, fp, startTime, now);
    assert t2.rows[m].fingerprint == fp && t2.rows[m].status == Firing;
    NewestUnique(t2.rows, fp, true, m);
    var t3 := SetAlertInfo(t2, fp, alertname, summary, instance, severity, now);
    SetAlertInfoKeepsValid(t2, fp, alertname, summary, instance, severity, now);
    assert t3.rows[m].fingerprint == fp && t3.rows[m].status == Firing;
    NewestUnique(t3.rows, fp, true, m);
    NewestUnique(t3.rows, fp, false, m);
    ExistsIffActive(t3, fp);
  }

  // ------------------------------------------------- delete_expired facts

  lemma {:induction false} BatchKeepsSurvivors(rows: seq<Row>, cutoff: Option<string>, limit: nat)
    ensures Survivors(DeleteBatch(rows, cutoff, limit), cutoff) == Survivors(rows, cutoff)
  {
    if rows != [] {
      if Expired(rows[0], cutoff) && limit > 0 {
        BatchKeepsSurvivors(rows[1..], cutoff, limit - 1);
      } else {
        BatchKeepsSurvivors(rows[1..], cutoff, limit);
        var b := [rows[0]] + DeleteBatch(rows[1..], cutoff, limit);
        assert b[0] == rows[0] && b[1..] == DeleteBatch(rows[1..], cutoff, limit);
      }
    }
  }

  /** One batch removes min(limit, number expired) rows, all of them expired. */
  lemma {:induction false} BatchCounts(rows: seq<Row>, cutoff: Option<string>, limit: nat)
    ensures |DeleteBatch(rows, cutoff, limit)| + Min(limit, CountExpired(rows, cutoff)) == |rows|
    ensures CountExpired(DeleteBatch(rows, cutoff, limit), cutoff) + Min(limit, CountExpired(rows, cutoff))
            == CountExpired(rows, cutoff)
  {
    if rows != [] {
      if Expired(rows[0], cutoff) && limit > 0 {
        BatchCounts(rows[1..], cutoff, limit - 1);
      } else {
        BatchCounts(rows[1..], cutoff, limit);
        var b := [rows[0]] + DeleteBatch(rows[1..], cutoff, limit);
        assert b[0] == rows[0] && b[1..] == DeleteBatch(rows[1..], cutoff, limit);
      }
    }
  }

  /** With nothing expired left, the table already is its survivors. */
  lemma {:induction false} NothingExpiredIsSurvivors(rows: seq<Row>, cutoff: Option<string>)
    requires CountExpired(rows, cutoff) == 0
    ensures Survivors(rows, cutoff) == rows
  {
    if rows != [] {
      NothingExpiredIsSurvivors(rows[1..], cutoff);
      assert rows == [rows[0]] + rows[1..];
    }
  }

  /**
   * The sweep keeps exactly the rows that are not expired: firing rows are
   * never removed, and a resolved row goes iff there is no cutoff or its
   * resolved_at is strictly before the cutoff. The survivors are as many as the
   * table minus the removed count, and in the original order.
   */
  lemma {:induction false} SurvivorsExactly(rows: seq<Row>, cutoff: Option<string>)
    ensures forall r :: r in Survivors(rows, cutoff) <==> r in rows && !Expired(r, cutoff)
    ensures |Survivors(rows, cutoff)| + CountExpired(rows, cutoff) == |rows|
  {
    if rows != [] {
      SurvivorsExactly(rows[1..], cutoff);
      assert rows == [rows[0]] + rows[1..];
    }
  }

  /** A sweep run twice removes nothing the second time. */
  lemma {:induction false} SweepIdempotent(rows: seq<Row>, cutoff: Option<string>)
    ensures CountExpired(Survivors(rows, cutoff), cutoff) == 0
  {
    if rows != [] {
      SweepIdempotent(rows[1..], cutoff);
      if !Expired(rows[0], cutoff) {
        var s := [rows[0]] + Survivors(rows[1..], cutoff);
        assert Survivors(rows, cutoff) == s;
        assert s[0] == rows[0] && s[1..] == Survivors(rows[1..], cutoff);
      } else {
        assert Survivors(rows, cutoff) == Survivors(rows[1..], cutoff);
      }
    }
  }

  /** A row may precede `rest`: lower id than all of it, and resolved if it shares a fingerprint with any of it. */
  predicate MayPrecede(r: Row, rest: seq<Row>) {
    forall x :: x in rest ==> r.id < x.id && (x.fingerprint == r.fingerprint ==> r.status == Resolved)
  }

  lemma ValidTail(r: Row, rest: seq<Row>, n: nat)
    requires Valid(Table([r] + rest, n))
    ensures RowOk(r) && r.id < n && MayPrecede(r, rest) && Valid(Table(rest, n))
  {
    var rows := [r] + rest;
    assert rows[0] == r;
    forall x | x in rest ensures r.id < x.id && (x.fingerprint == r.fingerprint ==> r.status == Resolved) {
      var m :| 0 <= m < |rest| && rest[m] == x;
      assert rows[m + 1] == x;
    }
    forall i, j | 0 <= i < j < |rest| ensures rest[i].id < rest[j].id {
      assert rows[i + 1] == rest[i] && rows[j + 1] == rest[j];
    }
    forall i, j | 0 <= i < j < |rest| && rest[i].fingerprint == rest[j].fingerprint
      ensures rest[i].status == Resolved
    {
      assert rows[i + 1] == rest[i] && rows[j + 1] == rest[j];
    }
    forall i | 0 <= i < |rest| ensures rest[i].id < n && RowOk(rest[i]) {
      assert rows[i + 1] == rest[i];
    }
  }

  lemma ValidCons(r: Row, rest: seq<Row>, n: nat)
    requires RowOk(r) && r.id < n && MayPrecede(r, rest) && Valid(Table(rest, n))
    ensures Valid(Table([r] + rest, n))
  {
    var rows := [r] + rest;
    forall i, j | 0 <= i < j < |rows| ensures rows[i].id < rows[j].id {
      assert rows[j] == rest[j - 1];
      if i > 0 { assert rows[i] == rest[i - 1]; } else { assert rows[j] in rest; }
    }
    forall i, j | 0 <= i < j < |rows| && rows[i].fingerprint == rows[j].fingerprint
      ensures rows[i].status == Resolved
    {
      assert rows[j] == rest[j - 1];
      if i > 0 { assert rows[i] == rest[i - 1]; } else { assert rows[j] in rest; }
    }
    forall i | 0 <= i < |rows| ensures rows[i].id < n && RowOk(rows[i]) {
      if i > 0 { assert rows[i] == rest[i - 1]; }
    }
  }

  /** Removing rows keeps the table invariant. */
  lemma {:induction false} SurvivorsKeepValid(t: Table, cutoff: Option<string>)
    requires Valid(t)
    ensures Valid(Table(Survivors(t.rows, cutoff), t.nextId))
    decreases |t.rows|
  {
    var rows := t.rows;
    if rows != [] {
      var r, rest := rows[0], rows[1..];
      assert rows == [r] + rest;
      ValidTail(r, rest, t.nextId);
      SurvivorsKeepValid(Table(rest, t.nextId), cutoff);
      if !Expired(r, cutoff) {
        SurvivorsExactly(rest, cutoff);
        ValidCons(r, Survivors(rest, cutoff), t.nextId);
      }
    }
  }

  /** A batch only removes rows. */
  lemma {:induction false} BatchSubset(rows: seq<Row>, cutoff: Option<string>, limit: nat)
    ensures forall x | x in DeleteBatch(rows, cutoff, limit) :: x in rows
  {
    if rows != [] {
      if Expired(rows[0], cutoff) && limit > 0 {
        BatchSubset(rows[1..], cutoff, limit - 1);
      } else {
        BatchSubset(rows[1..], cutoff, limit);
      }
    }
  }

  /** One committed batch keeps the table invariant. */
  lemma {:induction false} BatchKeepsValid(t: Table, cutoff: Option<string>, limit: nat)
    requires Valid(t)
    ensures Valid(Table(DeleteBatch(t.rows, cutoff, limit), t.nextId))
    decreases |t.rows|
  {
    var rows := t.rows;
    if rows != [] {
      var r, rest := rows[0], rows[1..];
      assert rows == [r] + rest;
      ValidTail(r, rest, t.nextId);
      if Expired(r, cutoff) && limit > 0 {
        BatchKeepsValid(Table(rest, t.nextId), cutoff, limit - 1);
      } else {
        BatchKeepsValid(Table(rest, t.nextId), cutoff, limit);
        BatchSubset(rest, cutoff, limit);
        ValidCons(r, DeleteBatch(rest, cutoff, limit), t.nextId);
      }
    }
  }

  /**
   * When the loop reaches batch `k`, the `k` batches before it removed
   * exactly `k * limit` rows, all of them expired, and kept every survivor.
   */
  lemma {:induction false} BatchesCommitted(rows: seq<Row>, cutoff: Option<string>, limit: nat, k: nat)
    requires k * limit <= CountExpired(rows, cutoff)
    ensures |Batches(rows, cutoff, limit, k)| + k * limit == |rows|
    ensures CountExpired(Batches(rows, cutoff, limit, k), cutoff) + k * limit == CountExpired(rows, cutoff)
    ensures Survivors(Batches(rows, cutoff, limit, k), cutoff) == Survivors(rows, cutoff)
    decreases k
  {
    if k > 0 {
      assert (k - 1) * limit + limit == k * limit;
      BatchesCommitted(rows, cutoff, limit, k - 1);
      var b := Batches(rows, cutoff, limit, k - 1);
      BatchCounts(b, cutoff, limit);
      BatchKeepsSurvivors(b, cutoff, limit);
    }
  }

  lemma {:induction false} BatchesKeepValid(t: Table, cutoff: Option<string>, limit: nat, k: nat)
    requires Valid(t)
    ensures Valid(Table(Batches(t.rows, cutoff, limit, k), t.nextId))
    decreases k
  {
    if k > 0 {
      BatchesKeepValid(t, cutoff, limit, k - 1);
      BatchKeepsValid(Table(Batches(t.rows, cutoff, limit, k - 1), t.nextId), cutoff, limit);
    }
  }

  /** Every row that the `k` batches did not remove is a row of the table. */
  lemma {:induction false} BatchesSubset(rows: seq<Row>, cutoff: Option<string>, limit: nat, k: nat)
    ensures forall x | x in Batches(rows, cutoff, limit, k) :: x in rows
    decreases k
  {
    if k > 0 {
      BatchesSubset(rows, cutoff, limit, k - 1);
      BatchSubset(Batches(rows, cutoff, limit, k - 1), cutoff, limit);
    }
  }

  /**
   * What `delete_expired` leaves, whether or not a batch fails: only rows of
   * the table, every row that is not expired (so every firing row), the
   * survivors in their order. A completed sweep leaves exactly the survivors
   * and reports every expired row; a failure the loop reaches reports 0
   * although `failAt * limit` rows are already gone.
   */
  lemma SweepMeaning(rows: seq<Row>, cutoff: Option<string>, limit: nat, failAt: Option<nat>)
    ensures var (rows', deleted) := Sweep(rows, cutoff, limit, failAt);
      && (forall x | x in rows' :: x in rows)
      && (forall x | x in rows && !Expired(x, cutoff) :: x in rows')
      && Survivors(rows', cutoff) == Survivors(rows, cutoff)
      && (failAt.None? ==> rows' == Survivors(rows, cutoff) && deleted == CountExpired(rows, cutoff))
      && (failAt.Some? && failAt.value * limit <= CountExpired(rows, cutoff) ==>
            deleted == 0 && |rows'| + failAt.value * limit == |rows|)
      && (deleted > 0 ==> rows' == Survivors(rows, cutoff) && deleted + |rows'| == |rows|)
  {
    var (rows', deleted) := Sweep(rows, cutoff, limit, failAt);
    SurvivorsExactly(rows, cutoff);
    if failAt.Some? && failAt.value * limit <= CountExpired(rows, cutoff) {
      BatchesCommitted(rows, cutoff, limit, failAt.value);
      BatchesSubset(rows, cutoff, limit, failAt.value);
      SurvivorsExactly(rows', cutoff);
    } else {
      SweepIdempotent(rows, cutoff);
      NothingExpiredIsSurvivors(Survivors(rows, cutoff), cutoff);
    }
  }

  /**
   * One more batch of the loop, when it does not raise: the batches so far
   * grow by one, and a short batch ends the loop with the sweep's result.
   */
  lemma SweepStep(rows: seq<Row>, cutoff: Option<string>, limit: nat, failAt: Option<nat>, k: nat)
    requires limit >= 1 && k * limit <= CountExpired(rows, cutoff)
    requires failAt.Some? ==> k < failAt.value
    ensures var b, b' := Batches(rows, cutoff, limit, k), Batches(rows, cutoff, limit, k + 1);
      && b' == DeleteBatch(b, cutoff, limit)
      && |b'| <= |b| && |b| - |b'| <= limit
      && (|b| - |b'| < limit ==> Sweep(rows, cutoff, limit, failAt) == (b', k * limit + (|b| - |b'|)))
      && (|b| - |b'| == limit ==> (k + 1) * limit <= CountExpired(rows, cutoff))
  {
    var b := Batches(rows, cutoff, limit, k);
    var e := CountExpired(rows, cutoff);
    BatchesCommitted(rows, cutoff, limit, k);
    BatchCounts(b, cutoff, limit);
    var b' := DeleteBatch(b, cutoff, limit);
    AddOneBatch(k, limit);
    if |b| - |b'| < limit {
      BatchKeepsSurvivors(b, cutoff, limit);
      NothingExpiredIsSurvivors(b', cutoff);
      if failAt.Some? {
        MulMono(k + 1, failAt.value, limit);
      }
    }
  }

  lemma AddOneBatch(k: nat, limit: nat)
    ensures (k + 1) * limit == k * limit + limit
  {
  }

  lemma MulMono(a: nat, b: nat, c: nat)
    requires a <= b
    ensures a * c <= b * c
  {
  }

  /**
   * 1500 expired rows with the default batch of 1000 and a failure in the
   * second batch: 0 is reported although the first 1000 rows are gone.
   */
  lemma SecondBatchFailure(rows: seq<Row>, cutoff: Option<string>)
    requires CountExpired(rows, cutoff) == 1500
    ensures var (rows', deleted) := Sweep(rows, cutoff, 1000, Some(1));
      deleted == 0 && |rows'| + 1000 == |rows| && CountExpired(rows', cutoff) == 500
  {
    BatchesCommitted(rows, cutoff, 1000, 1);
  }

  lemma SweepKeepsValid(t: Table, cutoff: Option<string>, limit: nat, failAt: Option<nat>)
    requires Valid(t)
    ensures Valid(Table(Sweep(t.rows, cutoff, limit, failAt).0, t.nextId))
  {
    SurvivorsKeepValid(t, cutoff);
    if failAt.Some? {
      BatchesKeepValid(t, cutoff, limit, failAt.value);
    }
  }

  // ------------------------------------------------- other fingerprints

  /** `rows'` differs from `rows` only in rows of fingerprint `fp`, changed in place or appended. */
  ghost predicate ChangedOnlyFor(rows: seq<Row>, rows': seq<Row>, fp: string) {
    && |rows| <= |rows'|
    && (forall i :: 0 <= i < |rows| ==>
          rows'[i] == rows[i] || (rows[i].fingerprint == fp && rows'[i].fingerprint == fp))
    && (forall i :: |rows| <= i < |rows'| ==> rows'[i].fingerprint == fp)
  }

  lemma NewestElsewhere(rows: seq<Row>, rows': seq<Row>, fp: string, other: string, firingOnly: bool)
    requires ChangedOnlyFor(rows, rows', fp) && other != fp
    ensures Newest(rows', other, firingOnly) == Newest(rows, other, firingOnly)
    ensures Newest(rows, other, firingOnly).Some? ==>
              rows'[Newest(rows, other, firingOnly).value] == rows[Newest(rows, other, firingOnly).value]
  {
    match Newest(rows, other, firingOnly)
    case Some(k) =>
      forall j | k < j < |rows'| ensures !Matches(rows'[j], other, firingOnly) {
      }
      NewestUnique(rows', other, firingOnly, k);
    case None =>
      forall j | 0 <= j < |rows'| ensures !Matches(rows'[j], other, firingOnly) {
      }
  }

  /** What the reads see for one fingerprint depends only on that fingerprint's rows. */
  lemma ViewsElsewhere(t: Table, t': Table, fp: string, other: string)
    requires ChangedOnlyFor(t.rows, t'.rows, fp) && other != fp
    ensures Exists(t', other) == Exists(t, other)
    ensures GetAlertCount(t', other) == GetAlertCount(t, other)
    ensures GetStartTime(t', other) == GetStartTime(t, other)
    ensures GetAlertInfo(t', other) == GetAlertInfo(t, other)
  {
    NewestElsewhere(t.rows, t'.rows, fp, other, true);
    NewestElsewhere(t.rows, t'.rows, fp, other, false);
    FiringCountPositive(t.rows, other);
    FiringCountPositive(t'.rows, other);
  }

  lemma ReplaceChangesOnlyFor(rows: seq<Row>, k: nat, r: Row, fp: string)
    requires k < |rows| && rows[k].fingerprint == fp && r.fingerprint == fp
    ensures ChangedOnlyFor(rows, rows[k := r], fp)
  {
  }

  /** Every operation on `fp` changes only rows of `fp`. */
  lemma MutationsChangeOnlyFor(t: Table, fp: string, startTime: string, alertname: Option<string>,
                               summary: Option<string>, instance: Option<string>, severity: Option<string>,
                               endsAt: Option<string>, platform: Option<string>, alertStatus: string,
                               sendSuccess: bool, errorMessage: Option<string>, webhookUrl: Option<string>,
                               now: string)
    ensures ChangedOnlyFor(t.rows, IncrementCount(t, fp, now).0.rows, fp)
    ensures ChangedOnlyFor(t.rows, SetStartTime(t, fp, startTime, now).rows, fp)
    ensures ChangedOnlyFor(t.rows, SetAlertInfo(t, fp, alertname, summary, instance, severity, now).rows, fp)
    ensures ChangedOnlyFor(t.rows, Delete(t, fp, endsAt, now).rows, fp)
    ensures ChangedOnlyFor(t.rows, RecordSendHistory(t, fp, platform, alertStatus, sendSuccess,
                                                     errorMessage, webhookUrl, now).rows, fp)
  {
    IncrementChangesOnlyFor(t, fp, now);
    SetStartTimeChangesOnlyFor(t, fp, startTime, now);
    SetAlertInfoChangesOnlyFor(t, fp, alertname, summary, instance, severity, now);
    DeleteChangesOnlyFor(t, fp, endsAt, now);
    HistoryChangesOnlyFor(t, fp, platform, alertStatus, sendSuccess, errorMessage, webhookUrl, now);
  }

  lemma IncrementChangesOnlyFor(t: Table, fp: string, now: string)
    ensures ChangedOnlyFor(t.rows, IncrementCount(t, fp, now).0.rows, fp)
  {
    match Active(t, fp)
    case Some(k) =>
      ReplaceChangesOnlyFor(t.rows, k, IncrementCount(t, fp, now).0.rows[k], fp);
    case None =>
      assert IncrementCount(t, fp, now).0.rows == t.rows + [NewRow(t.nextId, fp, now)];
  }

  lemma SetStartTimeChangesOnlyFor(t: Table, fp: string, startTime: string, now: string)
    ensures ChangedOnlyFor(t.rows, SetStartTime(t, fp, startTime, now).rows, fp)
  {
    match Active(t, fp)
    case Some(k) =>
      ReplaceChangesOnlyFor(t.rows, k, SetStartTime(t, fp, startTime, now).rows[k], fp);
    case None =>
      assert ChangedOnlyFor(t.rows, t.rows, fp);
  }

  lemma SetAlertInfoChangesOnlyFor(t: Table, fp: string, alertname: Option<string>, summary: Option<string>,
                                   instance: Option<string>, severity: Option<string>, now: string)
    ensures ChangedOnlyFor(t.rows, SetAlertInfo(t, fp, alertname, summary, instance, severity, now).rows, fp)
  {
    assert ChangedOnlyFor(t.rows, t.rows, fp);
    match Active(t, fp)
    case Some(k) =>
      ReplaceChangesOnlyFor(t.rows, k, SetAlertInfo(t, fp, alertname, summary, instance, severity, now).rows[k], fp);
    case None =>
  }

  lemma DeleteChangesOnlyFor(t: Table, fp: string, endsAt: Option<string>, now: string)
    ensures ChangedOnlyFor(t.rows, Delete(t, fp, endsAt, now).rows, fp)
  {
    match Active(t, fp)
    case Some(k) =>
      ReplaceChangesOnlyFor(t.rows, k, Delete(t, fp, endsAt, now).rows[k], fp);
    case None =>
      assert ChangedOnlyFor(t.rows, t.rows, fp);
  }

  lemma HistoryChangesOnlyFor(t: Table, fp: string, platform: Option<string>, alertStatus: string,
                              sendSuccess: bool, errorMessage: Option<string>, webhookUrl: Option<string>,
                              now: string)
    ensures ChangedOnlyFor(t.rows, RecordSendHistory(t, fp, platform, alertStatus, sendSuccess,
                                                     errorMessage, webhookUrl, now).rows, fp)
  {
    assert ChangedOnlyFor(t.rows, t.rows, fp);
    match Newest(t.rows, fp, alertStatus == "firing")
    case Some(k) =>
      var t' := RecordSendHistory(t, fp, platform, alertStatus, sendSuccess, errorMessage, webhookUrl, now);
      if PlatformOk(platform) {
        ReplaceChangesOnlyFor(t.rows, k, t'.rows[k], fp);
      }
    case None =>
  }
}
