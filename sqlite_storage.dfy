/**
 * `SQLiteStorageBackend` (src/storage.py:352-813): the durable backend. The
 * object owns the `alerts` table (its rows and its AUTOINCREMENT counter);
 * each method runs the lookups and the UPDATE/INSERT/DELETE statements of the
 * source and is proved to leave the table the corresponding SqliteTable
 * function describes. `online` is false when the engine raises: the source
 * then rolls back and returns its safe default. `now` stands for the CST
 * timestamp the backend stamps rows with.
 */
module SqliteStorage {
  import opened Wrappers
  import opened Text
  import opened AlertRecord
  import T = SqliteTable

  class SqliteStorageBackend {
    var rows: seq<Row>
    var nextId: nat
    var online: bool

    ghost function Contents(): T.Table
      reads this
    {
      T.Table(rows, nextId)
    }

    ghost predicate Valid()
      reads this
    {
      T.Valid(Contents())
    }

    /** Opening a database file that holds the table `existing`. */
    constructor (existing: T.Table)
      requires T.Valid(existing)
      ensures Contents() == existing && online && Valid()
    {
      rows, nextId, online := existing.rows, existing.nextId, true;
    }

    /** `SELECT ... WHERE fingerprint = ? [AND status = 'firing'] ORDER BY id DESC LIMIT 1`. */
    method FindNewest(fp: string, firingOnly: bool) returns (k: Option<nat>)
      ensures k == T.Newest(rows, fp, firingOnly)
    {
      var rs := rows;
      var i := |rs|;
      assert rs[..i] == rs;
      while i > 0
        invariant 0 <= i <= |rs|
        invariant T.Newest(rs, fp, firingOnly) == T.Newest(rs[..i], fp, firingOnly)
      {
        assert rs[..i][..i - 1] == rs[..i - 1];
        if T.Matches(rs[i - 1], fp, firingOnly) {
          return Some(i - 1);
        }
        i := i - 1;
      }
      return None;
    }

    /** `exists` (src/storage.py:483-494): COUNT(*) of firing rows > 0; False when the engine fails. */
    method Exists(fp: string) returns (r: bool)
      ensures r == (online && T.Exists(Contents(), fp))
    {
      if !online {
        return false;
      }
      var c := 0;
      var i := 0;
      while i < |rows|
        invariant 0 <= i <= |rows|
        invariant c == T.FiringCount(rows[..i], fp)
      {
        assert rows[..i + 1][..i] == rows[..i];
        if T.Matches(rows[i], fp, true) {
          c := c + 1;
        }
        i := i + 1;
      }
      assert rows[..i] == rows;
      r := c > 0;
    }

    /** `increment_count` (src/storage.py:496-532); 1 when the engine fails. */
    method IncrementCount(fp: string, now: string) returns (count: int)
      requires Valid()
      modifies this
      ensures Valid() && online == old(online)
      ensures online ==> (Contents(), count) == T.IncrementCount(old(Contents()), fp, now)
      ensures !online ==> Contents() == old(Contents()) && count == 1
    {
      if !online {
        return 1;
      }
      T.IncrementKeepsValid(Contents(), fp, now);
      var k := FindNewest(fp, true);
      if k.Some? {
        count := rows[k.value].count + 1;
        rows := rows[k.value := rows[k.value].(count := count, updatedAt := now)];
      } else {
        rows := rows + [T.NewRow(nextId, fp, now)];
        nextId := nextId + 1;
        count := 1;
      }
    }

    /** `set_start_time` (src/storage.py:534-553). */
    method SetStartTime(fp: string, startTime: string, now: string)
      requires Valid()
      modifies this
      ensures Valid() && online == old(online)
      ensures Contents() == if online then T.SetStartTime(old(Contents()), fp, startTime, now) else old(Contents())
    {
      if !online {
        return;
      }
      T.SetStartTimeKeepsValid(Contents(), fp, startTime, now);
      var k := FindNewest(fp, true);
      if k.Some? {
        rows := rows[k.value := rows[k.value].(startTime := startTime, updatedAt := now)];
      }
    }

    /** `set_alert_info` (src/storage.py:555-598): builds the SET list from the truthy arguments only. */
    method SetAlertInfo(fp: string, alertname: Option<string>, summary: Option<string>,
                        instance: Option<string>, severity: Option<string>, now: string)
      requires Valid()
      modifies this
      ensures Valid() && online == old(online)
      ensures Contents() == if online then T.SetAlertInfo(old(Contents()), fp, alertname, summary, instance, severity, now)
                            else old(Contents())
    {
      if !online {
        return;
      }
      T.SetAlertInfoKeepsValid(Contents(), fp, alertname, summary, instance, severity, now);
      var k := FindNewest(fp, true);
      if k.Some? {
        var r := rows[k.value];
        var updates := 0;
        if OptTruthy(alertname) { r := r.(alertname := alertname); updates := updates + 1; }
        if OptTruthy(summary) { r := r.(summary := summary); updates := updates + 1; }
        if OptTruthy(instance) { r := r.(instance := instance); updates := updates + 1; }
        if OptTruthy(severity) { r := r.(severity := severity); updates := updates + 1; }
        if updates > 0 {
          rows := rows[k.value := r.(updatedAt := now)];
        }
      }
    }

    /** `get_start_time` (src/storage.py:600-612). */
    method GetStartTime(fp: string) returns (r: Option<string>)
      ensures r == if online then T.GetStartTime(Contents(), fp) else None
    {
      if !online {
        return None;
      }
      var k := FindNewest(fp, false);
      r := if k.Some? then Some(rows[k.value].startTime) else None;
    }

    /** `get_alert_info` (src/storage.py:614-634). */
    method GetAlertInfo(fp: string) returns (r: AlertInfo)
      ensures r == if online then T.GetAlertInfo(Contents(), fp) else NoInfo
    {
      if !online {
        return NoInfo;
      }
      var k := FindNewest(fp, false);
      if k.Some? {
        var row := rows[k.value];
        r := AlertInfo(row.alertname, row.summary, row.instance);
      } else {
        r := NoInfo;
      }
    }

    /** `get_alert_count` (src/storage.py:636-648). */
    method GetAlertCount(fp: string) returns (r: Option<int>)
      ensures r == if online then T.GetAlertCount(Contents(), fp) else None
    {
      if !online {
        return None;
      }
      var k := FindNewest(fp, true);
      r := if k.Some? then Some(rows[k.value].count) else None;
    }

    /** `delete` (src/storage.py:650-688). */
    method Delete(fp: string, endsAt: Option<string>, now: string)
      requires Valid()
      modifies this
      ensures Valid() && online == old(online)
      ensures Contents() == if online then T.Delete(old(Contents()), fp, endsAt, now) else old(Contents())
    {
      if !online {
        return;
      }
      T.DeleteKeepsValid(Contents(), fp, endsAt, now);
      var k := FindNewest(fp, true);
      if k.Some? {
        var r := rows[k.value].(status := Resolved, resolvedAt := Some(now), updatedAt := now);
        if OptTruthy(endsAt) {
          r := r.(endsAt := endsAt);
        }
        rows := rows[k.value := r];
      }
    }

    /** `record_send_history` (src/storage.py:695-746). */
    method RecordSendHistory(fp: string, platform: Option<string>, alertStatus: string, sendSuccess: bool,
                             errorMessage: Option<string>, webhookUrl: Option<string>, now: string)
      requires Valid()
      modifies this
      ensures Valid() && online == old(online)
      ensures Contents() == if online then T.RecordSendHistory(old(Contents()), fp, platform, alertStatus,
                                                               sendSuccess, errorMessage, webhookUrl, now)
                            else old(Contents())
    {
      if !online {
        return;
      }
      T.RecordSendHistoryKeepsValid(Contents(), fp, platform, alertStatus, sendSuccess, errorMessage, webhookUrl, now);
      var sendStatus := if sendSuccess then Success else Failed;
      var k := FindNewest(fp, alertStatus == "firing");
      if k.Some? && PlatformOk(platform) {
        rows := rows[k.value := rows[k.value].(platform := platform, sendStatus := Some(sendStatus),
                                               sendError := errorMessage, webhookUrl := webhookUrl,
                                               lastSentAt := Some(now), updatedAt := now)];
      }
    }

    /**
     * `delete_expired` (src/storage.py:748-803): DELETE statements of at most
     * `batchSize` expired rows each, each committed on its own, until one
     * deletes fewer than `batchSize`; returns the total. `failAt` is the batch
     * (counting from 0) whose statement or commit raises, if any: the handler
     * then rolls back that batch only and returns 0. A batch size below 1
     * would never end the loop.
     */
    method DeleteExpired(cutoff: Option<string>, batchSize: int, failAt: Option<nat>) returns (deleted: nat)
      requires Valid()
      requires batchSize >= 1
      modifies this
      ensures Valid() && online == old(online) && nextId == old(nextId)
      ensures online ==> (rows, deleted) == T.Sweep(old(rows), cutoff, batchSize, failAt)
      ensures !online ==> rows == old(rows) && deleted == 0
    {
      if !online {
        return 0;
      }
      ghost var expired := T.CountExpired(rows, cutoff);
      var total := 0;
      var batch: nat := 0;
      while true
        invariant Valid() && nextId == old(nextId) && online
        invariant rows == T.Batches(old(rows), cutoff, batchSize, batch)
        invariant total == batch * batchSize <= expired
        invariant failAt.Some? ==> batch <= failAt.value
        decreases expired - total
      {
        if failAt == Some(batch) {
          return 0;
        }
        T.SweepStep(old(rows), cutoff, batchSize, failAt, batch);
        T.BatchKeepsValid(Contents(), cutoff, batchSize);
        var before := |rows|;
        rows := T.DeleteBatch(rows, cutoff, batchSize);
        var n := before - |rows|;
        total := total + n;
        if n < batchSize {
          return total;
        }
        batch := batch + 1;
      }
    }
  }
}
