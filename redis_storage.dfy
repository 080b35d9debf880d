/**
 * `RedisStorageBackend` (src/storage.py:117-349): the fields `db` and `ttl`
 * stand for the Redis server's keyspace as this backend sees it. `online` is
 * false when `_get_client` finds no reachable server: every operation then
 * returns its documented default and sends no command.
 */
module RedisStorage {
  import opened Wrappers
  import opened Text
  import opened AlertRecord
  import K = RedisKeyspace

  class RedisStorageBackend {
    var db: map<string, K.Hash>
    var ttl: map<string, int>
    var online: bool

    ghost function Contents(): K.Keyspace
      reads this
    {
      K.Keyspace(db, ttl)
    }

    ghost predicate Valid()
      reads this
    {
      K.Valid(Contents())
    }

    /** A backend talking to a server that currently holds `existing`. */
    constructor (existing: K.Keyspace)
      requires K.Valid(existing)
      ensures Contents() == existing && online && Valid()
    {
      db, ttl, online := existing.db, existing.ttl, true;
    }

    method Lookup(key: string) returns (h: K.Hash)
      ensures h == K.Lookup(Contents(), key)
    {
      h := if key in db then db[key] else K.NoHash;
    }

    /** `exists` (src/storage.py:188-198): `EXISTS key > 0`. */
    method Exists(fp: string) returns (r: bool)
      ensures r == (online && K.Exists(Contents(), fp))
    {
      if !online {
        return false;
      }
      r := K.Key(fp) in db;
    }

    /** `increment_count` (src/storage.py:200-211). */
    method IncrementCount(fp: string) returns (count: int)
      requires Valid()
      modifies this
      ensures Valid() && online == old(online)
      ensures online ==> (Contents(), count) == K.IncrementCount(old(Contents()), fp)
      ensures !online ==> Contents() == old(Contents()) && count == 1
    {
      if !online {
        return 1;
      }
      K.OperationsKeepValid(Contents(), fp, "", None, None, None, None, 0);
      var key := K.Key(fp);
      var h := Lookup(key);
      var n := h.count.GetOr(0) + 1;
      db := db[key := h.(count := Some(n))];
      count := if n != 0 then n else 1;
    }

    /** `set_start_time` (src/storage.py:213-222). */
    method SetStartTime(fp: string, startTime: string)
      requires Valid()
      modifies this
      ensures Valid() && online == old(online)
      ensures Contents() == if online then K.SetStartTime(old(Contents()), fp, startTime) else old(Contents())
    {
      if !online {
        return;
      }
      K.OperationsKeepValid(Contents(), fp, startTime, None, None, None, None, 0);
      var key := K.Key(fp);
      var h := Lookup(key);
      db := db[key := h.(startTime := Some(startTime))];
    }

    method HSetIf(key: string, f: K.Field, v: Option<string>)
      modifies this
      ensures Contents() == K.HSetIf(old(Contents()), key, f, v) && online == old(online)
    {
      if OptTruthy(v) {
        var h := Lookup(key);
        db := db[key := K.SetField(h, f, v.value)];
      }
    }

    /** `set_alert_info` (src/storage.py:224-245). */
    method SetAlertInfo(fp: string, alertname: Option<string>, summary: Option<string>,
                        instance: Option<string>, severity: Option<string>)
      requires Valid()
      modifies this
      ensures Valid() && online == old(online)
      ensures Contents() == if online then K.SetAlertInfo(old(Contents()), fp, alertname, summary, instance, severity)
                            else old(Contents())
    {
      if !online {
        return;
      }
      K.OperationsKeepValid(Contents(), fp, "", alertname, summary, instance, severity, 0);
      var key := K.Key(fp);
      HSetIf(key, K.Alertname, alertname);
      HSetIf(key, K.Summary, summary);
      HSetIf(key, K.Instance, instance);
      HSetIf(key, K.Severity, severity);
    }

    /** `get_start_time` (src/storage.py:247-257). */
    method GetStartTime(fp: string) returns (r: Option<string>)
      ensures r == if online then K.GetStartTime(Contents(), fp) else None
    {
      if !online {
        return None;
      }
      var h := Lookup(K.Key(fp));
      r := h.startTime;
    }

    /** `get_alert_info` (src/storage.py:259-279): one pipeline of three HGETs. */
    method GetAlertInfo(fp: string) returns (r: AlertInfo)
      ensures r == if online then K.GetAlertInfo(Contents(), fp) else NoInfo
    {
      if !online {
        return NoInfo;
      }
      var h := Lookup(K.Key(fp));
      r := AlertInfo(h.alertname, h.summary, h.instance);
    }

    /** `get_alert_count` (src/storage.py:281-294). */
    method GetAlertCount(fp: string) returns (r: Option<int>)
      ensures r == if online then K.GetAlertCount(Contents(), fp) else None
    {
      if !online {
        return None;
      }
      var h := Lookup(K.Key(fp));
      r := h.count;
    }

    /** `delete` (src/storage.py:296-305): `ends_at` is not used. */
    method Delete(fp: string)
      requires Valid()
      modifies this
      ensures Valid() && online == old(online)
      ensures Contents() == if online then K.Delete(old(Contents()), fp) else old(Contents())
    {
      if !online {
        return;
      }
      K.OperationsKeepValid(Contents(), fp, "", None, None, None, None, 0);
      var key := K.Key(fp);
      db, ttl := db - {key}, ttl - {key};
    }

    /** `expire` (src/storage.py:307-316). */
    method Expire(fp: string, seconds: int)
      requires Valid()
      modifies this
      ensures Valid() && online == old(online)
      ensures Contents() == if online then K.ExpireAlert(old(Contents()), fp, seconds) else old(Contents())
    {
      if !online {
        return;
      }
      K.OperationsKeepValid(Contents(), fp, "", None, None, None, None, seconds);
      var key := K.Key(fp);
      if key in db {
        if seconds <= 0 {
          db, ttl := db - {key}, ttl - {key};
        } else {
          ttl := ttl[key := seconds];
        }
      }
    }

    /** `delete_expired` (src/storage.py:318-321): keys expire on their own TTL; nothing is swept. */
    method DeleteExpired(cutoff: Option<string>) returns (deleted: nat)
      ensures deleted == 0
    {
      deleted := 0;
    }
  }
}
