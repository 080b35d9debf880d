/**
 * One row of the durable backend's `alerts` table (src/storage.py:390-415):
 * an alert occurrence with its lifecycle state, descriptive metadata and the
 * delivery audit fields. Timestamps are the backend's "YYYY-MM-DD HH:MM:SS"
 * strings, kept opaque.
 */
module AlertRecord {
  import opened Wrappers

  /** `CHECK(status IN ('firing', 'resolved'))`: the status column as a type. */
  datatype Status = Firing | Resolved

  /** `CHECK(send_status IN ('success', 'failed') OR send_status IS NULL)`. */
  datatype SendStatus = Success | Failed

  /** The platforms the `platform` column admits besides NULL. */
  const Platforms: set<string> := {"qywechat", "feishu", "dingtalk"}

  datatype Row = Row(
    id: nat,
    fingerprint: string,
    status: Status,
    count: int,
    startTime: string,
    resolvedAt: Option<string>,
    endsAt: Option<string>,
    alertname: Option<string>,
    summary: Option<string>,
    instance: Option<string>,
    severity: Option<string>,
    platform: Option<string>,
    sendStatus: Option<SendStatus>,
    sendError: Option<string>,
    lastSentAt: Option<string>,
    webhookUrl: Option<string>,
    createdAt: string,
    updatedAt: string)

  /** `platform IN ('qywechat', 'feishu', 'dingtalk') OR platform IS NULL`. */
  predicate PlatformOk(p: Option<string>) {
    p.None? || p.value in Platforms
  }

  /**
   * The CHECK constraints the table enforces on a row (`count > 0` and the
   * platform set), plus the lifecycle fact that `resolved_at` is stamped
   * exactly on resolved rows.
   */
  predicate RowOk(r: Row) {
    && r.count > 0
    && PlatformOk(r.platform)
    && (r.status == Resolved <==> r.resolvedAt.Some?)
  }

  /** What `get_alert_info` hands back: the dict {summary, instance, alertname}. */
  datatype AlertInfo = AlertInfo(alertname: Option<string>, summary: Option<string>, instance: Option<string>)

  /** The dict whose values are all None. */
  const NoInfo := AlertInfo(None, None, None)
}
