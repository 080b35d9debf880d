# alertmanager-webhook-py, modelled in Dafny

A model of the core of alertmanager-webhook-py. This is a webhook receiver that turns
Prometheus Alertmanager notifications into markdown messages for three chat robots:
WeChat Work ("qywechat"), Feishu and DingTalk. The model covers these parts:

- **The storage interface** (`StorageBackend`) and both of its implementations.
  - SQLite keeps one row per alert episode in an `alerts` table, plus the send history and a periodic sweep of resolved rows.
  - Redis keeps one hash per fingerprint under `alertmanager:alert:<fingerprint>`, with a seven-day TTL.
  - Each backend is a class whose methods are proved against a pure meaning function. `SqliteTable` covers the table and `RedisKeyspace` the keyspace.
  - `Storage.Store` gives the interface's meaning for either backend. The interface lemmas are proved once for both implementations.
- **The coordinator** `Transformer.transform_to_markdown`.
  - It parses the notification.
  - It walks the firing alerts: it counts every firing of a fingerprint, and stores the start time and the key information at the first firing.
  - It walks the resolved alerts: it restores summary, instance and alertname from storage, then deletes the record.
  - It renders each alert and builds the message for the chosen robot. DingTalk's `<font>` tags are rewritten by `_format_markdown_for_robot`.
- **The legacy coordinator** (root `transformer.py`). It talks to Redis directly with raw hash commands and builds WeChat Work messages only. It is compared with the new coordinator on a whole alert episode.
- **The daily cleanup scheduler** `CleanupScheduler`. It computes the next `HH:MM` run, calls `delete_expired` with the retention cutoff, retries after an hour when an iteration raises, and runs until `stop()`.
- **The WeChat Work sender** `QyWeChatSender`. It composes the webhook URL and key, and its `send` guards refuse to post without a URL, without a key or without content.
- **The message dataclasses** of `src/models.py`.

How the model is shaped:

- Objects whose fields the source updates in place are classes. This covers the two backends, the legacy Redis client, the scheduler, the sender and the three message types.
- Pure computations are functions: parsing, formatting, next-run time, URL composition and the storage semantics.
- Each loop is a method with invariants, proved equal to a recursive specification function. The lemmas then state what the source promises about that function.

Things outside the program become parameters:

- the clock: a `now` string per call in the coordinators, and integer seconds in the scheduler;
- Jinja rendering: a `render` function, where `None` means the template raised;
- strftime: a `format` function;
- the HTTP delivery verdict: `delivered`;
- whether a database or server is reachable: an `online` flag on each backend;
- whether pytz knows a timezone name.

## Model

| member | source | states |
|---|---|---|
| Models.NewAlert | src/models.py:9-20 | a new alert has count 0 and empty startTime/endTime; every other field is the one given |
| Models.ParseAlert | src/transformer.py:42-58 | parsing succeeds exactly when status is present, startsAt parses (a missing or empty startsAt fails), and endsAt is falsy or parses; fields are copied; fingerprint defaults to ""; a missing, null or empty endsAt counts as none |
| Models.ParseAll | src/transformer.py:144-146 | the list parses exactly when every element parses, and then element i is the parse of raw alert i |
| Models.QyWeChatMarkdown.constructor | src/models.py:36-44 | an empty markdown dict becomes `{"content": ""}`; a non-empty one is kept |
| Models.QyWeChatMarkdown.SetContent | src/models.py:46-48 | only the "content" entry is replaced |
| Models.QyWeChatMarkdown.ToDict | src/models.py:50-55 | the body has exactly the keys msgtype and markdown, and the markdown dict reads back unchanged |
| Models.FeishuMarkdown.constructor | src/models.py:58-71 | an empty card becomes the default card with wide_screen_mode and no elements |
| Models.FeishuMarkdown.SetContent | src/models.py:73-83 | elements becomes one lark_md div, and the card's content reads back as the text set |
| Models.FeishuMarkdown.ToDict | src/models.py:85-90 | the body has exactly the keys msg_type and card |
| Models.DingTalkMarkdown.constructor | src/models.py:93-104 | an empty markdown dict becomes the default title with empty text |
| Models.DingTalkMarkdown.SetContent | src/models.py:106-109 | title and text are replaced, and nothing else |
| Models.DingTalkMarkdown.ToDict | src/models.py:111-116 | the body has exactly the keys msgtype and markdown, and the markdown dict reads back unchanged |
| Models.BodiesCarryContent | src/models.py:46-116 | after set_content, the body of each message kind carries exactly the content set |
| Models.NewQyWeChat | src/transformer.py:292-293 | a fresh WeChat Work message whose body carries the content |
| Models.NewFeishu | src/transformer.py:304-305 | a fresh Feishu message whose body carries the content |
| Models.NewDingTalk | src/transformer.py:315-316 | a fresh DingTalk message whose body carries the content and the title |
| SqliteTable.Newest | src/storage.py:600-612 | `ORDER BY id DESC LIMIT 1`: the result is a matching row with no matching row after it, or None when no row matches |
| SqliteTable.NewestHasHighestId | src/storage.py:392 | with AUTOINCREMENT ids, the row found has the highest id of all matching rows |
| SqliteTable.FiringCountPositive | src/storage.py:483-494 | the COUNT(*) in exists is positive exactly when a firing row exists |
| SqliteTable.ExistsIffActive | src/storage.py:483-494 | exists is true exactly when the fingerprint has an active firing row |
| SqliteTable.ValidHasAtMostOneFiring | src/storage.py:496-532 | the table invariant keeps at most one firing row per fingerprint |
| SqliteTable.FiringCountAtMostOne | src/storage.py:483-494 | under the invariant, the COUNT(*) is 0 or 1 |
| SqliteTable.EmptyValid | src/storage.py:390-415 | a freshly created table satisfies the invariant (the schema's CHECKs, increasing ids, one open episode) |
| SqliteTable.IncrementKeepsValid | src/storage.py:496-532 | increment_count keeps the invariant |
| SqliteTable.SetStartTimeKeepsValid | src/storage.py:534-553 | set_start_time keeps the invariant |
| SqliteTable.SetAlertInfoKeepsValid | src/storage.py:555-598 | set_alert_info keeps the invariant |
| SqliteTable.DeleteKeepsValid | src/storage.py:650-688 | delete keeps the invariant |
| SqliteTable.RecordSendHistoryKeepsValid | src/storage.py:695-746 | record_send_history keeps the invariant, including the platform and send_status CHECKs |
| SqliteTable.ReplaceKeepsValid | src/storage.py:410-413 | an in-place UPDATE that keeps id, fingerprint and the CHECK facts, and keeps or resolves the status, keeps the invariant |
| SqliteTable.ActiveIsNewest | src/storage.py:600-648 | under the invariant the active firing row is the newest row of its fingerprint, so all reads agree on it |
| SqliteTable.IncrementBehaviour | src/storage.py:496-532 | with no firing row: one new row with count 1, returning 1; otherwise the stored count + 1 on the active row; afterwards the fingerprint exists with that count |
| SqliteTable.DeleteBehaviour | src/storage.py:650-688 | the active row becomes resolved with resolved_at = now; ends_at is written only when truthy; no other row changes; no firing row remains |
| SqliteTable.DeleteTwiceIsNoop | src/storage.py:650-688 | a second delete for the same fingerprint changes nothing |
| SqliteTable.ResolveThenFireStartsNewEpisode | src/storage.py:496-532 | after delete, the next increment_count appends a new row and returns 1 |
| SqliteTable.DeleteKeepsHistory | src/storage.py:600-634 | after delete, get_alert_info and get_start_time read the same values as before |
| SqliteTable.SetStartTimeBehaviour | src/storage.py:534-553 | only the active row's start time changes; with no active row it is a no-op |
| SqliteTable.SetAlertInfoBehaviour | src/storage.py:555-598 | a column is overwritten only by a truthy argument; with no truthy argument, or no active row, nothing is written |
| SqliteTable.RecordSendHistoryBehaviour | src/storage.py:695-746 | a firing send writes onto the firing row, any other send onto the newest row; send_status is success/failed; an unknown platform rolls back |
| SqliteTable.FirstFiringRow | src/storage.py:496-598 | a first firing followed by set_start_time and set_alert_info reads back count 1, the start time and the truthy information |
| SqliteTable.BatchKeepsSurvivors | src/storage.py:760-786 | one `DELETE ... LIMIT batch_size` keeps every row that is not expired |
| SqliteTable.BatchCounts | src/storage.py:760-789 | one batch removes min(batch size, rows expired) rows, all of them expired |
| SqliteTable.NothingExpiredIsSurvivors | src/storage.py:792-794 | once no expired row is left (a batch deleted fewer than batch_size), the table is its survivors |
| SqliteTable.SurvivorsExactly | src/storage.py:748-803 | a row survives the sweep exactly when it is in the table and not expired; survivors plus deleted equals the old size |
| SqliteTable.SweepIdempotent | src/storage.py:748-803 | after a sweep nothing is left to delete |
| SqliteTable.SurvivorsKeepValid | src/storage.py:748-803 | the sweep keeps the table invariant |
| SqliteTable.BatchKeepsValid | src/storage.py:760-790 | one committed batch keeps the table invariant |
| SqliteTable.BatchesCommitted | src/storage.py:760-797 | when the loop reaches batch k, the k committed batches removed exactly k times the batch size, all expired, and kept every survivor |
| SqliteTable.SweepStep | src/storage.py:760-797 | a batch that does not raise extends the committed batches by one; a short batch ends the loop with all survivors and the total count |
| SqliteTable.SweepMeaning | src/storage.py:748-803 | whatever batch raises, only expired rows go and every non-expired row stays; without a failure the result is the survivors and the expired count; a reached failure returns 0 with batch-index times batch-size rows already deleted |
| SqliteTable.SecondBatchFailure | src/storage.py:788-803 | 1500 expired rows, batches of 1000, the second batch raises: 0 is returned although 1000 rows are already deleted and 500 expired rows remain |
| SqliteTable.SweepKeepsValid | src/storage.py:748-803 | the sweep, complete or cut short by a failing batch, keeps the table invariant |
| SqliteTable.ViewsElsewhere | src/storage.py:483-648 | a change confined to one fingerprint's rows leaves every read of another fingerprint unchanged |
| SqliteTable.MutationsChangeOnlyFor | src/storage.py:496-746 | every write operation changes only rows of its own fingerprint |
| SqliteStorage.SqliteStorageBackend.constructor | src/storage.py:358-366 | opening a database holding a valid table |
| SqliteStorage.SqliteStorageBackend.FindNewest | src/storage.py:600-612 | the loop finds the newest matching row |
| SqliteStorage.SqliteStorageBackend.Exists | src/storage.py:483-494 | the loop counts the firing rows; False when the engine fails |
| SqliteStorage.SqliteStorageBackend.IncrementCount | src/storage.py:496-532 | the new table and the count are the meaning function's; when the engine fails, 1 and no change |
| SqliteStorage.SqliteStorageBackend.SetStartTime | src/storage.py:534-553 | the new table is the meaning function's, or unchanged when the engine fails |
| SqliteStorage.SqliteStorageBackend.SetAlertInfo | src/storage.py:555-598 | the new table is the meaning function's, or unchanged when the engine fails |
| SqliteStorage.SqliteStorageBackend.GetStartTime | src/storage.py:600-612 | the newest row's start time; None when the engine fails |
| SqliteStorage.SqliteStorageBackend.GetAlertInfo | src/storage.py:614-634 | the newest row's alertname, summary and instance; all None when the engine fails |
| SqliteStorage.SqliteStorageBackend.GetAlertCount | src/storage.py:636-648 | the active row's count; None when the engine fails |
| SqliteStorage.SqliteStorageBackend.Delete | src/storage.py:650-688 | the new table is the meaning function's, or unchanged when the engine fails |
| SqliteStorage.SqliteStorageBackend.RecordSendHistory | src/storage.py:695-746 | the new table is the meaning function's, or unchanged when the engine fails |
| SqliteStorage.SqliteStorageBackend.DeleteExpired | src/storage.py:748-803 | the batch loop equals `Sweep`: exactly the survivors and the number of expired rows when no batch raises; when the batch it reaches raises, the earlier committed batches stay deleted, that batch is rolled back and 0 is returned; unchanged and 0 when the engine is unreachable |
| RedisKeyspace.SetField | src/storage.py:213-245 | HSET on one field sets that field and leaves every other field and the count alone |
| RedisKeyspace.Key | src/storage.py:147-149 | the key is `alertmanager:alert:` followed by the fingerprint |
| RedisKeyspace.KeyInjective | src/storage.py:147-149 | distinct fingerprints have distinct keys |
| RedisKeyspace.OperationsKeepValid | src/storage.py:200-316 | every operation keeps the keyspace invariant (no empty hashes, positive counts, TTL only on stored keys) |
| RedisKeyspace.IncrementBehaviour | src/storage.py:200-211 | the count is 1 for a new hash or field, otherwise the old count + 1; afterwards the key exists with that count and the other fields are unchanged |
| RedisKeyspace.DeleteBehaviour | src/storage.py:296-305 | after DEL nothing is read back for the fingerprint; a second delete is a no-op; the next increment returns 1 |
| RedisKeyspace.SetStartTimeBehaviour | src/storage.py:213-222 | the start time reads back; count and information are unchanged |
| RedisKeyspace.SetAlertInfoBehaviour | src/storage.py:224-245 | each field is overwritten only by a truthy argument; with none, the keyspace is unchanged |
| RedisKeyspace.SetAlertInfoFields | src/storage.py:235-244 | after the pipeline each information field holds the truthy argument or its old value, and the start time and count are unchanged |
| RedisKeyspace.SetAlertInfoKeepsValid | src/storage.py:233-244 | the pipelined HSETs keep the keyspace invariant, touch only the alert's key and keep every expiry |
| RedisKeyspace.ExpireBehaviour | src/storage.py:307-316 | EXPIRE sets the TTL of a stored key and touches no data; an absent key is left alone |
| RedisKeyspace.FirstFiringHash | src/storage.py:200-245 | a first firing reads back count 1, the start time and the truthy information |
| RedisKeyspace.OtherFingerprintsUntouched | src/storage.py:147-316 | operations on one fingerprint leave every other fingerprint's hash unchanged |
| RedisStorage.RedisStorageBackend.constructor | src/storage.py:123-145 | a backend talking to a server that holds a valid keyspace |
| RedisStorage.RedisStorageBackend.Exists | src/storage.py:188-198 | `EXISTS key > 0`; False when there is no client |
| RedisStorage.RedisStorageBackend.IncrementCount | src/storage.py:200-211 | the keyspace and count are the meaning function's; 1 and no change without a client |
| RedisStorage.RedisStorageBackend.SetStartTime | src/storage.py:213-222 | the meaning function's keyspace, or unchanged without a client |
| RedisStorage.RedisStorageBackend.SetAlertInfo | src/storage.py:224-245 | the pipeline of HSETs gives the meaning function's keyspace |
| RedisStorage.RedisStorageBackend.GetStartTime | src/storage.py:247-257 | the stored start time; None without a client |
| RedisStorage.RedisStorageBackend.GetAlertInfo | src/storage.py:259-279 | the three stored fields; all None without a client |
| RedisStorage.RedisStorageBackend.GetAlertCount | src/storage.py:281-294 | the stored count; None without a client |
| RedisStorage.RedisStorageBackend.Delete | src/storage.py:296-305 | DEL of the key; ends_at is ignored |
| RedisStorage.RedisStorageBackend.Expire | src/storage.py:307-316 | EXPIRE of the key |
| RedisStorage.RedisStorageBackend.DeleteExpired | src/storage.py:318-321 | always 0: Redis relies on TTLs |
| Storage.Backend.Exists | src/storage.py:32-35 | dispatch: the result is the interface meaning of the current state |
| Storage.Backend.IncrementCount | src/storage.py:37-40 | dispatch: the new state and count are the interface meaning's |
| Storage.Backend.SetStartTime | src/storage.py:42-45 | dispatch to the implementation |
| Storage.Backend.SetAlertInfo | src/storage.py:47-51 | dispatch to the implementation |
| Storage.Backend.GetStartTime | src/storage.py:53-56 | dispatch to the implementation |
| Storage.Backend.GetAlertInfo | src/storage.py:58-61 | dispatch to the implementation |
| Storage.Backend.GetAlertCount | src/storage.py:63-66 | dispatch to the implementation |
| Storage.Backend.Delete | src/storage.py:68-71 | dispatch to the implementation |
| Storage.Backend.Expire | src/storage.py:73-76 | dispatch; SQLite ignores the TTL |
| Storage.Backend.DeleteExpired | src/storage.py:748 | dispatch with the SQLite backend's default batch size 1000, passing on the batch that raises |
| Storage.Backend.RecordSendHistory | src/storage.py:88-110 | dispatch; Redis keeps no history |
| Storage.OperationsKeepValid | src/storage.py:28-114 | every interface operation keeps each backend's invariant |
| Storage.UnavailableDefaults | src/storage.py:188-321 | an unreachable backend answers False, 1, None, empty info and 0, and changes nothing |
| Storage.ExistsIffCount | src/storage.py:483-494 | on SQLite, exists is true exactly when a current count exists; on Redis, a count implies exists |
| Storage.IncrementBehaviour | src/storage.py:200-211 | on either backend the count goes up by one from the stored count, or starts at 1, and is held afterwards |
| Storage.FirstFiringCountsOne | src/storage.py:37-40 | a fingerprint that does not exist counts 1 |
| Storage.NthFiringCountsN | src/storage.py:37-40 | from no count, the n-th consecutive increment returns n and leaves n stored |
| Storage.DeleteEndsEpisode | src/storage.py:68-71 | after delete the fingerprint does not exist, has no count, counts 1 at the next firing, and a second delete is a no-op |
| Storage.DeleteAndHistory | src/storage.py:296-305 | SQLite keeps the info and start time readable after delete; Redis reads nothing afterwards |
| Storage.RepeatFiringKeepsRecord | src/transformer.py:178-187 | a repeat firing keeps the stored start time and information, and holds the new count |
| Storage.FirstFiringRecords | src/transformer.py:178-202 | a first firing reads back count 1, the given start time and the non-empty information |
| Storage.OtherFingerprintsUnaffected | src/storage.py:28-114 | operations on one fingerprint leave every read of another fingerprint unchanged, on both backends |
| RobotFormat.StripTags | src/transformer.py:115 | the tag-removing substitution only deletes characters |
| RobotFormat.FormatKeepsOtherRobots | src/transformer.py:104-117 | empty content, and any robot other than dingtalk, get the content unchanged |
| RobotFormat.StripTagsLeavesNoTags | src/transformer.py:115 | after `<[^>]+>` is removed, nothing that pattern matches remains |
| RobotFormat.DingTalkHasNoTags | src/transformer.py:108-115 | DingTalk content never keeps a tag |
| RobotFormat.PlainTextUnchanged | src/transformer.py:104-117 | text without `<` reaches every robot unchanged |
| RobotFormat.ColouredSpanBecomesBold | src/transformer.py:108-113 | a red, green or orange span on one line becomes `**text**` for DingTalk |
| Transformer.FireAll | src/transformer.py:166-207 | one processed alert per firing alert |
| Transformer.ResolveAll | src/transformer.py:219-266 | one processed alert per resolved alert |
| Transformer.PartsPointwise | src/transformer.py:209-215 | part i is alert i's rendering, or the summary fallback when the template raises |
| Transformer.FireAlert | src/transformer.py:169-207 | the new storage state and the alert are the firing step's |
| Transformer.ResolveAlert | src/transformer.py:223-266 | the new storage state and the alert are the resolving step's |
| Transformer.FireAlerts | src/transformer.py:166-217 | the loop equals the firing walk, and the content joins the parts |
| Transformer.ResolveAlerts | src/transformer.py:219-276 | the loop equals the resolving walk, and the content joins the parts |
| Transformer.ParseAlerts | src/transformer.py:144-146 | the loop equals parsing the whole list |
| Transformer.BuildMessages | src/transformer.py:279-325 | the two fresh messages have the bodies the robot type calls for |
| Transformer.TransformToMarkdown | src/transformer.py:119-329 | the whole call: final storage state and the two message bodies equal the specification, and malformed input gives (None, None) |
| Transformer.TransformAlerts | src/transformer.py:148-325 | after parsing: the firing walk, then the resolving walk on its result, then the messages |
| Transformer.WithStatusMembers | src/transformer.py:149-150 | the selected alerts are exactly the notification's alerts with that status |
| Transformer.WithStatusKeepsOrder | src/transformer.py:149-150 | selection distributes over concatenation, so notification order is kept |
| Transformer.ContentEmpty | src/transformer.py:217 | the joined content is empty only for no alert, or one alert rendered as "" |
| Transformer.MessageBodyMeaning | src/transformer.py:279-325 | a message exists exactly for non-empty content and a known robot; WeChat Work and Feishu get title + content, DingTalk the formatted content with no tags |
| Transformer.FireWithoutRecord | src/transformer.py:206-207 | with no fingerprint or no storage, the count is 1 and nothing is stored |
| Transformer.NoStorageCountsOne | src/transformer.py:175-207 | with no storage, every firing alert of a notification counts 1 |
| Transformer.FireStepBehaviour | src/transformer.py:169-207 | the count is the stored count + 1, or 1; a reachable backend holds it afterwards; an unreachable one is unchanged |
| Transformer.FirstFiringStoresRecord | src/transformer.py:187-202 | the first firing stores the alert's own start time and its non-empty alertname, summary and instance |
| Transformer.RepeatFiringKeepsEpisode | src/transformer.py:178-187 | a repeat firing keeps the first firing's start time and information |
| Transformer.NthFiringOfEpisode | src/transformer.py:181 | the n-th delivery of a firing alert is rendered with count n |
| Transformer.BackfillBehaviour | src/transformer.py:244-253 | a key is filled from storage only when the incoming value is empty and the stored one is not; other keys are untouched |
| Transformer.ResolveStepBehaviour | src/transformer.py:223-266 | times come from the alert; summary, instance and alertname are restored from storage read before delete; afterwards the fingerprint is gone and the next firing counts 1 |
| Transformer.FireThenResolveRestoresInfo | src/transformer.py:166-266 | a resolution sent without summary, instance or alertname gets those of the first firing; the next firing starts a new episode at count 1 |
| Transformer.StepsKeepOtherFingerprints | src/transformer.py:174-259 | processing one alert changes nothing another fingerprint reads |
| Transformer.MalformedAlertFailsCall | src/transformer.py:327-329 | an alert that does not parse fails the whole call: no message and no storage operation |
| Transformer.StorageIgnoresRobot | src/transformer.py:166-276 | storage effects do not depend on the robot type or the rendering |
| Transformer.UnknownRobotGetsNothing | src/transformer.py:322-323 | an unknown robot type gets no message, but storage is still updated |
| Transformer.MessagesFollowAlerts | src/transformer.py:285-320 | for a known robot, a firing (resolved) message exists exactly when some alert is firing (resolved) |
| Transformer.StatusesSurvive | src/transformer.py:144-150 | a status has selected alerts exactly when a raw alert carries that status |
| LegacyTransformer.RedisClient.constructor | transformer.py:28-44 | a connected client for the server's keyspace |
| LegacyTransformer.RedisClient.HSet | transformer.py:154 | `HSET fingerprint field value` |
| LegacyTransformer.RedisClient.HIncrBy | transformer.py:156 | `HINCRBY fingerprint count 1` |
| LegacyTransformer.RedisClient.HGet | transformer.py:208-225 | `HGET fingerprint field` |
| LegacyTransformer.RedisClient.HGetCount | transformer.py:158-159 | `HGET fingerprint count` read as an integer |
| LegacyTransformer.RedisClient.Delete | transformer.py:231 | `DEL fingerprint` |
| LegacyTransformer.FireAll | transformer.py:141-187 | one processed alert per firing alert |
| LegacyTransformer.ResolveAll | transformer.py:199-238 | one processed alert per resolved alert |
| LegacyTransformer.FireAlert | transformer.py:145-187 | the command sequence gives the firing step's keyspace and alert |
| LegacyTransformer.ResolveAlert | transformer.py:203-238 | the command sequence gives the resolving step's keyspace and alert |
| LegacyTransformer.FireAlerts | transformer.py:141-197 | the loop equals the firing walk, and the content joins the parts |
| LegacyTransformer.ResolveAlerts | transformer.py:199-248 | the loop equals the resolving walk, and the content joins the parts |
| LegacyTransformer.TransformToMarkdown | transformer.py:96-267 | the whole call equals the specification; malformed input gives (None, None) before any Redis command |
| LegacyTransformer.TransformAlerts | transformer.py:121-263 | after parsing: both walks, then the WeChat Work messages |
| LegacyTransformer.FireStepBehaviour | transformer.py:145-187 | the start time is overwritten at every firing; the count is the stored count + 1; the information is written only when the count is 1 |
| LegacyTransformer.StoreInfoBehaviour | transformer.py:163-182 | the information HSETs change only alertname, summary and instance, each only for a non-empty value |
| LegacyTransformer.FireWithoutClient | transformer.py:186-187 | with no fingerprint or no client, the count is 1 and the keyspace is untouched |
| LegacyTransformer.NthFiringOfEpisode | transformer.py:154-159 | from no count, the n-th delivery is rendered with count n, and the hash holds n and the alert's start time |
| LegacyTransformer.ResolveStepBehaviour | transformer.py:204-238 | a stored start time wins over startsAt; information is restored only into empty fields; the hash is deleted; the next firing counts 1 |
| LegacyTransformer.LegacyEpisode | transformer.py:141-238 | first firing, repeat, resolution: counts 1 and 2, the resolution filled from the first firing, and the start time of the last firing |
| LegacyTransformer.NewEpisode | src/transformer.py:166-266 | the same episode on the new coordinator: counts 1 and 2, the same filling, and the resolution's own startsAt |
| LegacyTransformer.CoordinatorsCompared | transformer.py:141-238 | both coordinators show equal firing alerts (counts 1 and 2) and resolved alerts that are equal except for the start time: the last firing's in the old one, the resolved alert's own in the new one |
| LegacyTransformer.MessagesAreWeChat | transformer.py:250-261 | the legacy messages are the new coordinator's WeChat Work messages |
| LegacyTransformer.MalformedAlertFailsCall | transformer.py:265-267 | an alert that does not parse fails the whole call with the keyspace untouched |
| CleanupScheduling.Pad2 | src/cleanup_scheduler.py:28 | two decimal digits |
| CleanupScheduling.CutoffArgument | src/cleanup_scheduler.py:76-88 | None exactly for a retention of 0 days |
| CleanupScheduling.ChooseTimezone | src/cleanup_scheduler.py:36-45 | a zone exactly when pytz is available: the named zone when known, UTC otherwise |
| CleanupScheduling.RunAll | src/cleanup_scheduler.py:107-127 | one logged iteration per clock reading |
| CleanupScheduling.CleanupScheduler.constructor | src/cleanup_scheduler.py:21-45 | fields as given, the chosen timezone, running set |
| CleanupScheduling.CleanupScheduler.CleanupExpiredRecords | src/cleanup_scheduler.py:73-95 | delete_expired with None for 0 days, otherwise the cutoff `now - retention_days` days |
| CleanupScheduling.CleanupScheduler.RunOnce | src/cleanup_scheduler.py:108-127 | one iteration: a wait and a cleanup, or an hour's retry when the time does not parse |
| CleanupScheduling.CleanupScheduler.Run | src/cleanup_scheduler.py:97-127 | the loop runs the iterations before stop, and running is false afterwards |
| CleanupScheduling.CleanupScheduler.Stop | src/cleanup_scheduler.py:129-132 | running is cleared |
| CleanupScheduling.CleanupTimeRoundTrip | src/cleanup_scheduler.py:57 | a time written as HH:MM parses back to its hour and minute |
| CleanupScheduling.CleanupTimeInRange | src/cleanup_scheduler.py:57-63 | a parsed time has hour 0..23 and minute 0..59, a whole minute within the day |
| CleanupScheduling.NextRunTimeMeaning | src/cleanup_scheduler.py:54-71 | the next run is after now, at most a day later, at the configured HH:MM:00, and no earlier instant after now has that time of day |
| CleanupScheduling.NextSlot | src/cleanup_scheduler.py:60-69 | today's slot, or tomorrow's when today's is not after now, is the first instant after now with that time of day, at most a day away, on a whole minute |
| CleanupScheduling.BadTimeNeverCleans | src/cleanup_scheduler.py:124-127 | a time that does not parse makes every iteration an hour's retry and never touches storage |
| CleanupScheduling.IterationWaits | src/cleanup_scheduler.py:110-119 | with a valid time the wait is between 0 and a day, and positive when measured at the planning instant |
| CleanupScheduling.IterationSweeps | src/cleanup_scheduler.py:73-95 | on SQLite only expired rows go and firing rows always stay; when no batch raises (or the count is positive) the rows kept are exactly those not expired and a retention of 0 leaves no resolved row; when a reached batch raises, the count is 0 and the earlier batches' rows are gone |
| CleanupScheduling.RedisNeverCleans | src/cleanup_scheduler.py:122 | on Redis the loop never changes storage and every cleanup deletes 0 |
| Sender.SplitOnce | src/sender.py:34-35 | split at the first separator: the pieces rebuild the input, and the first piece has no separator |
| Sender.QueryKey | src/sender.py:34-37 | a key found in the query is never empty (parse_qs drops blank values) |
| Sender.Configure | src/sender.py:29-48 | a full URL is used verbatim; otherwise the key is the one given |
| Sender.TrailingQuestionMarkIgnored | src/sender.py:46-48 | trailing '?' characters of the base URL make no difference |
| Sender.QyWeChatSender.constructor | src/sender.py:20-48 | the fields are the configured URL and key |
| Sender.QyWeChatSender.Send | src/sender.py:50-95 | True exactly when no guard refuses and the delivery succeeds |
| Sender.QyWeChatSender.SendFiring | src/sender.py:97-101 | True exactly for a message that passes the guards and is delivered |
| Sender.QyWeChatSender.SendResolved | src/sender.py:103-107 | True exactly for a message that passes the guards and is delivered |
| Sender.ConfiguredSenderRefusesOnlyEmptyContent | src/sender.py:29-71 | every constructed sender has a URL and a key or `key=`, so send refuses only a message without content |
| Sender.ComposedUrlRoundTrip | src/sender.py:29-48 | passing the composed URL as a full webhook_url builds the same sender, for a plain base and key |

## Left out

- I/O and infrastructure: SQLite connection setup, PRAGMAs and schema migration; Redis connection pooling and credential normalisation (src/storage.py:123-186); all locks and logging.
- Time: sleeps, timezone and DST arithmetic, and sub-second precision. Instants are integer seconds on one wall clock, so a day is exactly 86400 seconds.
- Jinja template loading and rendering: `render` is a parameter, where None means the template raised.
- `requests.post` and the `errcode` handling of the reply (src/sender.py:73-95): `delivered` is a parameter.
- The root `sender.py` and `models.py` are not part of this model. The legacy coordinator is modelled with the `src/models.py` message classes.
- Reachability that changes between storage calls. A backend's reachability is one `online` field that holds for a whole call, while in the source every backend operation pings or catches on its own and returns its own default (src/storage.py:151-211, 483-532). So the model does not capture an `exists` that fails followed by an `increment_count` that succeeds, which makes a repeat firing look new and lets `set_start_time` and `set_alert_info` overwrite the stored episode (src/transformer.py:176-202), nor a failed `get_alert_info` followed by a successful `delete`, which loses the information to restore. The new coordinator's storage calls never raise, so its `except` clauses (src/transformer.py:203-205, 260-263) are never taken, in the model as in the source.
- Legacy Redis commands that raise partway through an alert (transformer.py:183-185, 232-235). The legacy client is present or absent for the whole call, so the model does not capture the partial writes this leaves: a firing whose `startTime` is already overwritten but which is shown with count 1, or a resolution that read the hash but did not delete it.
- The `startsAt` fallback of the resolved loop (src/transformer.py:231-238). This branch is unreachable: parsing requires `startsAt`, so `if alert.startsAt` is always true.
- The `Notification` header fields, and the duplicate-fingerprint warning. These only reach the log.
- Redis TTL expiry by the server itself: the TTL is recorded but never counts down.
- A non-integer `count` field hit by HINCRBY, which raises in Redis. The keyspace invariant rules it out.
- `stop()` from another thread. The model takes the number of iterations before `stop()` lands as the length of `readings`.
- Python's `int()` also accepts surrounding whitespace, underscores and non-ASCII digits. `ParseInt` accepts only an optional sign followed by ASCII digits.
- `urlparse`'s percent-decoding, `+` as space, and its stripping of control characters. `QueryKey` compares the raw field names and values.
- `str.lower()` beyond ASCII.
- Strings compare by code point, which is SQLite's BINARY collation on the stored timestamps.
- One `now` serves every storage timestamp in one call.
- SqliteStorage.SqliteStorageBackend.DeleteExpired: requires a batch size of at least 1. With `batch_size <= 0` the loop of src/storage.py:760-797 never stops, because a batch never deletes fewer than `batch_size` rows; the default of 1000 belongs to the SQLite backend's `delete_expired` (src/storage.py:748); the interface's `delete_expired` (src/storage.py:78-86) takes no batch size.
- CleanupScheduling.CutoffArgument: does not model the `OverflowError` of `now - timedelta(days=retention_days)` for a retention reaching before year 1 (src/cleanup_scheduler.py:83, 93-95). The source then returns 0 and deletes nothing; the model forms a cutoff.
- Sender.Configure: does not model `urlparse` raising on a malformed IPv6 address in the URL (src/sender.py:33-41). The source then records the placeholder key; the model reads the key from the query.
