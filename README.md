# Server monitor: check engine and escalation handlers

A model of the decision logic of a small server monitor. The monitor has two parts.

- `main.py` holds `CheckManager`. Every round, it runs each configured check of each server, appends one result record per check to a per-server list in `aggregate_results`, stamps `last-check-time`, and escalates failures and threshold breaches.
- `handlers.py` picks an escalation strategy:
  - a failure notification, posted to every alert chat;
  - a warning notification, posted the same way;
  - for the server `TG1`, a failover. It stops TG1's `service`-type checks' services over SSH, starts two fixed services on `TG2`, and posts one message reporting both steps.

The model has four modules.

- `Config`: the read-only configuration, and the `next(...)` server lookup.
- `Text`: Python's `str.find`, the substring operator `in`, and decimal rendering.
- `Handlers`:
  - strategy selection and the alert texts;
  - the per-chat fan-out, the `systemctl` commands and the failover;
  - a `Network` class. Its `posts` field is the alert relay's outbox; its `commands` field is the log of commands sent over SSH.
- `Monitor`:
  - the six check kinds, and the substring test that separates resource checks from the others;
  - ping token extraction and classification;
  - the aggregate map;
  - a `CheckManager` class whose methods change `results`, `threads` and the network in place.

Every effect of the outside world is an input to the model.

- Each execution of a check receives an `Observation`. It records what the probes would report: whether the ping replied and what it printed, whether telnet connected and how long it took, what `systemctl is-active` said, and the usage reading. It also records whether a snapshot file left from before could be read, and whether SSH to TG1 and TG2 can be opened.
- `float()` on the ping token is a parameter, `parseFloat`. When it returns `None`, the parse raised.

The model follows these exception paths of `run_check` to where its `except` catches them. Exceptions raised inside the probes themselves are not modelled (see "## Left out").

- An unknown type returns before anything happens.
- A ping token that `float()` rejects raises before anything is logged.
- Once a save has stamped the `last-check-time` key, a server called `last-check-time` finds the timestamp string there, so the append raises. Before the first save, its records go into a list, and the save then overwrites that list with the timestamp.
- A resource check without a limit raises `KeyError` after its record is logged.
- Before the manager's first save, a snapshot file that cannot be loaded means no failure escalation. After a save the file holds the map just written, so every failure is escalated. `CheckManager.saved` records whether that save has happened.
- A missing `TG1` ends the failover with nothing done. A missing `TG2` ends it after TG1's stops, with no message sent.

`CheckManager` in the model carries a ghost field `effect`. `Valid()` ties `effect` to `TaskEffect`, the effect of one `run_check`. The round methods are specified in terms of that field.

One behaviour of the code is kept as it is: `aggregate_results` is never reset, so the records accumulate across rounds without bound. `RoundKeepsHistory` and `RoundsKeepHistory` prove that earlier records survive every round.

The round itself is not modelled as written. `start` means to launch one thread per (server, check) pair, but the thread class name at main.py:377 is undefined. The first pair therefore raises NameError before any thread is created; `Monitor.ThreadNameError` and `Monitor.StartAsWritten` model that (see "## Findings"). `CheckManager.Round` and `CheckManager.Start` model the intended fan-out instead. They record one task per pair in `threads` and run the checks one after another, in config order.

## Model

| member | source | states |
|---|---|---|
| Config.FindServer | handlers.py:125-126 | None exactly when no server has the name; otherwise the first server in config order with that name |
| Text.Find | main.py:65-68 | `str.find` with a start index: -1 exactly when the pattern occurs at no index at or after the start, otherwise the lowest such index |
| Text.NotContainedByChar | main.py:295 | a needle holding a character the haystack lacks is not a substring of it |
| Text.Digits | handlers.py:104 | decimal digits of a natural number, never empty, with no leading zero |
| Text.Render | handlers.py:104 | the text of an integer in an f-string: never empty, with a leading `-` exactly for negative numbers |
| Text.DigitsRoundTrip | handlers.py:104 | reading the digits back gives the number |
| Text.RenderRoundTrip | handlers.py:104 | reading the rendered text back (sign, then digits) gives the integer, so the warning text carries exactly the value |
| Monitor.KindOf | main.py:277-290 | the `if/elif` chain recognises exactly the six type names, each to its own monitor kind; any other type is None (`return`) |
| Monitor.ResourceTestIsMembership | main.py:295 | on the six recognised type names, the substring test `in 'cpu ram disk_space'` holds exactly for cpu, ram and disk_space |
| Monitor.CheckResult | main.py:137-237 | `check()` is always true for cpu, ram and disk; a service check passes exactly when the stripped output is `active` |
| Monitor.PingToken | main.py:63-70 | `Sentinel` exactly when the output has no `time=`; otherwise the token handed to `float()` contains no space |
| Monitor.PingTokenBeforeSpace | main.py:65-69 | for output of the form `…time=<tok> <rest>`, the token is exactly `<tok>` |
| Monitor.PingTokenAtEnd | main.py:65-69 | when no space follows `time=`, the slice `[start:-1]` drops the last character of the token |
| Monitor.ResponseTime | main.py:56-247 | `response_time()` of the six monitors: raises exactly when the ping token is rejected by `float()`; otherwise, for ping, the value `float()` gives the token; -1 without `time=`; 0 for a service check |
| Monitor.Classify | main.py:295-301 | non-resource: failure exactly when `check()` failed, warning exactly when it passed and the value reaches the global limit; resource: never failure, warning exactly when the check has a limit and the value reaches it; a warning carries the value |
| Monitor.PlanCheck | main.py:274-303 | nothing is logged exactly when the type is unknown or `response_time()` raised, and the latter happens only for an unparsable ping token; otherwise one record with the check's name, 'Success' exactly when `check()` passed, and the reading `response_time()` returned; the escalation is the classification of that result and reading, so a resource check never fails and any other type fails exactly when its record says 'Failure' |
| Monitor.AppendSpec | main.py:327-333 | `log_result` on the map fails exactly on the timestamp key; otherwise it creates the list if missing, puts the record last and leaves every other key unchanged |
| Monitor.Escalate | main.py:335-359 | a warning posts the warning text to every chat; a failure on TG1 runs the failover; a failure elsewhere posts the failure text; a failure with an unreadable snapshot sends nothing |
| Monitor.FailureEscalatesAfterSave | main.py:344-345 | once the manager has written the snapshot, a failure is always escalated: the failover for TG1, the failure notification elsewhere |
| Monitor.LoggedEffect | main.py:292-301 | a check with a recognised type and a reading logs its record first, then escalates as classified |
| Monitor.LogBeforeEscalation | main.py:292-301 | a check that logs appends exactly its one record to its server's list and leaves the other keys alone; anything sent comes after that append; a skipped check changes nothing |
| Monitor.RunAllRecords | main.py:376-379 | a run of tasks appends to a server's list exactly the planned records of that server's tasks, in task order, after the records it already had |
| Monitor.PlannedRecordsOnePerCheck | main.py:376-379 | when every check of a server logs, the run adds exactly one record per check of that server |
| Monitor.PlannedRecordsOtherServers | main.py:327-333 | checks of other servers never add to a server's list |
| Monitor.RunServersRecords | main.py:375-379 | the nested loop over servers and checks appends each server's records round by round, keeping the old ones first |
| Monitor.RoundKeepsHistory | main.py:374-386 | after a round, `last-check-time` holds the round's stamp and each server's list is its old list followed by this round's records |
| Monitor.RoundsKeepHistory | main.py:374-386 | across any number of rounds, a server's earlier records remain a prefix of its list |
| Monitor.StartAsWritten | main.py:377 | as written, NameError exactly when at least one round starts and some server has a check; otherwise the rounds run as intended |
| Monitor.ThreadNameError | main.py:377 | one server with one telnet check: as written, NameError with nothing recorded; as intended, the check's success is recorded |
| Monitor.CheckManager.constructor | main.py:260-264 | empty aggregate map and thread list, nothing saved yet; `effect` is `run_check`'s |
| Monitor.CheckManager.LogResult | main.py:305-333 | `ok` exactly when the append succeeded; the map becomes the appended map, or is unchanged when the append raised |
| Monitor.CheckManager.SaveAggregateResults | main.py:361-368 | the map gains `last-check-time` with the given stamp and is otherwise unchanged; the snapshot file now exists |
| Monitor.CheckManager.HandleFailure | main.py:335-347 | commands and posts grow by exactly what the failure escalation sends, the snapshot loading whenever the manager has saved one |
| Monitor.CheckManager.HandleWarning | main.py:349-359 | posts grow by exactly what the warning escalation sends |
| Monitor.CheckManager.DispatchEscalation | main.py:295-301 | commands and posts grow by exactly what the classified escalation sends |
| Monitor.CheckManager.RunCheck | main.py:266-303 | map, commands and posts change exactly as the check's effect, committed on the old map, says |
| Monitor.CheckManager.RunServerChecks | main.py:376-379 | one thread entry per check in order; the map and the network change as the fold of the checks' effects |
| Monitor.CheckManager.RunAllServers | main.py:375-379 | the thread list grows by one task per (server, check) pair, in config order; the map and network change as the fold of every server's checks in that same order |
| Monitor.CheckManager.Round | main.py:375-385 | the map and network change as one round over every server's checks followed by the stamp; the thread list ends empty and the snapshot is saved |
| Monitor.CheckManager.Start | main.py:370-386 | the map and network change as the given rounds in order, every round after the first seeing the saved snapshot; the thread list ends empty after at least one round and is untouched when there are none |
| Handlers.GetStrategy | handlers.py:38-55 | the warning strategy exactly when the tag is 'warning'; otherwise failover exactly for TG1 and failure notification for every other server; the check type is never read |
| Handlers.FailurePathIgnoresSeverity | main.py:344-347 | with the loaded document as third argument, the warning strategy is never chosen and the choice depends on the server name only |
| Handlers.AlertKindsDiffer | handlers.py:74-106 | failure and warning texts begin with different headers and are never equal |
| Handlers.Broadcast | handlers.py:257-263 | one post per chat id, in `chats` order, each carrying the message |
| Handlers.CommandLineInjective | handlers.py:238 | a `systemctl {action} {service}` line determines its action and its service |
| Handlers.Commands | handlers.py:225-226 | one command per service, in list order, each on the given host |
| Handlers.ServiceNamesExact | handlers.py:213-215 | one name per `service`-type check; a name is listed exactly when some service check names it |
| Handlers.MigrationMessageReportsSteps | handlers.py:127-137 | equal failover messages for the same failure have equal step outcomes, so the four combinations give four messages |
| Handlers.MigrationWithBothServers | handlers.py:125-139 | with TG1 and TG2 configured: TG1's stop commands when TG1 is reachable, then, when TG2 is, `systemctl start` of `adp-client-bot.service` and `adp-shop-bot.service` on TG2's host in that order, and one composite message posted once per chat |
| Handlers.MigrationWithoutTg1 | handlers.py:141-159 | without TG1 in the configuration, the failover sends nothing |
| Handlers.Network.PostAlert | handlers.py:263 | a post appends exactly one (chat, message) pair and runs no command |
| Handlers.Network.Exec | handlers.py:238 | a command appends exactly one (host, line) pair and posts nothing |
| Handlers.SendMessage | handlers.py:250-263 | posts grow by the broadcast of the message to all chats; no command is run |
| Handlers.HandleNotifyFailure | handlers.py:66-80 | posts grow by the failure text to every chat |
| Handlers.HandleNotifyWarning | handlers.py:91-106 | posts grow by the warning text to every chat |
| Handlers.ManageService | handlers.py:228-248 | exactly one `systemctl` command on the session's host |
| Handlers.DisableServices | handlers.py:205-215 | one `stop` per service check of the server, in check order, nothing for other check types |
| Handlers.EnableServices | handlers.py:217-226 | one `start` per listed service, in list order |
| Handlers.ConnectAndDisableServices | handlers.py:141-159 | reports success exactly when the SSH session was obtained, in which case the stops were issued |
| Handlers.ConnectAndEnableServices | handlers.py:161-180 | reports success exactly when the SSH session was obtained (the falsy `None` reads as failure), in which case the starts were issued |
| Handlers.HandleMoveServices | handlers.py:117-139 | commands and posts grow by exactly what the failover sends, message built step by step |

## Left out

- The probes themselves are not modelled: ping and telnet subprocesses, paramiko sessions, psutil readings, wall-clock timing. Their results arrive in an `Observation`.
- Exceptions raised inside a probe are not modelled, because an `Observation` always holds an answer. Such an exception would escape to `run_check`'s `except` (main.py:302), which logs it; no record is appended and nothing is escalated. The probes that can raise are:
  - `subprocess.run` in the ping check and in `response_time` (main.py:53, 63);
  - the cp1251 decode of the ping output (main.py:64);
  - the psutil readings (main.py:189-190, 215, 246), for example `cpu_count()` returning None.
- Concurrency is not modelled. The threads of a round run one after another, and `join` and `time.sleep(60)` are not modelled. `Monitor.CheckManager.Round` does not capture interleavings of concurrent appends to the map.
- Monitor.ResponseTime: readings and limits are integers, so `round(x, 3)` is the identity and floating-point comparison is not modelled. `float()` is the `parseFloat` parameter.
- Handlers.HandleNotifyWarning: the value is rendered as a decimal integer, not with Python's float formatting.
- File I/O is not modelled: the JSON write of `save_aggregate_results`, the JSON read of `handle_failure` (only whether it succeeds is modelled), and the per-server log files with their formatting.
- A failed write in `save_aggregate_results` would raise out of `start`. The model takes every save as successful.
- If creating a server's log file raised before the append, that check would record nothing; this path is not modelled.
- `strftime` is not modelled. The timestamp is an input string.
- Configuration entries are assumed well-formed. The `KeyError` paths for a check without `type`, `port` or `service`, or a server without `user`/`password`, are not modelled.
- An exception raised while posting to the alert relay, which would stop the fan-out partway, is not modelled.
- The failure paths of `manage_service` are not modelled; every command is taken to leave the session usable.
  - `manage_service` catches an exception from a command and logs it.
  - Both that handler and the output logging call `getpeername` on the session's transport, which can itself raise on a dead session.
  - That error escapes to `connect_and_disable_services` or `connect_and_enable_services`: the step reports failure and its remaining commands are skipped.
- Logging is not modelled.
- The results endpoint (`api.py`) is not part of this model.
- Start loops over a given finite sequence of rounds rather than forever.

## Findings

| source | as written | input that shows it | evidently intended | confidence | as-written member | corrected member |
|---|---|---|---|---|---|---|
| main.py:377 | the thread class is spelled with a Cyrillic letter inside the name, an undefined name, so the first (server, check) pair raises NameError and `start` ends before any check runs | one server `web` with one telnet check `api` that connects | one `run_check` per (server, check) pair, every round | not executed | Monitor.ThreadNameError | Monitor.CheckManager.Start |
