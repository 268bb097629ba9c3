/** The check engine of main.py: the six monitor kinds, the classification
    of one check's outcome, the per-server result lists and the round loop of
    `CheckManager`.

    The probes themselves (ping, telnet, SSH, psutil) are external: every
    execution of a check is given an `Observation` holding what the probes
    would report, and the escalation it triggers is recorded in a
    `Handlers.Network`. */
module Monitor {
  import opened Config
  import opened Text
  import opened Handlers

  // ---------------------------------------------------------------------
  // Check kinds

  datatype Kind = Ping | Telnet | Service | Cpu | Ram | DiskSpace

  /** The `type` string that selects each monitor class. */
  function KindName(k: Kind): string
  {
    match k
    case Ping => "ping"
    case Telnet => "telnet"
    case Service => "service"
    case Cpu => "cpu"
    case Ram => "ram"
    case DiskSpace => "disk_space"
  }

  /** The `if/elif` chain of `run_check` choosing a monitor; None is the
      final `else: return`. */
  function KindOf(t: string): (r: Option<Kind>)
    ensures forall k :: r == Some(k) <==> KindName(k) == t
  {
    if t == "ping" then Some(Ping)
    else if t == "telnet" then Some(Telnet)
    else if t == "service" then Some(Service)
    else if t == "cpu" then Some(Cpu)
    else if t == "ram" then Some(Ram)
    else if t == "disk_space" then Some(DiskSpace)
    else None
  }

  predicate IsResource(k: Kind)
  {
    k == Cpu || k == Ram || k == DiskSpace
  }

  const ResourceTypes: string := "cpu ram disk_space"

  /** `check['type'] in 'cpu ram disk_space'`: a substring test, not a
      membership test. */
  predicate ResourceTest(t: string)
  {
    Contains(ResourceTypes, t)
  }

  /** On the six recognised type names the substring test agrees with
      membership in {cpu, ram, disk_space}. */
  lemma ResourceTestIsMembership(k: Kind)
    ensures ResourceTest(KindName(k)) <==> IsResource(k)
  {
    match k
    case Ping =>
      assert "ping"[3] == 'g';
      NotContainedByChar(ResourceTypes, "ping", 3);
    case Telnet =>
      assert "telnet"[0] == 't';
      NotContainedByChar(ResourceTypes, "telnet", 0);
    case Service =>
      assert "service"[3] == 'v';
      NotContainedByChar(ResourceTypes, "service", 3);
    case Cpu =>
      var w := ResourceTypes[0..3];
      assert w[0] == 'c' && w[1] == 'p' && w[2] == 'u';
      assert w == "cpu";
      assert OccursAt(ResourceTypes, "cpu", 0);
    case Ram =>
      var w := ResourceTypes[4..7];
      assert w[0] == 'r' && w[1] == 'a' && w[2] == 'm';
      assert w == "ram";
      assert OccursAt(ResourceTypes, "ram", 4);
    case DiskSpace =>
      var w := ResourceTypes[8..18];
      assert w[0] == 'd' && w[1] == 'i' && w[2] == 's' && w[3] == 'k' && w[4] == '_';
      assert w[5] == 's' && w[6] == 'p' && w[7] == 'a' && w[8] == 'c' && w[9] == 'e';
      assert w == "disk_space";
      assert OccursAt(ResourceTypes, "disk_space", 8);
  }

  // ---------------------------------------------------------------------
  // What the probes report

  /** Everything the outside world answers during one execution of a check:
      the first ping's success and the second ping's standard output; whether
      the telnet connection opened and how long the timed attempt took; the
      stripped output of `systemctl is-active` (None when the SSH session
      raised); the cpu/ram/disk usage reading; whether the snapshot file can
      be loaded when a failure is escalated before this manager has saved
      one (a file left by an earlier run may or may not be there); and
      whether SSH sessions to TG1 and TG2 can be opened if a failover runs. */
  datatype Observation = Observation(
    pingReplied: bool,
    pingOutput: string,
    telnetConnected: bool,
    telnetElapsed: int,
    serviceStatus: Option<string>,
    usage: int,
    snapshotReadable: bool,
    tg1Reachable: bool,
    tg2Reachable: bool)

  /** `monitor.check()` */
  function CheckResult(k: Kind, obs: Observation): (r: bool)
    ensures IsResource(k) ==> r
    ensures k == Service ==> (r <==> obs.serviceStatus == Some("active"))
  {
    match k
    case Ping => obs.pingReplied
    case Telnet => obs.telnetConnected
    case Service => obs.serviceStatus == Some("active")
    case Cpu => true
    case Ram => true
    case DiskSpace => true
  }

  datatype PingReading = Sentinel | Token(text: string)

  /** The text `ServerPingMonitor.response_time` hands to `float()`: from
      just after the first `time=` up to the next space, or, with no space
      after it, up to but not including the last character (the slice
      `[start:-1]`); `Sentinel` when there is no `time=`. */
  function PingToken(output: string): (r: PingReading)
    ensures r == Sentinel <==> forall j: nat :: !OccursAt(output, "time=", j)
    ensures r.Token? ==> ' ' !in r.text
  {
    var p := Find(output, "time=", 0);
    if p == -1 then Sentinel
    else
      var start := p + 5;
      var end := Find(output, " ", start);
      if end != -1 then
        assert forall i :: start <= i < end ==> !OccursAt(output, " ", i) && output[i..i + 1] == [output[i]];
        Token(output[start..end])
      else
        assert forall i :: start <= i < |output| ==> !OccursAt(output, " ", i) && output[i..i + 1] == [output[i]];
        Token(if start < |output| - 1 then output[start..|output| - 1] else [])
  }

  /** The usual ping line: the number between `time=` and the following space is extracted. */
  lemma PingTokenBeforeSpace(prefix: string, tok: string, rest: string)
    requires forall j: nat :: j < |prefix| ==> !OccursAt(prefix + "time=" + tok + " " + rest, "time=", j)
    requires ' ' !in tok
    ensures PingToken(prefix + "time=" + tok + " " + rest) == Token(tok)
  {
    var s := prefix + "time=" + tok + " " + rest;
    var start := |prefix| + 5;
    assert s[|prefix|..start] == "time=";
    assert OccursAt(s, "time=", |prefix|);
    var p := Find(s, "time=", 0);
    assert p == |prefix|;
    assert s[start + |tok|..start + |tok| + 1] == " ";
    assert OccursAt(s, " ", start + |tok|);
    forall j | start <= j < start + |tok| ensures !OccursAt(s, " ", j) {
      assert s[j] == tok[j - start];
      assert tok[j - start] in tok;
      assert s[j..j + 1][0] == s[j];
    }
    assert Find(s, " ", start) == start + |tok|;
    assert s[start..start + |tok|] == tok;
  }

  /** Without a space after the number, the slice drops the final character. */
  lemma PingTokenAtEnd(prefix: string, tok: string)
    requires forall j: nat :: j < |prefix| ==> !OccursAt(prefix + "time=" + tok, "time=", j)
    requires ' ' !in tok
    ensures PingToken(prefix + "time=" + tok) == Token(if |tok| == 0 then [] else tok[..|tok| - 1])
  {
    var s := prefix + "time=" + tok;
    var start := |prefix| + 5;
    assert s[|prefix|..start] == "time=";
    assert OccursAt(s, "time=", |prefix|);
    assert Find(s, "time=", 0) == |prefix|;
    forall j: nat | start <= j ensures !OccursAt(s, " ", j) {
      if j < |s| {
        assert s[j] == tok[j - start];
        assert tok[j - start] in tok;
        assert s[j..j + 1][0] == s[j];
      }
    }
    assert Find(s, " ", start) == -1;
    if |tok| > 0 {
      assert s[start..|s| - 1] == tok[..|tok| - 1];
    }
  }

  /** `monitor.response_time()`; None when it raises, which happens only
      when `float()` rejects the ping token (`parseFloat` stands for
      `float()` on a token, the float value taken as an integer reading). */
  function ResponseTime(k: Kind, obs: Observation, parseFloat: string -> Option<int>): (r: Option<int>)
    ensures r.None? <==> k == Ping && PingToken(obs.pingOutput).Token? && parseFloat(PingToken(obs.pingOutput).text).None?
    ensures k == Ping && PingToken(obs.pingOutput) == Sentinel ==> r == Some(-1)
    ensures k == Ping && PingToken(obs.pingOutput).Token? ==> r == parseFloat(PingToken(obs.pingOutput).text)
    ensures k == Service ==> r == Some(0)
  {
    match k
    case Ping =>
      (match PingToken(obs.pingOutput)
       case Sentinel => Some(-1)
       case Token(t) => parseFloat(t))
    case Telnet => Some(obs.telnetElapsed)
    case Service => Some(0)
    case Cpu => Some(obs.usage)
    case Ram => Some(obs.usage)
    case DiskSpace => Some(obs.usage)
  }

  // ---------------------------------------------------------------------
  // Classification

  datatype Escalation = NoEscalation | FailureEscalation | WarningEscalation(value: int)

  /** Lines 295-301 of `run_check` for a recognised kind.  A resource check
      whose name has no entry in the limits raises KeyError there, which is
      caught and ends the check with no escalation. */
  function Classify(k: Kind, checkName: string, result: bool, rt: int, cfg: Config): (e: Escalation)
    ensures !IsResource(k) ==> (e == FailureEscalation <==> !result)
    ensures !IsResource(k) ==> (e.WarningEscalation? <==> result && rt >= cfg.responseTimeLimit)
    ensures IsResource(k) ==> e != FailureEscalation
    ensures IsResource(k) ==>
              (e.WarningEscalation? <==> checkName in cfg.resourceLimits && rt >= cfg.resourceLimits[checkName])
    ensures e.WarningEscalation? ==> e.value == rt
  {
    ResourceTestIsMembership(k);
    if !ResourceTest(KindName(k)) then
      if !result then FailureEscalation
      else if rt >= cfg.responseTimeLimit then WarningEscalation(rt)
      else NoEscalation
    else if ResourceTest(KindName(k)) && checkName in cfg.resourceLimits && rt >= cfg.resourceLimits[checkName] then
      WarningEscalation(rt)
    else NoEscalation
  }

  // ---------------------------------------------------------------------
  // Records and the aggregate map

  datatype Status = Success | Failure

  /** One element of a server's list: `check_name`, `result`, `response_time`. */
  datatype Record = Record(checkName: string, result: Status, responseTime: Option<int>)

  /** A value of `aggregate_results`: a server's list, or the timestamp
      stored under `last-check-time` in the same dictionary. */
  datatype Entry = Results(records: seq<Record>) | Stamp(time: string)

  const LastCheckTimeKey: string := "last-check-time"

  /** The records listed for `name` (none when it has no list). */
  function RecordsOf(m: map<string, Entry>, name: string): seq<Record>
  {
    if name in m && m[name].Results? then m[name].records else []
  }

  /** `log_result` on the map: create the list if missing, then append.
      None when the key holds the timestamp string, whose `append` raises. */
  function Append(m: map<string, Entry>, name: string, rec: Record): Option<map<string, Entry>>
  {
    var m' := if name !in m then m[name := Results([])] else m;
    match m'[name]
    case Stamp(_) => None
    case Results(rs) => Some(m'[name := Results(rs + [rec])])
  }

  /** The append fails exactly on the timestamp key; otherwise it adds the
      key if missing, puts `rec` last in its list and leaves every other
      key as it was. */
  lemma AppendSpec(m: map<string, Entry>, name: string, rec: Record)
    ensures var r := Append(m, name, rec);
            && (r.None? <==> name in m && m[name].Stamp?)
            && (r.Some? ==> r.value.Keys == m.Keys + {name} && r.value[name].Results?)
            && (r.Some? ==> RecordsOf(r.value, name) == RecordsOf(m, name) + [rec])
            && (r.Some? ==> forall n :: n in m && n != name ==> r.value[n] == m[n])
  {
  }

  /** What `run_check` decides for one check before touching any state:
      nothing (unknown type, or a probe that raised), or the record to log
      and the escalation to dispatch after it. */
  datatype Plan = Skip | Logged(record: Record, escalation: Escalation)

  function PlanCheck(cfg: Config, parseFloat: string -> Option<int>, check: CheckConfig, obs: Observation): (p: Plan)
    ensures KindOf(check.kind).None? ==> p == Skip
    ensures p.Skip? && KindOf(check.kind).Some? ==>
              check.kind == "ping" && ResponseTime(Ping, obs, parseFloat).None?
    ensures p.Logged? ==> p.record.checkName == check.name && p.record.responseTime.Some?
    ensures p.Logged? ==> (p.record.result == Success <==> CheckResult(KindOf(check.kind).value, obs))
    ensures p.Logged? && IsResource(KindOf(check.kind).value) ==>
              p.record.result == Success && p.escalation != FailureEscalation
    ensures p.Logged? && !IsResource(KindOf(check.kind).value) ==>
              (p.escalation == FailureEscalation <==> p.record.result == Failure)
    ensures p.Skip? <==> KindOf(check.kind).None? || ResponseTime(KindOf(check.kind).value, obs, parseFloat).None?
    ensures p.Logged? ==>
              var k := KindOf(check.kind).value;
              && p.record.responseTime == ResponseTime(k, obs, parseFloat)
              && p.escalation == Classify(k, check.name, CheckResult(k, obs), p.record.responseTime.value, cfg)
  {
    match KindOf(check.kind)
    case None => Skip
    case Some(k) =>
      var result := CheckResult(k, obs);
      match ResponseTime(k, obs, parseFloat)
      case None => Skip
      case Some(rt) =>
        Logged(Record(check.name, if result then Success else Failure, Some(rt)),
               Classify(k, check.name, result, rt, cfg))
  }

  // ---------------------------------------------------------------------
  // Escalation

  /** `handle_failure` / `handle_warning` followed by the chosen strategy's
      `handle`.  A failure needs the snapshot file to load first; a strategy
      called with the wrong number of arguments raises a TypeError and sends
      nothing. */
  function Escalate(cfg: Config, server: string, checkName: string, checkType: string,
                    e: Escalation, obs: Observation): (r: Sent)
    ensures e.WarningEscalation? ==> r == NotifyWarningSent(cfg.chats, server, checkName, e.value)
    ensures e == FailureEscalation && obs.snapshotReadable ==>
              r == if server == "TG1"
                   then MigrationSent(cfg.servers, cfg.chats, server, checkName, obs.tg1Reachable, obs.tg2Reachable)
                   else NotifyFailureSent(cfg.chats, server, checkName)
    ensures e == NoEscalation || (e == FailureEscalation && !obs.snapshotReadable) ==> r == Nothing
  {
    match e
    case NoEscalation => Nothing
    case FailureEscalation =>
      if !obs.snapshotReadable then Nothing
      else
        (match GetStrategy(server, checkType, SnapshotDocument)
         case MoveServicesStrategy =>
           MigrationSent(cfg.servers, cfg.chats, server, checkName, obs.tg1Reachable, obs.tg2Reachable)
         case NotifyFailureStrategy => NotifyFailureSent(cfg.chats, server, checkName)
         case NotifyWarningStrategy => Nothing)
    case WarningEscalation(v) =>
      (match GetStrategy(server, checkName, Tag("warning"))
       case NotifyWarningStrategy => NotifyWarningSent(cfg.chats, server, checkName, v)
       case _ => Nothing)
  }

  /** Once the manager has saved, the snapshot file holds the JSON it
      wrote, so `json.load` in `handle_failure` succeeds. */
  function AfterSave(obs: Observation, saved: bool): Observation
  {
    obs.(snapshotReadable := saved || obs.snapshotReadable)
  }

  /** After a save a failure is always escalated: the snapshot can no
      longer stop it. */
  lemma FailureEscalatesAfterSave(cfg: Config, server: string, checkName: string, checkType: string,
                                  obs: Observation)
    ensures Escalate(cfg, server, checkName, checkType, FailureEscalation, AfterSave(obs, true)) ==
            if server == "TG1"
            then MigrationSent(cfg.servers, cfg.chats, server, checkName, obs.tg1Reachable, obs.tg2Reachable)
            else NotifyFailureSent(cfg.chats, server, checkName)
  {
  }

  // ---------------------------------------------------------------------
  // One check, one round

  /** One thread of a round: `run_check(server, check)`. */
  datatype Task = Task(server: ServerConfig, check: CheckConfig)

  datatype State = State(results: map<string, Entry>, sent: Sent)

  /** What one check does apart from the map: its plan, and what its
      escalation would send.  Neither depends on the aggregate map. */
  datatype Effect = Effect(plan: Plan, escalation: Sent)

  function TaskEffect(cfg: Config, parseFloat: string -> Option<int>, t: Task, obs: Observation): Effect
  {
    var p := PlanCheck(cfg, parseFloat, t.check, obs);
    Effect(p, if p.Logged? then Escalate(cfg, t.server.name, t.check.name, t.check.kind, p.escalation, obs) else Nothing)
  }

  /** The part of `run_check` that touches the map: `log_result`, and the
      escalation only once the record is in.  An append that raises ends
      the check there. */
  function Commit(results: map<string, Entry>, name: string, e: Effect): State
  {
    match e.plan
    case Skip => State(results, Nothing)
    case Logged(rec, _) =>
      match Append(results, name, rec)
      case None => State(results, Nothing)
      case Some(m) => State(m, e.escalation)
  }

  /** The effect of `run_check` on the aggregate map and on the network. */
  function RunCheckEffect(cfg: Config, parseFloat: string -> Option<int>, results: map<string, Entry>,
                          t: Task, obs: Observation): State
  {
    Commit(results, t.server.name, TaskEffect(cfg, parseFloat, t, obs))
  }

  /** A check that logs appends exactly its one record to its server's
      list, leaves every other key alone, and sends something only once that
      record is in; a check that logs nothing changes nothing. */
  lemma LogBeforeEscalation(cfg: Config, parseFloat: string -> Option<int>, results: map<string, Entry>,
                            t: Task, obs: Observation)
    ensures var s := RunCheckEffect(cfg, parseFloat, results, t, obs);
            var p := PlanCheck(cfg, parseFloat, t.check, obs);
            var name := t.server.name;
            && (p.Skip? ==> s == State(results, Nothing))
            && (p.Logged? && (name !in results || results[name].Results?) ==>
                  && RecordsOf(s.results, name) == RecordsOf(results, name) + [p.record]
                  && (forall n :: n in results && n != name ==> n in s.results && s.results[n] == results[n]))
            && (s.sent != Nothing ==>
                  p.Logged? && RecordsOf(s.results, name) == RecordsOf(results, name) + [p.record])
  {
    var p := PlanCheck(cfg, parseFloat, t.check, obs);
    if p.Logged? {
      AppendSpec(results, t.server.name, p.record);
    }
  }

  /** The effect of a check whose type is recognised and whose reading
      succeeded: its record, then the classified escalation. */
  lemma LoggedEffect(cfg: Config, parseFloat: string -> Option<int>, t: Task, obs: Observation, k: Kind, rt: int)
    requires KindOf(t.check.kind) == Some(k) && ResponseTime(k, obs, parseFloat) == Some(rt)
    ensures var result := CheckResult(k, obs);
            var e := Classify(k, t.check.name, result, rt, cfg);
            TaskEffect(cfg, parseFloat, t, obs) ==
            Effect(Logged(Record(t.check.name, if result then Success else Failure, Some(rt)), e),
                   Escalate(cfg, t.server.name, t.check.name, t.check.kind, e, obs))
  {
  }

  /** A server's checks as tasks, in config order. */
  function TasksOf(s: ServerConfig): (r: seq<Task>)
    ensures |r| == |s.checks|
    ensures forall i :: 0 <= i < |r| ==> r[i] == Task(s, s.checks[i])
  {
    seq(|s.checks|, i requires 0 <= i < |s.checks| => Task(s, s.checks[i]))
  }

  /** The tasks of a whole round: each server's checks in order, one
      server after the other, as `start`'s nested loop lists them. */
  function AllTasks(servers: seq<ServerConfig>): seq<Task>
  {
    if |servers| == 0 then []
    else AllTasks(servers[..|servers| - 1]) + TasksOf(servers[|servers| - 1])
  }

  /** How a task's effect follows from its observation. */
  type EffectOf = (Task, Observation) -> Effect

  /** The effect of `run_check` under `cfg` and `float()`. */
  function CheckEffect(cfg: Config, parseFloat: string -> Option<int>): EffectOf
  {
    (t: Task, obs: Observation) => TaskEffect(cfg, parseFloat, t, obs)
  }

  /** The effect of each task on its own observation, `saved` telling
      whether the manager has written the snapshot file yet. */
  function Effects(effect: EffectOf, tasks: seq<Task>, obs: seq<Observation>, saved: bool): (r: seq<Effect>)
    requires |tasks| == |obs|
    ensures |r| == |tasks|
    ensures forall i :: 0 <= i < |r| ==> r[i] == effect(tasks[i], AfterSave(obs[i], saved))
  {
    seq(|tasks|, i requires 0 <= i < |tasks| => effect(tasks[i], AfterSave(obs[i], saved)))
  }

  /** The runs of `tasks` one after the other, each committing its effect
      on the map the previous one left. */
  function RunAll(results: map<string, Entry>, tasks: seq<Task>, effs: seq<Effect>): State
    requires |tasks| == |effs|
  {
    if |tasks| == 0 then State(results, Nothing)
    else
      var n := |tasks| - 1;
      var before := RunAll(results, tasks[..n], effs[..n]);
      var after := Commit(before.results, tasks[n].server.name, effs[n]);
      State(after.results, Then(before.sent, after.sent))
  }

  lemma RunAllSnoc(results: map<string, Entry>, tasks: seq<Task>, effs: seq<Effect>, t: Task, e: Effect)
    requires |tasks| == |effs|
    ensures var before := RunAll(results, tasks, effs);
            var after := Commit(before.results, t.server.name, e);
            RunAll(results, tasks + [t], effs + [e]) == State(after.results, Then(before.sent, after.sent))
  {
    assert (tasks + [t])[..|tasks|] == tasks;
    assert (effs + [e])[..|effs|] == effs;
  }

  /** The records a run of `tasks` logs for server `name`, in order. */
  function PlannedRecords(name: string, tasks: seq<Task>, effs: seq<Effect>): seq<Record>
    requires |tasks| == |effs|
  {
    if |tasks| == 0 then []
    else
      var n := |tasks| - 1;
      PlannedRecords(name, tasks[..n], effs[..n]) +
      (if tasks[n].server.name == name && effs[n].plan.Logged? then [effs[n].plan.record] else [])
  }

  /** Number of tasks that belong to server `name`. */
  function TaskCount(name: string, tasks: seq<Task>): nat
  {
    if |tasks| == 0 then 0
    else TaskCount(name, tasks[..|tasks| - 1]) + (if tasks[|tasks| - 1].server.name == name then 1 else 0)
  }

  /** A run appends to server `name`'s list exactly the records planned
      for its checks, in task order, and keeps every record it had. */
  lemma {:induction false} RunAllRecords(results: map<string, Entry>, tasks: seq<Task>, effs: seq<Effect>,
                                         name: string)
    requires |tasks| == |effs|
    requires name !in results || results[name].Results?
    ensures var s := RunAll(results, tasks, effs);
            && (name !in s.results || s.results[name].Results?)
            && RecordsOf(s.results, name) == RecordsOf(results, name) + PlannedRecords(name, tasks, effs)
  {
    if |tasks| > 0 {
      var n := |tasks| - 1;
      RunAllRecords(results, tasks[..n], effs[..n], name);
      var before := RunAll(results, tasks[..n], effs[..n]).results;
      var mine := tasks[n].server.name == name && effs[n].plan.Logged?;
      if effs[n].plan.Logged? {
        AppendSpec(before, tasks[n].server.name, effs[n].plan.record);
      }
      ConcatAssoc(RecordsOf(results, name), PlannedRecords(name, tasks[..n], effs[..n]),
              if mine then [effs[n].plan.record] else []);
    }
  }

  /** When every check of server `name` logs a record, the run logs
      exactly one record per such check. */
  lemma {:induction false} PlannedRecordsOnePerCheck(name: string, tasks: seq<Task>, effs: seq<Effect>)
    requires |tasks| == |effs|
    requires forall i :: 0 <= i < |tasks| && tasks[i].server.name == name ==> effs[i].plan.Logged?
    ensures |PlannedRecords(name, tasks, effs)| == TaskCount(name, tasks)
  {
    if |tasks| > 0 {
      var n := |tasks| - 1;
      PlannedRecordsOnePerCheck(name, tasks[..n], effs[..n]);
    }
  }

  /** Checks of other servers never add to server `name`'s list. */
  lemma {:induction false} PlannedRecordsOtherServers(name: string, tasks: seq<Task>, effs: seq<Effect>)
    requires |tasks| == |effs|
    requires forall i :: 0 <= i < |tasks| ==> tasks[i].server.name != name
    ensures PlannedRecords(name, tasks, effs) == []
  {
    if |tasks| > 0 {
      var n := |tasks| - 1;
      PlannedRecordsOtherServers(name, tasks[..n], effs[..n]);
    }
  }

  /** One observation per check of each server, servers in config order. */
  predicate Fits(servers: seq<ServerConfig>, obs: seq<seq<Observation>>)
  {
    |obs| == |servers| && forall i :: 0 <= i < |servers| ==> |obs[i]| == |servers[i].checks|
  }

  /** The tasks of `start`'s nested loop: each server's checks in order,
      one server after the other. */
  function RunServers(effect: EffectOf, results: map<string, Entry>, servers: seq<ServerConfig>,
                      obs: seq<seq<Observation>>, saved: bool): State
    requires Fits(servers, obs)
  {
    if |servers| == 0 then State(results, Nothing)
    else
      var n := |servers| - 1;
      var before := RunServers(effect, results, servers[..n], obs[..n], saved);
      var after := RunAll(before.results, TasksOf(servers[n]), Effects(effect, TasksOf(servers[n]), obs[n], saved));
      State(after.results, Then(before.sent, after.sent))
  }

  lemma RunServersSnoc(effect: EffectOf, results: map<string, Entry>, servers: seq<ServerConfig>,
                       obs: seq<seq<Observation>>, saved: bool, i: nat)
    requires Fits(servers, obs) && i < |servers|
    ensures var before := RunServers(effect, results, servers[..i], obs[..i], saved);
            var after := RunAll(before.results, TasksOf(servers[i]), Effects(effect, TasksOf(servers[i]), obs[i], saved));
            RunServers(effect, results, servers[..i + 1], obs[..i + 1], saved) == State(after.results, Then(before.sent, after.sent))
  {
    assert servers[..i + 1][..i] == servers[..i];
    assert obs[..i + 1][..i] == obs[..i];
  }

  /** The records a round logs for server `name`, in order. */
  function RoundRecords(effect: EffectOf, name: string, servers: seq<ServerConfig>, obs: seq<seq<Observation>>,
                        saved: bool): seq<Record>
    requires Fits(servers, obs)
  {
    if |servers| == 0 then []
    else
      var n := |servers| - 1;
      RoundRecords(effect, name, servers[..n], obs[..n], saved) +
      PlannedRecords(name, TasksOf(servers[n]), Effects(effect, TasksOf(servers[n]), obs[n], saved))
  }

  lemma {:induction false} RunServersRecords(effect: EffectOf, results: map<string, Entry>,
                                             servers: seq<ServerConfig>, obs: seq<seq<Observation>>, saved: bool,
                                             name: string)
    requires Fits(servers, obs)
    requires name !in results || results[name].Results?
    ensures var s := RunServers(effect, results, servers, obs, saved);
            && (name !in s.results || s.results[name].Results?)
            && RecordsOf(s.results, name) == RecordsOf(results, name) + RoundRecords(effect, name, servers, obs, saved)
  {
    if |servers| > 0 {
      var n := |servers| - 1;
      RunServersRecords(effect, results, servers[..n], obs[..n], saved, name);
      var before := RunServers(effect, results, servers[..n], obs[..n], saved);
      var effs := Effects(effect, TasksOf(servers[n]), obs[n], saved);
      var planned := PlannedRecords(name, TasksOf(servers[n]), effs);
      RunAllRecords(before.results, TasksOf(servers[n]), effs, name);
      ConcatAssoc(RecordsOf(results, name), RoundRecords(effect, name, servers[..n], obs[..n], saved), planned);
    }
  }

  /** `start`'s loop body: every server's checks, then `save_aggregate_results`. */
  function RoundEffect(effect: EffectOf, servers: seq<ServerConfig>, results: map<string, Entry>,
                       obs: seq<seq<Observation>>, now: string, saved: bool): State
    requires Fits(servers, obs)
  {
    var s := RunServers(effect, results, servers, obs, saved);
    State(s.results[LastCheckTimeKey := Stamp(now)], s.sent)
  }

  /** A round stamps `last-check-time` and does not reset the lists: each
      server keeps what it had and gains this round's records. */
  lemma RoundKeepsHistory(effect: EffectOf, servers: seq<ServerConfig>, results: map<string, Entry>,
                          obs: seq<seq<Observation>>, now: string, saved: bool, name: string)
    requires Fits(servers, obs)
    requires name != LastCheckTimeKey
    requires name !in results || results[name].Results?
    ensures var r := RoundEffect(effect, servers, results, obs, now, saved).results;
            && r[LastCheckTimeKey] == Stamp(now)
            && (name !in r || r[name].Results?)
            && RecordsOf(r, name) == RecordsOf(results, name) + RoundRecords(effect, name, servers, obs, saved)
  {
    RunServersRecords(effect, results, servers, obs, saved, name);
  }

  /** Several rounds in a row; every round after the first runs with the
      snapshot saved by the one before. */
  function Rounds(effect: EffectOf, servers: seq<ServerConfig>, results: map<string, Entry>,
                  rounds: seq<seq<seq<Observation>>>, times: seq<string>, saved: bool): State
    requires |rounds| == |times|
    requires forall i :: 0 <= i < |rounds| ==> Fits(servers, rounds[i])
  {
    if |rounds| == 0 then State(results, Nothing)
    else
      var n := |rounds| - 1;
      var before := Rounds(effect, servers, results, rounds[..n], times[..n], saved);
      var step := RoundEffect(effect, servers, before.results, rounds[n], times[n], saved || n > 0);
      State(step.results, Then(before.sent, step.sent))
  }

  lemma RoundsSnoc(effect: EffectOf, servers: seq<ServerConfig>, results: map<string, Entry>,
                   rounds: seq<seq<seq<Observation>>>, times: seq<string>, saved: bool, r: nat)
    requires |rounds| == |times| && r < |rounds|
    requires forall i :: 0 <= i < |rounds| ==> Fits(servers, rounds[i])
    ensures var before := Rounds(effect, servers, results, rounds[..r], times[..r], saved);
            var after := RoundEffect(effect, servers, before.results, rounds[r], times[r], saved || r > 0);
            Rounds(effect, servers, results, rounds[..r + 1], times[..r + 1], saved) == State(after.results, Then(before.sent, after.sent))
  {
    assert rounds[..r + 1][..r] == rounds[..r];
    assert times[..r + 1][..r] == times[..r];
  }

  /** Across any number of rounds a server's earlier records are never lost. */
  lemma {:induction false} RoundsKeepHistory(effect: EffectOf, servers: seq<ServerConfig>, results: map<string, Entry>,
                                             rounds: seq<seq<seq<Observation>>>, times: seq<string>, saved: bool,
                                             name: string)
    requires |rounds| == |times|
    requires forall i :: 0 <= i < |rounds| ==> Fits(servers, rounds[i])
    requires name != LastCheckTimeKey
    requires name !in results || results[name].Results?
    ensures var r := Rounds(effect, servers, results, rounds, times, saved).results;
            && (name !in r || r[name].Results?)
            && RecordsOf(results, name) <= RecordsOf(r, name)
  {
    if |rounds| > 0 {
      var n := |rounds| - 1;
      RoundsKeepHistory(effect, servers, results, rounds[..n], times[..n], saved, name);
      var before := Rounds(effect, servers, results, rounds[..n], times[..n], saved).results;
      RoundKeepsHistory(effect, servers, before, rounds[n], times[n], saved || n > 0, name);
    }
  }

  /** How `start` as written ends. */
  datatype StartOutcome = NameErrorRaised | RoundsRun(state: State)

  /** `start` as written: the thread constructor on main.py:377 is spelled
      with a Cyrillic letter inside it, an undefined name, so the first
      (server, check) pair raises NameError before any check runs and the
      error leaves `start`.  A fleet without checks never reaches it. */
  function StartAsWritten(effect: EffectOf, servers: seq<ServerConfig>, results: map<string, Entry>,
                          rounds: seq<seq<seq<Observation>>>, times: seq<string>, saved: bool): (o: StartOutcome)
    requires |rounds| == |times|
    requires forall i :: 0 <= i < |rounds| ==> Fits(servers, rounds[i])
    ensures o == NameErrorRaised <==> |rounds| > 0 && exists i :: 0 <= i < |servers| && |servers[i].checks| > 0
    ensures o.RoundsRun? ==> o.state == Rounds(effect, servers, results, rounds, times, saved)
  {
    if |rounds| > 0 && exists i :: 0 <= i < |servers| && |servers[i].checks| > 0 then NameErrorRaised
    else RoundsRun(Rounds(effect, servers, results, rounds, times, saved))
  }

  /** One server with one telnet check that connects in one unit: as
      written the monitor stops with NameError and records nothing, while
      the intended round records the check's success. */
  lemma ThreadNameError(parseFloat: string -> Option<int>)
    ensures var check := CheckConfig("api", "telnet", 80, "");
            var web := ServerConfig("web", "10.0.0.2", "root", "secret", [check]);
            var cfg := Config([web], [7], 5, map[]);
            var obs := Observation(false, "", true, 1, None, 0, true, true, true);
            && StartAsWritten(CheckEffect(cfg, parseFloat), [web], map[], [[[obs]]], ["12:00"], false) == NameErrorRaised
            && RecordsOf(Rounds(CheckEffect(cfg, parseFloat), [web], map[], [[[obs]]], ["12:00"], false).results, "web")
               == [Record("api", Success, Some(1))]
  {
    var check := CheckConfig("api", "telnet", 80, "");
    var web := ServerConfig("web", "10.0.0.2", "root", "secret", [check]);
    var cfg := Config([web], [7], 5, map[]);
    var obs := Observation(false, "", true, 1, None, 0, true, true, true);
    var effect := CheckEffect(cfg, parseFloat);
    assert [[[obs]]][..0] == [];
    assert ["12:00"][..0] == [];
    var effs := Effects(effect, TasksOf(web), [obs], false);
    assert AfterSave(obs, false) == obs;
    assert effs[0] == TaskEffect(cfg, parseFloat, Task(web, check), obs);
    assert KindOf("telnet") == Some(Telnet);
    var p := PlanCheck(cfg, parseFloat, check, obs);
    assert p.Logged? && p.record == Record("api", Success, Some(1));
    assert TasksOf(web)[0].server.name == "web";
    assert TasksOf(web)[..0] == [] && effs[..0] == [];
    assert PlannedRecords("web", TasksOf(web), effs) == [p.record];
    assert [web][..0] == [] && [[obs]][..0] == [];
    assert RoundRecords(effect, "web", [web], [[obs]], false) == [p.record];
    RoundKeepsHistory(effect, [web], map[], [[obs]], "12:00", false, "web");
    assert Rounds(effect, [web], map[], [[[obs]]], ["12:00"], false).results
        == RoundEffect(effect, [web], map[], [[obs]], "12:00", false).results;
  }

  /** A prefix one longer is the prefix and the next element. */
  lemma PrefixSnoc<T>(s: seq<T>, j: nat)
    requires j < |s|
    ensures s[..j + 1] == s[..j] + [s[j]]
  {
  }

  /** The prefix of full length is the whole sequence. */
  lemma PrefixAll<T>(s: seq<T>)
    ensures s[..|s|] == s
  {
  }

  /** Concatenation is associative; the loops below use it to fold one
      more step into what they have accumulated. */
  lemma ConcatAssoc<T>(before: seq<T>, a: seq<T>, b: seq<T>)
    ensures before + a + b == before + (a + b)
  {
  }

  // ---------------------------------------------------------------------
  // The manager

  /** `CheckManager`: the aggregate map and the round's thread list.  The
      configuration and `float()` are fixed at construction.  `saved`
      records whether this manager has written the snapshot file. */
  class CheckManager {
    const cfg: Config
    const parseFloat: string -> Option<int>
    var results: map<string, Entry>
    var threads: seq<Task>
    var saved: bool
    /** The effect of one check under this configuration. */
    ghost const effect: EffectOf

    /** `effect` is `run_check`'s.  The trigger keeps the definition of a
        check out of proofs that only pass effects along. */
    ghost predicate Valid()
    {
      forall t: Task, o: Observation {:trigger TaskEffect(cfg, parseFloat, t, o)} ::
        effect(t, o) == TaskEffect(cfg, parseFloat, t, o)
    }

    constructor (cfg: Config, parseFloat: string -> Option<int>)
      ensures this.cfg == cfg && this.parseFloat == parseFloat
      ensures effect == CheckEffect(cfg, parseFloat) && Valid()
      ensures results == map[] && threads == [] && !saved
    {
      this.cfg := cfg;
      this.parseFloat := parseFloat;
      effect := CheckEffect(cfg, parseFloat);
      results := map[];
      threads := [];
      saved := false;
    }

    /** `log_result`; `ok` is false when the append raised. */
    method LogResult(serverName: string, checkName: string, result: bool, responseTime: Option<int>)
      returns (ok: bool)
      modifies this`results
      ensures var rec := Record(checkName, if result then Success else Failure, responseTime);
              && ok == Append(old(results), serverName, rec).Some?
              && results == if ok then Append(old(results), serverName, rec).value else old(results)
    {
      var before := results;
      if serverName !in results {
        results := results[serverName := Results([])];
      }
      match results[serverName]
      case Stamp(_) =>
        results := before;
        ok := false;
      case Results(rs) =>
        results := results[serverName := Results(rs + [Record(checkName, if result then Success else Failure, responseTime)])];
        ok := true;
    }

    /** `save_aggregate_results`: the stamp, and the snapshot file now
        exists with the map's contents. */
    method SaveAggregateResults(now: string)
      modifies this`results, this`saved
      ensures results == old(results)[LastCheckTimeKey := Stamp(now)]
      ensures saved
    {
      results := results[LastCheckTimeKey := Stamp(now)];
      saved := true;
    }

    /** `handle_failure` and the strategy it selects.  The snapshot loads
        when this manager has saved one, or when the observation says a
        file from before is readable. */
    method HandleFailure(net: Network, serverName: string, checkName: string, checkType: string, obs: Observation)
      modifies net
      ensures var e := Escalate(cfg, serverName, checkName, checkType, FailureEscalation, AfterSave(obs, saved));
              net.commands == old(net.commands) + e.commands && net.posts == old(net.posts) + e.posts
    {
      if !saved && !obs.snapshotReadable {
        return;
      }
      var strategy := GetStrategy(serverName, checkType, SnapshotDocument);
      match strategy
      case MoveServicesStrategy =>
        HandleMoveServices(net, cfg.servers, cfg.chats, serverName, checkName, obs.tg1Reachable, obs.tg2Reachable);
      case NotifyFailureStrategy =>
        HandleNotifyFailure(net, cfg.chats, serverName, checkName);
      case NotifyWarningStrategy =>
    }

    /** `handle_warning` and the strategy it selects. */
    method HandleWarning(net: Network, serverName: string, checkName: string, checkType: string, value: int,
                         obs: Observation)
      modifies net
      ensures net.commands == old(net.commands) + Escalate(cfg, serverName, checkName, checkType, WarningEscalation(value), obs).commands
      ensures net.posts == old(net.posts) + Escalate(cfg, serverName, checkName, checkType, WarningEscalation(value), obs).posts
    {
      var strategy := GetStrategy(serverName, checkName, Tag("warning"));
      match strategy
      case NotifyWarningStrategy =>
        HandleNotifyWarning(net, cfg.chats, serverName, checkName, value);
      case _ =>
    }

    /** The escalation branch of `run_check`, once the record is logged:
        the substring test on the type, then failure or threshold warning. */
    method DispatchEscalation(net: Network, server: ServerConfig, check: CheckConfig, k: Kind,
                              result: bool, rt: int, obs: Observation)
      requires KindOf(check.kind) == Some(k)
      modifies net
      ensures var e := Escalate(cfg, server.name, check.name, check.kind, Classify(k, check.name, result, rt, cfg),
                                AfterSave(obs, saved));
              net.commands == old(net.commands) + e.commands && net.posts == old(net.posts) + e.posts
    {
      ResourceTestIsMembership(k);
      assert KindName(k) == check.kind;
      if !ResourceTest(check.kind) {
        if !result {
          HandleFailure(net, server.name, check.name, check.kind, obs);
        } else if rt >= cfg.responseTimeLimit {
          HandleWarning(net, server.name, check.name, check.kind, rt, AfterSave(obs, saved));
        }
      } else if ResourceTest(check.kind) && check.name in cfg.resourceLimits && rt >= cfg.resourceLimits[check.name] {
        HandleWarning(net, server.name, check.name, check.kind, rt, AfterSave(obs, saved));
      }
    }

    /** `run_check(server, check)` */
    method RunCheck(net: Network, server: ServerConfig, check: CheckConfig, obs: Observation)
      requires Valid()
      modifies this`results, net
      ensures var s := Commit(old(results), server.name, effect(Task(server, check), AfterSave(obs, saved)));
              && results == s.results
              && net.commands == old(net.commands) + s.sent.commands
              && net.posts == old(net.posts) + s.sent.posts
    {
      // the probes answer as `obs` says; only the snapshot depends on `saved`
      var seen := AfterSave(obs, saved);
      assert effect(Task(server, check), seen) == TaskEffect(cfg, parseFloat, Task(server, check), seen);
      var kind := KindOf(check.kind);
      if kind.None? {
        return;
      }
      var k := kind.value;
      var result := CheckResult(k, seen);
      var responseTime := ResponseTime(k, seen, parseFloat);
      if responseTime.None? {
        return;
      }
      var rt := responseTime.value;
      LoggedEffect(cfg, parseFloat, Task(server, check), seen, k, rt);
      var ok := LogResult(server.name, check.name, result, Some(rt));
      if !ok {
        return;
      }
      DispatchEscalation(net, server, check, k, result, rt, obs);
    }

    /** The inner loop of `start` for one server: a task per check, in
        order, each run as soon as it is added to the thread list.
        `obs` holds one observation per check. */
    method RunServerChecks(net: Network, server: ServerConfig, obs: seq<Observation>)
      requires Valid()
      requires |obs| == |server.checks|
      modifies this`results, this`threads, net
      ensures threads == old(threads) + TasksOf(server)
      ensures var s := RunAll(old(results), TasksOf(server), Effects(effect, TasksOf(server), obs, saved));
              && results == s.results
              && net.commands == old(net.commands) + s.sent.commands
              && net.posts == old(net.posts) + s.sent.posts
    {
      ghost var r0, c0, p0 := results, net.commands, net.posts;
      ghost var tasks := TasksOf(server);
      ghost var effs := Effects(effect, tasks, obs, saved);
      var j := 0;
      while j < |server.checks|
        invariant 0 <= j <= |server.checks|
        invariant threads == old(threads) + tasks[..j]
        invariant var s := RunAll(r0, tasks[..j], effs[..j]);
                  results == s.results && net.commands == c0 + s.sent.commands && net.posts == p0 + s.sent.posts
      {
        var t := Task(server, server.checks[j]);
        threads := threads + [t];
        ghost var before := RunAll(r0, tasks[..j], effs[..j]);
        assert effs[j] == effect(t, AfterSave(obs[j], saved));
        RunCheck(net, server, server.checks[j], obs[j]);
        ghost var after := Commit(before.results, server.name, effs[j]);
        ConcatAssoc(c0, before.sent.commands, after.sent.commands);
        ConcatAssoc(p0, before.sent.posts, after.sent.posts);
        RunAllSnoc(r0, tasks[..j], effs[..j], t, effs[j]);
        PrefixSnoc(tasks, j);
        PrefixSnoc(effs, j);
        j := j + 1;
      }
      PrefixAll(tasks);
      PrefixAll(effs);
    }

    /** The nested `for` of `start`: for each server in config order, a
        task per check (`RunServerChecks`).  `obs` holds one observation per
        check of each server. */
    method RunAllServers(net: Network, obs: seq<seq<Observation>>)
      requires Valid()
      requires Fits(cfg.servers, obs)
      modifies this`results, this`threads, net
      ensures threads == old(threads) + AllTasks(cfg.servers)
      ensures var s := RunServers(effect, old(results), cfg.servers, obs, saved);
              && results == s.results
              && net.commands == old(net.commands) + s.sent.commands
              && net.posts == old(net.posts) + s.sent.posts
    {
      ghost var r0, c0, p0, t0 := results, net.commands, net.posts, threads;
      var servers := cfg.servers;
      var i := 0;
      while i < |servers|
        invariant 0 <= i <= |servers|
        invariant threads == t0 + AllTasks(servers[..i])
        invariant var s := RunServers(effect, r0, servers[..i], obs[..i], saved);
                  results == s.results && net.commands == c0 + s.sent.commands && net.posts == p0 + s.sent.posts
      {
        ghost var before := RunServers(effect, r0, servers[..i], obs[..i], saved);
        RunServerChecks(net, servers[i], obs[i]);
        ghost var after := RunAll(before.results, TasksOf(servers[i]), Effects(effect, TasksOf(servers[i]), obs[i], saved));
        RunServersSnoc(effect, r0, servers, obs, saved, i);
        ConcatAssoc(c0, before.sent.commands, after.sent.commands);
        ConcatAssoc(p0, before.sent.posts, after.sent.posts);
        assert servers[..i + 1][..i] == servers[..i];
        ConcatAssoc(t0, AllTasks(servers[..i]), TasksOf(servers[i]));
        i := i + 1;
      }
      PrefixAll(servers);
      PrefixAll(obs);
    }

    /** One pass of `start`'s loop: every server's checks, then the save,
        then the thread list is cleared. */
    method Round(net: Network, obs: seq<seq<Observation>>, now: string)
      requires Valid()
      requires Fits(cfg.servers, obs)
      modifies this`results, this`threads, this`saved, net
      ensures var s := RoundEffect(effect, cfg.servers, old(results), obs, now, old(saved));
              && results == s.results
              && net.commands == old(net.commands) + s.sent.commands
              && net.posts == old(net.posts) + s.sent.posts
      ensures threads == [] && saved
    {
      RunAllServers(net, obs);
      SaveAggregateResults(now);
      threads := [];
    }

    /** `start`, for as many rounds as observations are given (the sleep
        between rounds is not modelled). */
    method Start(net: Network, rounds: seq<seq<seq<Observation>>>, times: seq<string>)
      requires Valid()
      requires |rounds| == |times|
      requires forall i :: 0 <= i < |rounds| ==> Fits(cfg.servers, rounds[i])
      modifies this`results, this`threads, this`saved, net
      ensures var s := Rounds(effect, cfg.servers, old(results), rounds, times, old(saved));
              && results == s.results
              && net.commands == old(net.commands) + s.sent.commands
              && net.posts == old(net.posts) + s.sent.posts
      ensures |rounds| > 0 ==> threads == []
      ensures |rounds| == 0 ==> threads == old(threads)
      ensures saved == (old(saved) || |rounds| > 0)
    {
      ghost var r0, c0, p0, s0 := results, net.commands, net.posts, saved;
      var r := 0;
      while r < |rounds|
        invariant 0 <= r <= |rounds|
        invariant saved == (s0 || r > 0)
        invariant var s := Rounds(effect, cfg.servers, r0, rounds[..r], times[..r], s0);
                  results == s.results && net.commands == c0 + s.sent.commands && net.posts == p0 + s.sent.posts
        invariant r > 0 ==> threads == []
        invariant r == 0 ==> threads == old(threads)
      {
        ghost var before := Rounds(effect, cfg.servers, r0, rounds[..r], times[..r], s0);
        Round(net, rounds[r], times[r]);
        ghost var after := RoundEffect(effect, cfg.servers, before.results, rounds[r], times[r], s0 || r > 0);
        RoundsSnoc(effect, cfg.servers, r0, rounds, times, s0, r);
        ConcatAssoc(c0, before.sent.commands, after.sent.commands);
        ConcatAssoc(p0, before.sent.posts, after.sent.posts);
        r := r + 1;
      }
      PrefixAll(rounds);
      PrefixAll(times);
    }
  }
}
