/** Escalation dispatch and the three response strategies of handlers.py:
    plain failure and warning notifications, and the failover that stops the
    service checks' services on TG1 and starts a fixed list of services on TG2.

    Everything the strategies do outside the process is recorded in a
    `Network` object: each HTTP post to the alert relay is appended to
    `posts`, each `systemctl` command sent over SSH to `commands`.  Whether
    an SSH session can be opened is an input. */
module Handlers {
  import opened Config
  import opened Text

  /** The three strategy objects `StrategyFactory` holds. */
  datatype Strategy = NotifyFailureStrategy | NotifyWarningStrategy | MoveServicesStrategy

  /** The third argument of `get_strategy`: a string (`handle_warning`
      passes 'warning') or the JSON document `handle_failure` loads from the
      snapshot file, which the monitor always writes as an object. */
  datatype OtherChecks = Tag(text: string) | SnapshotDocument

  /** `StrategyFactory.get_strategy`.  `checkType` is never consulted. */
  function GetStrategy(serverName: string, checkType: string, other: OtherChecks): (s: Strategy)
    ensures s == NotifyWarningStrategy <==> other == Tag("warning")
    ensures s == MoveServicesStrategy <==> other != Tag("warning") && serverName == "TG1"
    ensures s == NotifyFailureStrategy <==> other != Tag("warning") && serverName != "TG1"
  {
    if other == Tag("warning") then NotifyWarningStrategy
    else if serverName == "TG1" then MoveServicesStrategy
    else NotifyFailureStrategy
  }

  /** On the failure path the document is passed where the severity tag
      belongs, so the warning strategy is never selected there and the
      choice depends on the server name alone. */
  lemma FailurePathIgnoresSeverity(serverName: string, checkType: string, otherType: string)
    ensures GetStrategy(serverName, checkType, SnapshotDocument) != NotifyWarningStrategy
    ensures GetStrategy(serverName, checkType, SnapshotDocument) ==
            GetStrategy(serverName, otherType, SnapshotDocument)
    ensures GetStrategy(serverName, checkType, SnapshotDocument) ==
            GetStrategy(serverName, "", Tag("failure"))
  {
  }

  // ---------------------------------------------------------------------
  // Alert texts

  const AlarmHeader: string := "❗❗❗ТРИВОГА\n\n"
  const WarningHeader: string := "⚠️УВАГА\n\n"

  /** The text `NotifyFailureStrategy` posts. */
  function FailureText(server: string, check: string): string
  {
    AlarmHeader + server + ": " + check + " НЕ ВІДПОВІДАЄ"
  }

  /** The text `NotifyWarningStrategy` posts; the value is rendered in decimal. */
  function WarningText(server: string, check: string, value: int): string
  {
    WarningHeader + server + ": " + check + " = " + Render(value)
  }

  /** A failure alert and a warning alert can always be told apart by their first character. */
  lemma AlertKindsDiffer(s1: string, c1: string, s2: string, c2: string, v: int)
    ensures FailureText(s1, c1)[0] == '❗' && WarningText(s2, c2, v)[0] == '⚠'
    ensures FailureText(s1, c1) != WarningText(s2, c2, v)
  {
    assert FailureText(s1, c1)[0] == AlarmHeader[0];
    assert WarningText(s2, c2, v)[0] == WarningHeader[0];
  }

  // ---------------------------------------------------------------------
  // Fan-out to the chats

  datatype Post = Post(chatId: ChatId, message: string)

  /** One post per chat id, in `chats` order, all carrying `message`. */
  function Broadcast(chats: seq<ChatId>, message: string): (r: seq<Post>)
    ensures |r| == |chats|
    ensures forall i :: 0 <= i < |chats| ==> r[i] == Post(chats[i], message)
  {
    if |chats| == 0 then [] else [Post(chats[0], message)] + Broadcast(chats[1..], message)
  }

  lemma {:induction false} BroadcastSnoc(chats: seq<ChatId>, id: ChatId, message: string)
    ensures Broadcast(chats + [id], message) == Broadcast(chats, message) + [Post(id, message)]
  {
    var l := Broadcast(chats + [id], message);
    var r := Broadcast(chats, message) + [Post(id, message)];
    assert |l| == |r|;
    forall i | 0 <= i < |l| ensures l[i] == r[i] {
      assert (chats + [id])[i] == if i < |chats| then chats[i] else id;
    }
  }

  // ---------------------------------------------------------------------
  // Remote commands

  datatype Action = Stop | Start

  function ActionName(a: Action): string
  {
    match a
    case Stop => "stop"
    case Start => "start"
  }

  /** `systemctl {action} {service_name}` */
  function CommandLine(a: Action, service: string): string
  {
    "systemctl " + ActionName(a) + " " + service
  }

  /** A command line names its action and its service unambiguously. */
  lemma CommandLineInjective(a1: Action, s1: string, a2: Action, s2: string)
    requires CommandLine(a1, s1) == CommandLine(a2, s2)
    ensures a1 == a2 && s1 == s2
  {
    var l := CommandLine(a1, s1);
    assert l[12] == ActionName(a1)[2];
    assert l[12] == ActionName(a2)[2];
    var n := 11 + |ActionName(a1)|;
    assert s1 == l[n..];
    assert s2 == CommandLine(a2, s2)[n..];
  }

  datatype RemoteCommand = RemoteCommand(host: string, line: string)

  /** One command per service, in list order, all on `host`. */
  function Commands(host: string, a: Action, services: seq<string>): (r: seq<RemoteCommand>)
    ensures |r| == |services|
    ensures forall i :: 0 <= i < |services| ==> r[i] == RemoteCommand(host, CommandLine(a, services[i]))
  {
    if |services| == 0 then []
    else [RemoteCommand(host, CommandLine(a, services[0]))] + Commands(host, a, services[1..])
  }

  lemma {:induction false} CommandsSnoc(host: string, a: Action, services: seq<string>, s: string)
    ensures Commands(host, a, services + [s]) == Commands(host, a, services) + [RemoteCommand(host, CommandLine(a, s))]
  {
    var l := Commands(host, a, services + [s]);
    var r := Commands(host, a, services) + [RemoteCommand(host, CommandLine(a, s))];
    assert |l| == |r|;
    forall i | 0 <= i < |l| ensures l[i] == r[i] {
      assert (services + [s])[i] == if i < |services| then services[i] else s;
    }
  }

  /** The services named by the `service`-type checks, in check order. */
  function ServiceNames(checks: seq<CheckConfig>): seq<string>
  {
    if |checks| == 0 then []
    else (if checks[0].kind == "service" then [checks[0].service] else []) + ServiceNames(checks[1..])
  }

  /** Number of `service`-type checks. */
  function ServiceCheckCount(checks: seq<CheckConfig>): nat
  {
    if |checks| == 0 then 0
    else (if checks[0].kind == "service" then 1 else 0) + ServiceCheckCount(checks[1..])
  }

  lemma {:induction false} ServiceNamesAppend(a: seq<CheckConfig>, b: seq<CheckConfig>)
    ensures ServiceNames(a + b) == ServiceNames(a) + ServiceNames(b)
  {
    if |a| == 0 {
      assert a + b == b;
    } else {
      assert (a + b)[0] == a[0];
      assert (a + b)[1..] == a[1..] + b;
      ServiceNamesAppend(a[1..], b);
      var head := if a[0].kind == "service" then [a[0].service] else [];
      assert ServiceNames(a + b) == head + (ServiceNames(a[1..]) + ServiceNames(b));
      assert head + (ServiceNames(a[1..]) + ServiceNames(b)) == head + ServiceNames(a[1..]) + ServiceNames(b);
    }
  }

  /** Exactly one name per service check, and every name comes from one. */
  lemma {:induction false} ServiceNamesExact(checks: seq<CheckConfig>)
    ensures |ServiceNames(checks)| == ServiceCheckCount(checks)
    ensures forall n :: n in ServiceNames(checks) <==>
              exists i :: 0 <= i < |checks| && checks[i].kind == "service" && checks[i].service == n
  {
    if |checks| > 0 {
      ServiceNamesExact(checks[1..]);
      forall n ensures n in ServiceNames(checks) <==>
                 exists i :: 0 <= i < |checks| && checks[i].kind == "service" && checks[i].service == n
      {
        if n in ServiceNames(checks[1..]) {
          var i :| 0 <= i < |checks[1..]| && checks[1..][i].kind == "service" && checks[1..][i].service == n;
          assert checks[i + 1] == checks[1..][i];
        }
        if exists i :: 0 <= i < |checks| && checks[i].kind == "service" && checks[i].service == n {
          var i :| 0 <= i < |checks| && checks[i].kind == "service" && checks[i].service == n;
          if i > 0 {
            assert checks[1..][i - 1] == checks[i];
          }
        }
      }
    }
  }

  /** The services `MoveServicesStrategy.handle` starts on TG2. */
  const FailoverServices: seq<string> := ["adp-client-bot.service", "adp-shop-bot.service"]

  /** What `disable_services` sends: one `stop` per service check, in check order. */
  function StopCommands(server: ServerConfig): seq<RemoteCommand>
  {
    Commands(server.host, Stop, ServiceNames(server.checks))
  }

  // ---------------------------------------------------------------------
  // The failover message

  function MigrationHeader(server: string, check: string): string
  {
    AlarmHeader + server + " --- " + check + " НЕ ВІДПОВІДАЄ\n\n"
  }

  function Tg1Line(disabled: bool): string
  {
    if disabled then "Служби відключені на TG1\n" else "Не вдалося під'єднатися до TG1\n"
  }

  function Tg2Line(enabled: bool): string
  {
    if enabled then "Служби включені на TG2\n" else "Не вдалося під'єднатися до TG2\n"
  }

  /** The composite message: the alarm header, one TG1 line, one TG2 line. */
  function MigrationMessage(server: string, check: string, disabled: bool, enabled: bool): string
  {
    MigrationHeader(server, check) + Tg1Line(disabled) + Tg2Line(enabled)
  }

  /** The message reports the two steps separately: equal messages for the
      same failure mean equal step outcomes, so the four combinations give
      four different messages. */
  lemma MigrationMessageReportsSteps(server: string, check: string, d1: bool, e1: bool, d2: bool, e2: bool)
    requires MigrationMessage(server, check, d1, e1) == MigrationMessage(server, check, d2, e2)
    ensures d1 == d2 && e1 == e2
  {
    var h := MigrationHeader(server, check);
    var m := MigrationMessage(server, check, d1, e1);
    assert m[|h|] == Tg1Line(d1)[0];
    assert m[|h|] == Tg1Line(d2)[0];
    var k := |h| + |Tg1Line(d1)|;
    assert m[k] == Tg2Line(e1)[0];
    assert m[k] == Tg2Line(e2)[0];
  }

  // ---------------------------------------------------------------------
  // What each strategy sends

  datatype Sent = Sent(commands: seq<RemoteCommand>, posts: seq<Post>)

  const Nothing: Sent := Sent([], [])

  function Then(a: Sent, b: Sent): Sent
  {
    Sent(a.commands + b.commands, a.posts + b.posts)
  }

  function NotifyFailureSent(chats: seq<ChatId>, server: string, check: string): Sent
  {
    Sent([], Broadcast(chats, FailureText(server, check)))
  }

  function NotifyWarningSent(chats: seq<ChatId>, server: string, check: string, value: int): Sent
  {
    Sent([], Broadcast(chats, WarningText(server, check, value)))
  }

  /** What `MoveServicesStrategy.handle` sends.  When TG1 is not configured
      the lookup yields None and the error escapes before anything is sent;
      when only TG2 is missing, TG1's step has already run. */
  function MigrationSent(servers: seq<ServerConfig>, chats: seq<ChatId>, server: string, check: string,
                         tg1Up: bool, tg2Up: bool): Sent
  {
    match FindServer(servers, "TG1")
    case None => Nothing
    case Some(tg1) =>
      var stops := if tg1Up then StopCommands(tg1) else [];
      match FindServer(servers, "TG2")
      case None => Sent(stops, [])
      case Some(tg2) =>
        var starts := if tg2Up then Commands(tg2.host, Start, FailoverServices) else [];
        Sent(stops + starts, Broadcast(chats, MigrationMessage(server, check, tg1Up, tg2Up)))
  }

  /** With both servers configured: one stop per TG1 service check when TG1
      is reachable, then one start per failover service when TG2 is, and the
      one composite message reporting both steps, posted once per chat. */
  lemma MigrationWithBothServers(servers: seq<ServerConfig>, chats: seq<ChatId>, server: string, check: string,
                                 tg1Up: bool, tg2Up: bool)
    requires FindServer(servers, "TG1").Some? && FindServer(servers, "TG2").Some?
    ensures var s := MigrationSent(servers, chats, server, check, tg1Up, tg2Up);
            var tg1 := FindServer(servers, "TG1").value;
            var tg2 := FindServer(servers, "TG2").value;
            var k := if tg1Up then ServiceCheckCount(tg1.checks) else 0;
            && |s.commands| == k + (if tg2Up then 2 else 0)
            && |s.posts| == |chats|
            && (forall i :: 0 <= i < |chats| ==>
                  s.posts[i] == Post(chats[i], MigrationMessage(server, check, tg1Up, tg2Up)))
            && s.commands[..k] == (if tg1Up then StopCommands(tg1) else [])
            && s.commands[k..] == (if tg2Up then Commands(tg2.host, Start, FailoverServices) else [])
  {
    var tg1 := FindServer(servers, "TG1").value;
    ServiceNamesExact(tg1.checks);
  }

  /** Without TG1 in the configuration nothing at all is sent. */
  lemma MigrationWithoutTg1(servers: seq<ServerConfig>, chats: seq<ChatId>, server: string, check: string,
                            tg1Up: bool, tg2Up: bool)
    requires forall i :: 0 <= i < |servers| ==> servers[i].name != "TG1"
    ensures MigrationSent(servers, chats, server, check, tg1Up, tg2Up) == Nothing
  {
  }

  // ---------------------------------------------------------------------
  // The outside world the strategies act on

  /** The alert relay's received posts and the commands run over SSH, in order. */
  class Network {
    var posts: seq<Post>
    var commands: seq<RemoteCommand>

    constructor ()
      ensures posts == [] && commands == []
    {
      posts := [];
      commands := [];
    }

    /** `requests.post(url, json={'chat_id': ..., 'message': ...})` */
    method PostAlert(chatId: ChatId, message: string)
      modifies this
      ensures posts == old(posts) + [Post(chatId, message)]
      ensures commands == old(commands)
    {
      posts := posts + [Post(chatId, message)];
    }

    /** `ssh.exec_command(line)` on an open session to `host`.  Its output
        and any error are only logged, so they do not appear here. */
    method Exec(host: string, line: string)
      modifies this
      ensures commands == old(commands) + [RemoteCommand(host, line)]
      ensures posts == old(posts)
    {
      commands := commands + [RemoteCommand(host, line)];
    }
  }

  /** `send_message` (and the loop of both notify strategies): one post per chat, in order. */
  method SendMessage(net: Network, chats: seq<ChatId>, message: string)
    modifies net
    ensures net.posts == old(net.posts) + Broadcast(chats, message)
    ensures net.commands == old(net.commands)
  {
    var i := 0;
    while i < |chats|
      invariant 0 <= i <= |chats|
      invariant net.posts == old(net.posts) + Broadcast(chats[..i], message)
      invariant net.commands == old(net.commands)
    {
      net.PostAlert(chats[i], message);
      BroadcastSnoc(chats[..i], chats[i], message);
      assert chats[..i + 1] == chats[..i] + [chats[i]];
      i := i + 1;
    }
    assert chats[..i] == chats;
  }

  /** `NotifyFailureStrategy.handle` */
  method HandleNotifyFailure(net: Network, chats: seq<ChatId>, server: string, check: string)
    modifies net
    ensures net.posts == old(net.posts) + NotifyFailureSent(chats, server, check).posts
    ensures net.commands == old(net.commands)
  {
    SendMessage(net, chats, FailureText(server, check));
  }

  /** `NotifyWarningStrategy.handle` */
  method HandleNotifyWarning(net: Network, chats: seq<ChatId>, server: string, check: string, value: int)
    modifies net
    ensures net.posts == old(net.posts) + NotifyWarningSent(chats, server, check, value).posts
    ensures net.commands == old(net.commands)
  {
    SendMessage(net, chats, WarningText(server, check, value));
  }

  /** `manage_service`: one `systemctl` command on the open session. */
  method ManageService(net: Network, host: string, service: string, a: Action)
    modifies net
    ensures net.commands == old(net.commands) + [RemoteCommand(host, CommandLine(a, service))]
    ensures net.posts == old(net.posts)
  {
    net.Exec(host, CommandLine(a, service));
  }

  /** `disable_services`: a `stop` for each `service`-type check of the server. */
  method DisableServices(net: Network, server: ServerConfig)
    modifies net
    ensures net.commands == old(net.commands) + StopCommands(server)
    ensures net.posts == old(net.posts)
  {
    var checks := server.checks;
    var i := 0;
    while i < |checks|
      invariant 0 <= i <= |checks|
      invariant net.commands == old(net.commands) + Commands(server.host, Stop, ServiceNames(checks[..i]))
      invariant net.posts == old(net.posts)
    {
      ServiceNamesAppend(checks[..i], [checks[i]]);
      assert checks[..i + 1] == checks[..i] + [checks[i]];
      if checks[i].kind == "service" {
        ManageService(net, server.host, checks[i].service, Stop);
        CommandsSnoc(server.host, Stop, ServiceNames(checks[..i]), checks[i].service);
      } else {
        assert ServiceNames(checks[..i + 1]) == ServiceNames(checks[..i]);
      }
      i := i + 1;
    }
    assert checks[..i] == checks;
  }

  /** `enable_services`: a `start` for each listed service, in list order. */
  method EnableServices(net: Network, host: string, services: seq<string>)
    modifies net
    ensures net.commands == old(net.commands) + Commands(host, Start, services)
    ensures net.posts == old(net.posts)
  {
    var i := 0;
    while i < |services|
      invariant 0 <= i <= |services|
      invariant net.commands == old(net.commands) + Commands(host, Start, services[..i])
      invariant net.posts == old(net.posts)
    {
      ManageService(net, host, services[i], Start);
      CommandsSnoc(host, Start, services[..i], services[i]);
      assert services[..i + 1] == services[..i] + [services[i]];
      i := i + 1;
    }
    assert services[..i] == services;
  }

  /** `connect_and_disable_services`: true iff the SSH session was obtained
      (`tg1Up`), in which case the stops have been issued. */
  method ConnectAndDisableServices(net: Network, server: ServerConfig, up: bool) returns (ok: bool)
    modifies net
    ensures ok == up
    ensures net.commands == old(net.commands) + (if up then StopCommands(server) else [])
    ensures net.posts == old(net.posts)
  {
    if up {
      DisableServices(net, server);
      return true;
    }
    return false;
  }

  /** `connect_and_enable_services`; its `None` on a failed connection is
      falsy and reads as `false` here. */
  method ConnectAndEnableServices(net: Network, server: ServerConfig, services: seq<string>, up: bool)
    returns (ok: bool)
    modifies net
    ensures ok == up
    ensures net.commands == old(net.commands) + (if up then Commands(server.host, Start, services) else [])
    ensures net.posts == old(net.posts)
  {
    ok := false;
    if up {
      EnableServices(net, server.host, services);
      ok := true;
    }
  }

  /** `MoveServicesStrategy.handle`: stop TG1's services, start the failover
      services on TG2, then send one message reporting both steps. */
  method HandleMoveServices(net: Network, servers: seq<ServerConfig>, chats: seq<ChatId>,
                            server: string, check: string, tg1Up: bool, tg2Up: bool)
    modifies net
    ensures net.commands == old(net.commands) + MigrationSent(servers, chats, server, check, tg1Up, tg2Up).commands
    ensures net.posts == old(net.posts) + MigrationSent(servers, chats, server, check, tg1Up, tg2Up).posts
  {
    var tg1 := FindServer(servers, "TG1");
    var tg2 := FindServer(servers, "TG2");
    var message := MigrationHeader(server, check);
    if tg1.None? {
      return;
    }
    var disabled := ConnectAndDisableServices(net, tg1.value, tg1Up);
    if disabled {
      message := message + "Служби відключені на TG1\n";
    } else {
      message := message + "Не вдалося під'єднатися до TG1\n";
    }
    if tg2.None? {
      return;
    }
    var enabled := ConnectAndEnableServices(net, tg2.value, FailoverServices, tg2Up);
    if enabled {
      message := message + "Служби включені на TG2\n";
    } else {
      message := message + "Не вдалося під'єднатися до TG2\n";
    }
    SendMessage(net, chats, message);
  }
}
