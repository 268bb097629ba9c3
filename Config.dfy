/** The static configuration the monitor reads once at start-up: the fleet of
    servers with their checks, the alert chats and the thresholds.  Loading it
    is outside the model; the modules below receive it as a value. */
module Config {

  datatype Option<+T> = None | Some(value: T)

  /** One entry of a server's `checks` list.  `kind` is the raw `type` string
      (an unknown one is skipped by the monitor); `port` is read by telnet
      checks and `service` by service checks. */
  datatype CheckConfig = CheckConfig(name: string, kind: string, port: int, service: string)

  /** One entry of `servers`. */
  datatype ServerConfig = ServerConfig(
    name: string,
    host: string,
    user: string,
    password: string,
    checks: seq<CheckConfig>)

  type ChatId = int

  /** `servers`, `chats`, `response_time_limit` and `resourse_limits`. */
  datatype Config = Config(
    servers: seq<ServerConfig>,
    chats: seq<ChatId>,
    responseTimeLimit: int,
    resourceLimits: map<string, int>)

  /** The first server called `name`, as `next((s for s in servers if s['name'] == name), None)`. */
  function FindServer(servers: seq<ServerConfig>, name: string): (r: Option<ServerConfig>)
    ensures r.None? <==> forall i :: 0 <= i < |servers| ==> servers[i].name != name
    ensures r.Some? ==> exists i :: 0 <= i < |servers| && servers[i] == r.value && r.value.name == name &&
                          forall j :: 0 <= j < i ==> servers[j].name != name
  {
    if |servers| == 0 then None
    else if servers[0].name == name then Some(servers[0])
    else
      var r := FindServer(servers[1..], name);
      assert forall j :: 1 <= j < |servers| ==> servers[j] == servers[1..][j - 1];
      r
  }
}
