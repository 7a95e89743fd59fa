/** The named queries a script can make about the live client through the
    global `state(name)`, answered from a read-only snapshot of the host. */
module StateQuery {
  import opened Common

  /** `IClient::EClientState`. */
  datatype ClientState = Offline | Connecting | Loading | Online | DemoPlayback | Quitting | Restarting

  /** The fields of a `CServerInfo` the queries read; `address` is its first
      address already formatted with its port. */
  datatype ServerInfo = ServerInfo(
    mapName: string,
    address: string,
    maxClients: int,
    name: string,
    communityId: string)

  /** What the host getters return at the moment of the query. `serverAddress`
      is the current server address already formatted with its port;
      `cameraRow` and `cameraCol` are the camera centre's grid coordinates
      after the truncating conversion to `int`. */
  datatype HostSnapshot = HostSnapshot(
    gameType: string,
    pvp: bool,
    race: bool,
    allowEyeWheel: bool,
    allowZoom: bool,
    dummyAllowed: bool,
    dummyConnected: bool,
    rconAuthed: bool,
    localTeam: int,
    localDdnetTeam: int,
    state: ClientState,
    currentMap: string,
    serverAddress: string,
    currentServerInfo: ServerInfo,
    connectServerInfo: Option<ServerInfo>,
    numPlayers: int,
    cameraRow: int,
    cameraCol: int)

  /** Every name `StateStr` answers. */
  const STATE_KEYS: seq<string> := [
    "game_mode", "game_mode_pvp", "game_mode_race", "eye_wheel_allowed",
    "zoom_allowed", "dummy_allowed", "dummy_connected", "rcon_authed", "team",
    "ddnet_team", "map", "server_ip", "players_connected", "players_cap",
    "server_name", "community", "location", "state"]

  /** The nine regions of the map, row by row from the north-west. */
  const LOCATION_LABELS: seq<string> := ["NW", "N", "NE", "W", "C", "E", "SW", "S", "SE"]

  function BoolWord(b: bool): string
  {
    if b then "true" else "false"
  }

  // Decimal text of integers, as std::to_string writes them.

  predicate IsDigits(s: string)
  {
    forall i :: 0 <= i < |s| ==> '0' <= s[i] <= '9'
  }

  /** The number a string of decimal digits denotes. */
  function DecimalValue(s: string): nat
    requires IsDigits(s)
  {
    if s == [] then 0 else DecimalValue(s[..|s| - 1]) * 10 + (s[|s| - 1] as int - '0' as int)
  }

  function DigitChar(d: nat): (c: char)
    requires d < 10
    ensures '0' <= c <= '9' && c as int - '0' as int == d
  {
    ('0' as int + d) as char
  }

  /** The shortest decimal text of `n`. */
  function NatToDecimal(n: nat): (s: string)
    ensures |s| >= 1 && IsDigits(s)
    ensures DecimalValue(s) == n
    ensures |s| > 1 ==> s[0] != '0'
    decreases n
  {
    if n < 10 then [DigitChar(n)]
    else
      var prefix := NatToDecimal(n / 10);
      var s := prefix + [DigitChar(n % 10)];
      assert s[..|s| - 1] == prefix;
      s
  }

  /** `std::to_string` of an `int`: a minus sign exactly for a negative
      number, then the decimal digits of its magnitude. */
  function IntToString(n: int): (s: string)
    ensures |s| >= 1 && (s[0] == '-' <==> n < 0)
    ensures n < 0 ==> IsDigits(s[1..]) && DecimalValue(s[1..]) == -n
    ensures n >= 0 ==> IsDigits(s) && DecimalValue(s) == n
  {
    if n < 0 then
      var digits := NatToDecimal(-n);
      var s := "-" + digits;
      assert s[1..] == digits;
      s
    else NatToDecimal(n)
  }

  /** The integer a decimal text with an optional leading minus denotes. */
  function ParseInt(s: string): int
  {
    if |s| > 0 && s[0] == '-' && IsDigits(s[1..]) then -(DecimalValue(s[1..]) as int)
    else if IsDigits(s) then DecimalValue(s)
    else 0
  }

  /** Every integer the queries print can be read back. */
  lemma IntToStringRoundTrip(n: int)
    ensures ParseInt(IntToString(n)) == n
  {
    if n < 0 {
      var s := IntToString(n);
      assert s[1..] == NatToDecimal(-n);
    }
  }

  // The `location` query.

  /** `std::clamp(v, lo, hi)`. */
  function Clamp(v: int, lo: int, hi: int): (r: int)
    requires lo <= hi
    ensures lo <= r <= hi
    ensures lo <= v <= hi ==> r == v
  {
    if v < lo then lo else if hi < v then hi else v
  }

  /** The index into `LOCATION_LABELS` of the grid cell at `row` and `col`:
      always one of the nine cells, its row the clamped row and its column
      the clamped column. */
  function LocationIndex(row: int, col: int): (i: nat)
    ensures i < 9
    ensures i / 3 == Clamp(row, 0, 2) && i % 3 == Clamp(col, 0, 2)
  {
    Clamp(row, 0, 2) * 3 + Clamp(col, 0, 2)
  }

  function LocationLabel(row: int, col: int): (r: string)
    ensures r in LOCATION_LABELS
  {
    LOCATION_LABELS[LocationIndex(row, col)]
  }

  /** Inside the grid, different cells have different labels. */
  lemma LocationLabelsDistinct(r1: int, c1: int, r2: int, c2: int)
    requires 0 <= r1 <= 2 && 0 <= c1 <= 2 && 0 <= r2 <= 2 && 0 <= c2 <= 2
    requires r1 != r2 || c1 != c2
    ensures LocationLabel(r1, c1) != LocationLabel(r2, c2)
  {
    var i, j := LocationIndex(r1, c1), LocationIndex(r2, c2);
    assert i != j;
  }

  /** A camera outside the map is placed in the nearest border cell. */
  lemma LocationClampsToGrid(row: int, col: int)
    ensures LocationLabel(row, col) == LocationLabel(Clamp(row, 0, 2), Clamp(col, 0, 2))
  {
  }

  // Reads that depend on the connection.

  /** `GetServerInfo`: the current server's descriptor while online or
      playing a demo, otherwise the pending connect target's, if any. */
  function ServerInfoOf(h: HostSnapshot): (r: Option<ServerInfo>)
    ensures r.None? <==> h.state != Online && h.state != DemoPlayback && h.connectServerInfo.None?
    ensures h.state == Online || h.state == DemoPlayback ==> r == Some(h.currentServerInfo)
    ensures r.Some? && r != Some(h.currentServerInfo) ==> r == h.connectServerInfo
  {
    if h.state == Online || h.state == DemoPlayback then Some(h.currentServerInfo)
    else h.connectServerInfo
  }

  function ClientStateWord(s: ClientState): string
  {
    match s
    case Connecting => "connecting"
    case Offline => "offline"
    case Loading => "loading"
    case Online => "online"
    case DemoPlayback => "demo"
    case Quitting => "quitting"
    case Restarting => "restarting"
  }

  /** `StateStr`: the answer to the query `key`, or the `invalid_argument`
      it throws for a name it does not know. Every error is the "No state
      with name" message for the name asked. */
  function StateStr(h: HostSnapshot, key: string): (r: Result<string, string>)
    ensures r.Err? ==> r.error == "No state with name " + key
  {
    if key == "game_mode" then Ok(h.gameType)
    else if key == "game_mode_pvp" then Ok(BoolWord(h.pvp))
    else if key == "game_mode_race" then Ok(BoolWord(h.race))
    else if key == "eye_wheel_allowed" then Ok(BoolWord(h.allowEyeWheel))
    else if key == "zoom_allowed" then Ok(BoolWord(h.allowZoom))
    else if key == "dummy_allowed" then Ok(BoolWord(h.dummyAllowed))
    else if key == "dummy_connected" then Ok(BoolWord(h.dummyConnected))
    else if key == "rcon_authed" then Ok(BoolWord(h.rconAuthed))
    else if key == "team" then Ok(IntToString(h.localTeam))
    else if key == "ddnet_team" then Ok(IntToString(h.localDdnetTeam))
    else if key == "map" then
      if h.state == Online || h.state == DemoPlayback then Ok(h.currentMap)
      else if h.connectServerInfo.Some? then Ok(h.connectServerInfo.value.mapName)
      else Ok("")
    else if key == "server_ip" then
      if h.state == Online then Ok(h.serverAddress)
      else if h.connectServerInfo.Some? then Ok(h.connectServerInfo.value.address)
      else Ok("")
    else if key == "players_connected" then Ok(IntToString(h.numPlayers))
    else if key == "players_cap" then
      match ServerInfoOf(h)
      case None => Ok("")
      case Some(info) => Ok(IntToString(info.maxClients))
    else if key == "server_name" then
      match ServerInfoOf(h)
      case None => Ok("")
      case Some(info) => Ok(info.name)
    else if key == "community" then
      match ServerInfoOf(h)
      case None => Ok("")
      case Some(info) => Ok(info.communityId)
    else if key == "location" then
      if h.race then Ok("") else Ok(LocationLabel(h.cameraRow, h.cameraCol))
    else if key == "state" then Ok(ClientStateWord(h.state))
    else Err("No state with name " + key)
  }

  /** The global `state(name)`: an empty answer when no runner is active,
      otherwise `StateStr` of the active runner's host, its error included:
      with no runner it answers "", and every failure is the "No state with
      name" message of an active runner. */
  function StateTrampoline(active: Option<HostSnapshot>, key: string): (r: Result<string, string>)
    ensures active.None? ==> r == Ok("")
    ensures r.Err? ==> active.Some? && r.error == "No state with name " + key
  {
    match active
    case None => Ok("")
    case Some(h) => StateStr(h, key)
  }

  // Properties of the queries.

  /** A query is answered exactly when its name is one of `STATE_KEYS`; any
      other name is the "No state with name" error. */
  lemma StateStrAnswersExactlyKnownKeys(h: HostSnapshot, key: string)
    ensures StateStr(h, key).Ok? <==> key in STATE_KEYS
    ensures key !in STATE_KEYS ==> StateStr(h, key) == Err("No state with name " + key)
  {
    AnsweredNames(h, key);
    StateKeysListed(key);
  }

  /** The names the `if` chain of `StateStr` tests, one by one. */
  predicate AnsweredName(key: string)
  {
    || key == "game_mode" || key == "game_mode_pvp" || key == "game_mode_race"
    || key == "eye_wheel_allowed" || key == "zoom_allowed" || key == "dummy_allowed"
    || key == "dummy_connected" || key == "rcon_authed" || key == "team"
    || key == "ddnet_team" || key == "map" || key == "server_ip"
    || key == "players_connected" || key == "players_cap" || key == "server_name"
    || key == "community" || key == "location" || key == "state"
  }

  lemma AnsweredNames(h: HostSnapshot, key: string)
    ensures StateStr(h, key).Ok? <==> AnsweredName(key)
  {
  }

  lemma StateKeysListed(key: string)
    ensures key in STATE_KEYS <==> AnsweredName(key)
  {
    if key in STATE_KEYS {
      var i :| 0 <= i < |STATE_KEYS| && STATE_KEYS[i] == key;
    }
  }

  /** `location` is empty in race modes, whatever the camera position, and
      one of the nine labels otherwise. */
  lemma LocationQuery(h: HostSnapshot)
    ensures h.race ==> StateStr(h, "location") == Ok("")
    ensures !h.race ==> StateStr(h, "location").Ok? && StateStr(h, "location").value in LOCATION_LABELS
  {
  }

  /** `state` names each client state by its own word. */
  lemma StateQueryWords(h1: HostSnapshot, h2: HostSnapshot)
    ensures StateStr(h1, "state") == Ok(ClientStateWord(h1.state))
    ensures h1.state != h2.state ==> StateStr(h1, "state") != StateStr(h2, "state")
  {
  }

  /** The flag queries answer "true" exactly when the flag is set, and
      "false" otherwise. */
  lemma FlagQueries(h: HostSnapshot)
    ensures StateStr(h, "game_mode_race") == Ok(if h.race then "true" else "false")
    ensures StateStr(h, "game_mode_pvp") == Ok(if h.pvp then "true" else "false")
    ensures StateStr(h, "rcon_authed") == Ok(if h.rconAuthed then "true" else "false")
    ensures StateStr(h, "dummy_connected") == Ok(if h.dummyConnected then "true" else "false")
    ensures StateStr(h, "eye_wheel_allowed") == Ok(if h.allowEyeWheel then "true" else "false")
    ensures StateStr(h, "zoom_allowed") == Ok(if h.allowZoom then "true" else "false")
    ensures StateStr(h, "dummy_allowed") == Ok(if h.dummyAllowed then "true" else "false")
  {
  }

  /** The numeric queries print the host's integers in decimal, and the
      printed text reads back as the same integer. */
  lemma NumericQueriesReadBack(h: HostSnapshot)
    ensures ParseInt(StateStr(h, "team").value) == h.localTeam
    ensures ParseInt(StateStr(h, "ddnet_team").value) == h.localDdnetTeam
    ensures ParseInt(StateStr(h, "players_connected").value) == h.numPlayers
  {
    assert StateStr(h, "team") == Ok(IntToString(h.localTeam));
    assert StateStr(h, "ddnet_team") == Ok(IntToString(h.localDdnetTeam));
    assert StateStr(h, "players_connected") == Ok(IntToString(h.numPlayers));
    IntToStringRoundTrip(h.localTeam);
    IntToStringRoundTrip(h.localDdnetTeam);
    IntToStringRoundTrip(h.numPlayers);
  }

  /** Without a connection and without a pending connect target, the
      queries about the server answer with the empty string. */
  lemma ServerQueriesEmptyWhenDisconnected(h: HostSnapshot)
    requires h.state != Online && h.state != DemoPlayback && h.connectServerInfo.None?
    ensures StateStr(h, "map") == Ok("")
    ensures StateStr(h, "server_ip") == Ok("")
    ensures StateStr(h, "players_cap") == Ok("")
    ensures StateStr(h, "server_name") == Ok("")
    ensures StateStr(h, "community") == Ok("")
  {
  }

  /** While a demo plays, `server_ip` falls through to the connect target
      although the other server queries use the current server. */
  lemma ServerIpDuringDemo(h: HostSnapshot)
    requires h.state == DemoPlayback
    ensures StateStr(h, "server_name") == Ok(h.currentServerInfo.name)
    ensures StateStr(h, "server_ip") ==
              if h.connectServerInfo.Some? then Ok(h.connectServerInfo.value.address) else Ok("")
  {
  }

  /** The trampoline answers "" with no active runner, and otherwise passes
      `StateStr`'s answer through, an unknown name's error included: it does
      not catch that error. */
  lemma TrampolinePassesErrorsThrough(active: Option<HostSnapshot>, key: string)
    ensures active.None? ==> StateTrampoline(active, key) == Ok("")
    ensures active.Some? && key !in STATE_KEYS ==>
              StateTrampoline(active, key) == Err("No state with name " + key)
  {
    if active.Some? {
      StateStrAnswersExactlyKnownKeys(active.value, key);
    }
  }
}
