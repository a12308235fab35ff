/**
 * The persisted user settings: defaults, loading from and saving to the
 * browser's local storage, the two single-field setters, and the settings
 * sent along with every chat request.
 */
module SettingsStore {
  import opened Wrappers
  import Seqs

  datatype ReportStyle = Aggressive | Conservative | GoNuts | Friendly

  function StyleName(s: ReportStyle): string
  {
    match s
    case Aggressive => "aggressive"
    case Conservative => "conservative"
    case GoNuts => "go_nuts"
    case Friendly => "friendly"
  }

  datatype General = General(
    autoAcceptedPlan: bool,
    maxPlanIterations: int,
    maxStepNum: int,
    maxSearchResults: int,
    reportStyle: ReportStyle,
    userBackground: string)

  datatype McpTool = McpTool(name: string)

  /** A configured MCP server as the settings keep it. */
  datatype McpServer = McpServer(
    name: string,
    transport: string,
    env: Option<map<string, string>>,
    command: Option<string>,
    args: Option<seq<string>>,
    url: Option<string>,
    enabled: bool,
    tools: seq<McpTool>)

  datatype Settings = Settings(general: General, servers: seq<McpServer>)

  const SettingsKey := "unghost-agent.settings"

  const DefaultGeneral := General(false, 1, 3, 3, Friendly, "")

  const DefaultSettings := Settings(DefaultGeneral, [])

  // ---------------------------------------------------------------------
  // What local storage holds
  // ---------------------------------------------------------------------

  /** A stored `general` object: each key may be missing. */
  datatype GeneralPatch = GeneralPatch(
    autoAcceptedPlan: Option<bool>,
    maxPlanIterations: Option<int>,
    maxStepNum: Option<int>,
    maxSearchResults: Option<int>,
    reportStyle: Option<ReportStyle>,
    userBackground: Option<string>)

  /** A parsed settings object; `general` and `mcp` may be missing or null. */
  datatype StoredSettings = StoredSettings(general: Option<GeneralPatch>, mcpServers: Option<seq<McpServer>>)

  /**
   * The text under the settings key: empty (falsy, so ignored), text whose
   * parse throws, or a settings object.
   */
  datatype StoredText = EmptyText | Malformed | Document(doc: StoredSettings)

  /** `JSON.stringify` of a complete settings object, read back as what `JSON.parse` returns. */
  function Serialize(s: Settings): (d: StoredSettings)
    ensures d.general.Some? && d.mcpServers == Some(s.servers)
  {
    var g := s.general;
    StoredSettings(
      Some(GeneralPatch(Some(g.autoAcceptedPlan), Some(g.maxPlanIterations), Some(g.maxStepNum),
                        Some(g.maxSearchResults), Some(g.reportStyle), Some(g.userBackground))),
      Some(s.servers))
  }

  /** `{...DEFAULT_SETTINGS.general, ...(stored.general ?? {})}`. */
  function MergeGeneral(patch: Option<GeneralPatch>): (g: General)
    ensures patch.None? ==> g == DefaultGeneral
    ensures patch.Some? ==>
      g.autoAcceptedPlan == GetOr(patch.value.autoAcceptedPlan, DefaultGeneral.autoAcceptedPlan)
      && g.maxPlanIterations == GetOr(patch.value.maxPlanIterations, DefaultGeneral.maxPlanIterations)
      && g.maxStepNum == GetOr(patch.value.maxStepNum, DefaultGeneral.maxStepNum)
      && g.maxSearchResults == GetOr(patch.value.maxSearchResults, DefaultGeneral.maxSearchResults)
      && g.reportStyle == GetOr(patch.value.reportStyle, DefaultGeneral.reportStyle)
      && g.userBackground == GetOr(patch.value.userBackground, DefaultGeneral.userBackground)
  {
    if patch.None? then DefaultGeneral
    else
      var p := patch.value;
      General(
        GetOr(p.autoAcceptedPlan, DefaultGeneral.autoAcceptedPlan),
        GetOr(p.maxPlanIterations, DefaultGeneral.maxPlanIterations),
        GetOr(p.maxStepNum, DefaultGeneral.maxStepNum),
        GetOr(p.maxSearchResults, DefaultGeneral.maxSearchResults),
        GetOr(p.reportStyle, DefaultGeneral.reportStyle),
        GetOr(p.userBackground, DefaultGeneral.userBackground))
  }

  /**
   * loadSettings as a function of the current state and the stored text:
   * without a window, without an entry, with empty or unparsable text the
   * state is kept; otherwise the stored object, completed with defaults,
   * replaces it.
   */
  function Loaded(current: Settings, hasWindow: bool, stored: Option<StoredText>): (r: Settings)
    ensures !hasWindow || stored.None? || !stored.value.Document? ==> r == current
    ensures hasWindow && stored.Some? && stored.value.Document? ==>
              r.general == MergeGeneral(stored.value.doc.general)
              && r.servers == GetOr(stored.value.doc.mcpServers, [])
  {
    if !hasWindow || stored.None? then current
    else match stored.value
      case EmptyText => current
      case Malformed => current
      case Document(d) => Settings(MergeGeneral(d.general), GetOr(d.mcpServers, DefaultSettings.servers))
  }

  /** What is saved loads back unchanged. */
  lemma SaveLoadRoundTrip(current: Settings, s: Settings)
    ensures Loaded(current, true, Some(Document(Serialize(s)))) == s
  {
  }

  /** Loading is idempotent: reading the same entry twice is reading it once. */
  lemma LoadIdempotent(current: Settings, hasWindow: bool, stored: Option<StoredText>)
    ensures Loaded(Loaded(current, hasWindow, stored), hasWindow, stored) == Loaded(current, hasWindow, stored)
  {
  }

  // ---------------------------------------------------------------------
  // The settings sent with a chat request
  // ---------------------------------------------------------------------

  /** The server entry sent to the back end: stdio servers by command, the others by URL. */
  datatype StreamServer = StreamServer(
    name: string,
    transport: string,
    env: Option<map<string, string>>,
    command: Option<string>,
    args: Option<seq<string>>,
    url: Option<string>,
    enabledTools: seq<string>,
    addToAgents: seq<string>)

  datatype ChatStreamSettings = ChatStreamSettings(general: General, mcpSettings: Option<map<string, StreamServer>>)

  function ToolNames(tools: seq<McpTool>): (r: seq<string>)
    ensures |r| == |tools| && forall i :: 0 <= i < |tools| ==> r[i] == tools[i].name
  {
    if tools == [] then [] else [tools[0].name] + ToolNames(tools[1..])
  }

  function StreamEntry(s: McpServer): (r: StreamServer)
    ensures r.name == s.name && r.transport == s.transport && r.env == s.env
    ensures s.transport == "stdio" ==> r.command == s.command && r.args == s.args && r.url.None?
    ensures s.transport != "stdio" ==> r.url == s.url && r.command.None? && r.args.None?
    ensures r.enabledTools == ToolNames(s.tools) && r.addToAgents == ["researcher"]
  {
    if s.transport == "stdio" then
      StreamServer(s.name, s.transport, s.env, s.command, s.args, None, ToolNames(s.tools), ["researcher"])
    else
      StreamServer(s.name, s.transport, s.env, None, None, s.url, ToolNames(s.tools), ["researcher"])
  }

  /** `servers.filter(s => s.enabled)`: the enabled servers, in their order and with their repeats. */
  function Enabled(servers: seq<McpServer>): (r: seq<McpServer>)
    ensures forall s :: s in r <==> s in servers && s.enabled
  {
    if servers == [] then []
    else (if servers[0].enabled then [servers[0]] else []) + Enabled(servers[1..])
  }

  /** The enabled list is the order-preserving filter on `enabled`, so order and repeats are kept. */
  lemma {:induction false} EnabledIsFilter(servers: seq<McpServer>)
    ensures Enabled(servers) == Seqs.Filter(servers, (s: McpServer) => s.enabled)
  {
    if servers != [] {
      EnabledIsFilter(servers[1..]);
    }
  }

  /** The reduce into a record keyed by server name: a later server replaces an earlier one of the same name. */
  function ServerRecord(servers: seq<McpServer>): map<string, StreamServer>
  {
    if servers == [] then map[]
    else
      var last := servers[|servers| - 1];
      ServerRecord(servers[..|servers| - 1])[last.name := StreamEntry(last)]
  }

  function Names(servers: seq<McpServer>): set<string>
  {
    set i | 0 <= i < |servers| :: servers[i].name
  }

  /** The record has exactly one key per server name. */
  lemma {:induction false} ServerRecordKeys(servers: seq<McpServer>)
    ensures ServerRecord(servers).Keys == Names(servers)
  {
    if servers != [] {
      var init := servers[..|servers| - 1];
      var last := servers[|servers| - 1];
      ServerRecordKeys(init);
      assert servers == init + [last];
      forall n | n in Names(servers)
        ensures n in Names(init) + {last.name}
      {
        var i :| 0 <= i < |servers| && servers[i].name == n;
        if i < |init| {
          assert init[i] == servers[i];
        }
      }
      forall n | n in Names(init)
        ensures n in Names(servers)
      {
        var i :| 0 <= i < |init| && init[i].name == n;
        assert servers[i] == init[i];
      }
      assert Names(servers) == Names(init) + {last.name};
    }
  }

  /** Under each name the record holds the entry of the last server with that name. */
  lemma {:induction false} ServerRecordLastWins(servers: seq<McpServer>, i: int)
    requires 0 <= i < |servers|
    requires forall j :: i < j < |servers| ==> servers[j].name != servers[i].name
    ensures servers[i].name in ServerRecord(servers)
    ensures ServerRecord(servers)[servers[i].name] == StreamEntry(servers[i])
  {
    var init := servers[..|servers| - 1];
    if i < |servers| - 1 {
      assert init[i] == servers[i];
      forall j | i < j < |init|
        ensures init[j].name != init[i].name
      {
        assert init[j] == servers[j];
      }
      ServerRecordLastWins(init, i);
    }
  }

  /** getChatStreamSettings as a function of the settings. */
  function StreamSettings(s: Settings): (r: ChatStreamSettings)
    ensures r.general == s.general
    ensures r.mcpSettings.None? <==> forall i :: 0 <= i < |s.servers| ==> !s.servers[i].enabled
  {
    var enabled := Enabled(s.servers);
    if |enabled| > 0 then
      ChatStreamSettings(s.general, Some(ServerRecord(enabled)))
    else
      assert forall i :: 0 <= i < |s.servers| ==> s.servers[i] in s.servers;
      ChatStreamSettings(s.general, None)
  }

  /** Disabled servers never reach the back end; every enabled one does, under its name. */
  lemma StreamSettingsServers(s: Settings, name: string)
    requires StreamSettings(s).mcpSettings.Some?
    ensures (name in StreamSettings(s).mcpSettings.value)
              <==> (exists i :: 0 <= i < |s.servers| && s.servers[i].enabled && s.servers[i].name == name)
  {
    var enabled := Enabled(s.servers);
    ServerRecordKeys(enabled);
    if name in StreamSettings(s).mcpSettings.value {
      assert name in Names(enabled);
      var i :| 0 <= i < |enabled| && enabled[i].name == name;
      assert enabled[i] in s.servers;
    }
    if exists i :: 0 <= i < |s.servers| && s.servers[i].enabled && s.servers[i].name == name {
      var i :| 0 <= i < |s.servers| && s.servers[i].enabled && s.servers[i].name == name;
      assert s.servers[i] in enabled;
    }
  }

  // ---------------------------------------------------------------------
  // The store
  // ---------------------------------------------------------------------

  /** The settings store together with the local-storage entry under the settings key. */
  class Store {
    var state: Settings
    var stored: Option<StoredText>
    const hasWindow: bool

    /** The store starts from the defaults and loads once when the module is first imported. */
    constructor(hasWindow: bool, stored: Option<StoredText>)
      ensures this.hasWindow == hasWindow && this.stored == stored
      ensures state == Loaded(DefaultSettings, hasWindow, stored)
    {
      this.hasWindow := hasWindow;
      this.stored := stored;
      state := Loaded(DefaultSettings, hasWindow, stored);
    }

    method LoadSettings()
      modifies this
      ensures stored == old(stored)
      ensures state == Loaded(old(state), hasWindow, stored)
    {
      if !hasWindow {
        return;
      }
      var json := stored;
      if json.Some? && json.value != EmptyText {
        match json.value
        case Malformed =>
        case Document(d) =>
          var general := MergeGeneral(d.general);
          var servers := GetOr(d.mcpServers, DefaultSettings.servers);
          state := Settings(general, servers);
      }
    }

    method SaveSettings()
      modifies this
      ensures state == old(state)
      ensures stored == Some(Document(Serialize(state)))
    {
      stored := Some(Document(Serialize(state)));
    }

    method ChangeSettings(settings: Settings)
      modifies this
      ensures state == settings && stored == old(stored)
    {
      state := settings;
    }

    method SetReportStyle(value: ReportStyle)
      modifies this
      ensures state == old(state).(general := old(state).general.(reportStyle := value))
      ensures stored == Some(Document(Serialize(state)))
    {
      state := state.(general := state.general.(reportStyle := value));
      SaveSettings();
    }

    method SetUserBackground(value: string)
      modifies this
      ensures state == old(state).(general := old(state).general.(userBackground := value))
      ensures stored == Some(Document(Serialize(state)))
    {
      state := state.(general := state.general.(userBackground := value));
      SaveSettings();
    }

    function GetChatStreamSettings(): ChatStreamSettings
      reads this
    {
      StreamSettings(state)
    }

    /** After any save, a reload (say, in a new tab) gives back exactly the saved state. */
    lemma ReloadAfterSave()
      requires hasWindow && stored.Some? && stored.value.Document?
      requires stored.value.doc == Serialize(state)
      ensures Loaded(DefaultSettings, hasWindow, stored) == state
    {
      SaveLoadRoundTrip(DefaultSettings, state);
    }
  }
}
