/** The text and map transformations of the `init` command (src/mcp/cmd/init.go):
    stripping `//` comments from a JSONC settings file, splicing the Codex TOML
    section, merging the MCP server entry into a client configuration, merging
    the VS Code settings, and choosing which tools to configure.

    Files are values here: what a read returned, and what would be written. */
module Setup {

  import opened Wrappers
  import opened Json
  import opened Text

  // ---------------------------------------------------------------------------
  // removeJSONComments

  /** A line cut at its first "//" (which may sit inside a JSON string, as in a URL). */
  function StripComment(line: string): (r: string)
    ensures |r| <= |line| && r == line[..|r|]
    ensures Absent(r, "//")
    ensures forall j :: 0 <= j < |r| ==> !OccursAt(line, "//", j)
    ensures Absent(line, "//") ==> r == line
    ensures !Absent(line, "//") ==> OccursAt(line, "//", |r|)
  {
    var i := IndexOf(line, "//");
    if i == -1 then line
    else
      var r := line[..i];
      assert Absent(r, "//") by {
        forall j: nat ensures !OccursAt(r, "//", j) {
          OccursInSlice(line, "//", 0, i, j);
        }
      }
      r
  }

  /** The lines the loop keeps among the first `n`, in order: each line cut at
      "//", kept when something other than white space is left (when
      strings.TrimSpace of the cut line is not empty). */
  function KeptPrefix(lines: seq<string>, n: nat): (r: seq<string>)
    requires n <= |lines|
    ensures |r| <= n
  {
    if n == 0 then []
    else
      var line := StripComment(lines[n - 1]);
      KeptPrefix(lines, n - 1) + (if Blank(line) then [] else [line])
  }

  /** The lines the loop keeps. */
  function KeptLines(lines: seq<string>): (r: seq<string>)
    ensures |r| <= |lines|
  {
    KeptPrefix(lines, |lines|)
  }

  /** What removeJSONComments returns for `data`. */
  function CleanJson(data: string): string
  {
    JoinLines(KeptLines(SplitLines(data)))
  }

  /** The body of removeJSONComments' loop for one line: the line cut at "//",
      and whether it is kept. */
  method CleanLine(line: string) returns (cut: string, keep: bool)
    ensures cut == StripComment(line)
    ensures keep <==> !Blank(cut)
  {
    cut := line;
    var idx := IndexOf(line, "//");
    if idx != -1 {
      cut := line[..idx];
    }
    var trimmed := TrimSpace(cut);
    keep := trimmed != "";
  }

  /** removeJSONComments: split at "\n", cut each line at "//", drop blank lines, join. */
  method RemoveJsonComments(data: string) returns (out: string)
    ensures out == CleanJson(data)
  {
    var lines := SplitLines(data);
    var cleaned := CleanLines(lines);
    out := JoinLines(cleaned);
  }

  /** The loop of removeJSONComments over the split lines. */
  method CleanLines(lines: seq<string>) returns (cleaned: seq<string>)
    ensures cleaned == KeptLines(lines)
  {
    cleaned := [];
    for i := 0 to |lines|
      invariant cleaned == KeptPrefix(lines, i)
    {
      var line, keep := CleanLine(lines[i]);
      if keep {
        cleaned := cleaned + [line];
      }
    }
  }

  // ---------------------------------------------------------------------------
  // The Codex TOML splice of configureMCPCodex

  const CodexHeader: string := "[mcp_servers.quint-code]"

  /** The section configureMCPCodex appends: a line break, the header, and the body. */
  function CodexSection(binaryPath: string, projectRoot: string): string
  {
    "\n" + CodexHeader + CodexBody(binaryPath, projectRoot)
  }

  /** The three settings lines after the header, each preceded by a line break. */
  function CodexBody(binaryPath: string, projectRoot: string): string
  {
    "\n" + "command = \"" + binaryPath + "\"\n" + "args = [\"serve\"]\n"
    + "env = { QUINT_PROJECT_ROOT = \"" + projectRoot + "\" }\n"
  }

  /** Where the section starting at `start` ends: at the next "\n[" found after
      `start`, or at the end of the text. */
  function SectionEnd(s: string, start: nat): (end: nat)
    requires start < |s|
    ensures start < end <= |s|
    ensures end == |s| || OccursAt(s, "\n[", end)
    ensures forall j :: start < j < end ==> !OccursAt(s, "\n[", j)
  {
    var rest := s[start + 1..];
    var next := IndexOf(rest, "\n[");
    forall j | start < j ensures OccursAt(s, "\n[", j) <==> OccursAt(rest, "\n[", j - start - 1) {
      OccursInSlice(s, "\n[", start + 1, |s|, j - start - 1);
    }
    if next == -1 then |s| else start + 1 + next
  }

  /** The existing text with the section of the first Codex header removed:
      everything before the header and everything from the section's end on. */
  function RemoveCodexSection(existing: string): (r: string)
    ensures Absent(existing, CodexHeader) ==> r == existing
    ensures !Absent(existing, CodexHeader) ==>
      var start := IndexOf(existing, CodexHeader);
      start >= 0 && r == existing[..start] + existing[SectionEnd(existing, start)..]
  {
    var start := IndexOf(existing, CodexHeader);
    if start == -1 then existing
    else existing[..start] + existing[SectionEnd(existing, start)..]
  }

  /** The config.toml text configureMCPCodex writes over `existing` (empty when the file is missing). */
  function SpliceCodexConfig(existing: string, binaryPath: string, projectRoot: string): (r: string)
    ensures var section := CodexSection(binaryPath, projectRoot);
      && |section| <= |r| && r[|r| - |section|..] == section
      && r[..|r| - |section|] == TrimRightNewlines(RemoveCodexSection(existing))
  {
    TrimRightNewlines(RemoveCodexSection(existing)) + CodexSection(binaryPath, projectRoot)
  }

  // ---------------------------------------------------------------------------
  // mergeMCPConfig

  /** One MCPServer entry; a zero timeout is left out of the written JSON. */
  datatype McpServer = McpServer(command: string, args: seq<string>, cwd: string, env: map<string, string>, timeout: int)

  /** The decoded MCPConfig: only its `mcpServers` member is kept, possibly null. */
  datatype McpConfig = McpConfig(servers: map<string, McpServer>)

  /** What reading and decoding the existing configuration gave. */
  datatype ExistingConfig = NoConfigFile | InvalidConfig(err: string) | LoadedConfig(servers: Option<map<string, McpServer>>)

  /** A value of `extraFields`; only a Go `int` counts as a timeout. */
  datatype ExtraValue = IntValue(i: int) | OtherValue

  /** The entry for this server. */
  function QuintServer(binaryPath: string, projectRoot: string, timeout: int): McpServer
  {
    McpServer(binaryPath, ["serve"], projectRoot, map["QUINT_PROJECT_ROOT" := projectRoot], timeout)
  }

  /** The timeout taken from the extra fields: set iff "timeout" holds an int. */
  function ExtraTimeout(extra: map<string, ExtraValue>): (t: int)
    ensures "timeout" in extra && extra["timeout"].IntValue? ==> t == extra["timeout"].i
    ensures !("timeout" in extra && extra["timeout"].IntValue?) ==> t == 0
  {
    if "timeout" in extra && extra["timeout"].IntValue? then extra["timeout"].i else 0
  }

  /** The server map mergeMCPConfig writes: the old entries (none for a missing
      file or a null map) with "quint-code" set to `server`. */
  function MergeServers(prior: Option<map<string, McpServer>>, server: McpServer): (m: map<string, McpServer>)
    ensures "quint-code" in m && m["quint-code"] == server
    ensures forall k :: k != "quint-code" ==> (k in m <==> prior.Some? && k in prior.value)
    ensures forall k :: k != "quint-code" && prior.Some? && k in prior.value ==> m[k] == prior.value[k]
  {
    var base := if prior.Some? then prior.value else map[];
    base["quint-code" := server]
  }

  /** mergeMCPConfig without the directory creation and the write: the
      configuration it would write, or its error for an undecodable file. */
  method MergeMcpConfig(configPath: string, existing: ExistingConfig, binaryPath: string, projectRoot: string,
                        extra: map<string, ExtraValue>) returns (r: Result<McpConfig>)
    ensures existing.InvalidConfig? <==> r.Failure?
    ensures existing.InvalidConfig? ==>
      r == Failure("existing config at " + configPath + " is not valid JSON: " + existing.err)
    ensures existing.NoConfigFile? ==>
      r == Success(McpConfig(MergeServers(None, QuintServer(binaryPath, projectRoot, ExtraTimeout(extra)))))
    ensures existing.LoadedConfig? ==>
      r == Success(McpConfig(MergeServers(existing.servers, QuintServer(binaryPath, projectRoot, ExtraTimeout(extra)))))
  {
    var servers: map<string, McpServer> := map[];
    if existing.InvalidConfig? {
      return Failure("existing config at " + configPath + " is not valid JSON: " + existing.err);
    }
    if existing.LoadedConfig? && existing.servers.Some? {
      servers := existing.servers.value;
    }
    var server := McpServer(binaryPath, ["serve"], projectRoot, map["QUINT_PROJECT_ROOT" := projectRoot], 0);
    if "timeout" in extra && extra["timeout"].IntValue? {
      server := server.(timeout := extra["timeout"].i);
    }
    servers := servers["quint-code" := server];
    r := Success(McpConfig(servers));
  }

  // ---------------------------------------------------------------------------
  // The settings merge of configureMCPCopilot

  /** json.Unmarshal into a map: an error, a null document (a nil map), or an object. */
  datatype Decoded = DecodeError(err: string) | DecodedNull | DecodedObject(fields: map<string, JsonValue>)

  /** The `mcp.servers` entry for this server. */
  function CopilotServer(binaryPath: string, projectRoot: string): JsonValue
  {
    JObject(map["command" := JString(binaryPath), "args" := JArray([JString("serve")]),
                "env" := JObject(map["QUINT_PROJECT_ROOT" := JString(projectRoot)])])
  }

  /** Existing settings with every base key they lack added. */
  function WithDefaults(settings: map<string, JsonValue>, base: map<string, JsonValue>): (m: map<string, JsonValue>)
    ensures m.Keys == settings.Keys + base.Keys
    ensures forall k :: k in settings ==> m[k] == settings[k]
    ensures forall k :: k in base && k !in settings ==> m[k] == base[k]
  {
    map k | k in settings.Keys + base.Keys :: if k in settings then settings[k] else base[k]
  }

  /** The existing settings (the base settings when there are none) with the missing base keys added. */
  function MergedSettings(existing: Option<map<string, JsonValue>>, base: map<string, JsonValue>): map<string, JsonValue>
  {
    if existing.None? then base else WithDefaults(existing.value, base)
  }

  /** `mcp.servers` set to its old map, or a new one when it is not a map, with "quint-code" set. */
  function WithQuintServer(settings: map<string, JsonValue>, binaryPath: string, projectRoot: string): map<string, JsonValue>
  {
    var servers := if "mcp.servers" in settings && settings["mcp.servers"].JObject? then settings["mcp.servers"].fields else map[];
    settings["mcp.servers" := JObject(servers["quint-code" := CopilotServer(binaryPath, projectRoot)])]
  }

  /** The settings configureMCPCopilot writes. */
  function CopilotSettings(existing: Option<map<string, JsonValue>>, base: map<string, JsonValue>,
                           binaryPath: string, projectRoot: string): map<string, JsonValue>
  {
    WithQuintServer(MergedSettings(existing, base), binaryPath, projectRoot)
  }

  /** The existing settings as the merge sees them: none for a missing file or a null document. */
  function LoadedSettings(file: Option<string>, decode: string -> Decoded): Option<map<string, JsonValue>>
  {
    if file.Some? && decode(CleanJson(file.value)).DecodedObject? then Some(decode(CleanJson(file.value)).fields)
    else None
  }

  /** The `for k, v := range baseSettings` loop: insert each base key the settings lack. */
  method AddMissing(settings: map<string, JsonValue>, base: map<string, JsonValue>) returns (merged: map<string, JsonValue>)
    ensures merged == WithDefaults(settings, base)
  {
    merged := settings;
    var keys := base.Keys;
    while keys != {}
      invariant keys <= base.Keys
      invariant merged.Keys == settings.Keys + (base.Keys - keys)
      invariant forall k :: k in settings ==> merged[k] == settings[k]
      invariant forall k :: k in base.Keys - keys && k !in settings ==> merged[k] == base[k]
      decreases keys
    {
      var k :| k in keys;
      if k !in merged {
        merged := merged[k := base[k]];
      }
      keys := keys - {k};
    }
  }

  /** Reading settings.json: None when it is missing or holds null, its
      object otherwise, or the error of an undecodable file. */
  method LoadSettings(file: Option<string>, decode: string -> Decoded) returns (r: Result<Option<map<string, JsonValue>>>)
    ensures r.Failure? <==> file.Some? && decode(CleanJson(file.value)).DecodeError?
    ensures r.Failure? ==> r.error == "existing settings.json is not valid JSON: " + decode(CleanJson(file.value)).err
    ensures r.Success? ==> r.value == LoadedSettings(file, decode)
  {
    if file.None? {
      return Success(None);
    }
    var cleaned := RemoveJsonComments(file.value);
    var d := decode(cleaned);
    if d.DecodeError? {
      return Failure("existing settings.json is not valid JSON: " + d.err);
    }
    if d.DecodedObject? {
      r := Success(Some(d.fields));
    } else {
      r := Success(None);
    }
  }

  /** The settings part of configureMCPCopilot: read settings.json (None when
      missing), strip comments, decode, merge. The base settings are the decoded
      template; the writes of settings.json, extensions.json and
      copilot-instructions.md are not part of this model. */
  method MergeCopilotSettings(file: Option<string>, decode: string -> Decoded, base: map<string, JsonValue>,
                              binaryPath: string, projectRoot: string) returns (r: Result<map<string, JsonValue>>)
    ensures r.Failure? <==> file.Some? && decode(CleanJson(file.value)).DecodeError?
    ensures r.Failure? ==> r.error == "existing settings.json is not valid JSON: " + decode(CleanJson(file.value)).err
    ensures r.Success? ==> r.value == CopilotSettings(LoadedSettings(file, decode), base, binaryPath, projectRoot)
  {
    var loaded := LoadSettings(file, decode);
    if loaded.Failure? {
      return Failure(loaded.error);
    }
    var settings := loaded.value;
    var merged: map<string, JsonValue>;
    if settings.None? {
      merged := base;
    } else {
      merged := AddMissing(settings.value, base);
    }
    merged := AddQuintServer(merged, binaryPath, projectRoot);
    r := Success(merged);
  }

  /** The `mcp.servers` update of configureMCPCopilot. */
  method AddQuintServer(settings: map<string, JsonValue>, binaryPath: string, projectRoot: string)
    returns (updated: map<string, JsonValue>)
    ensures updated == WithQuintServer(settings, binaryPath, projectRoot)
  {
    var servers: map<string, JsonValue> := map[];
    if "mcp.servers" in settings && settings["mcp.servers"].JObject? {
      servers := settings["mcp.servers"].fields;
    }
    servers := servers["quint-code" := CopilotServer(binaryPath, projectRoot)];
    updated := settings["mcp.servers" := JObject(servers)];
  }

  // ---------------------------------------------------------------------------
  // Tool selection in runInit

  /** The clients init can configure. */
  datatype Client = Claude | Cursor | Gemini | Codex | Copilot

  /** One thing runInit does for a selected client, in order: write its MCP
      configuration, or install its slash commands (locally or globally). */
  datatype SetupStep = Configure(client: Client) | Install(client: Client, local: bool)

  /** The extra fields each client's mergeMCPConfig call passes. */
  function ExtraFields(c: Client): map<string, ExtraValue>
  {
    if c == Gemini then map["timeout" := IntValue(30000)] else map[]
  }

  /** getBinaryPath with its fallback: the resolved path, or "quint-code" when it cannot be found. */
  function BinaryOrDefault(lookup: Result<string>): (b: string)
    ensures lookup.Failure? ==> b == "quint-code"
    ensures lookup.Success? ==> b == lookup.value
  {
    if lookup.Failure? then "quint-code" else lookup.value
  }

  /** The package-level flags of the init command. */
  class SetupFlags {
    var claude: bool
    var cursor: bool
    var gemini: bool
    var codex: bool
    var copilot: bool
    var all: bool
    var local: bool

    constructor (claude: bool, cursor: bool, gemini: bool, codex: bool, copilot: bool, all: bool, local: bool)
      ensures this.claude == claude && this.cursor == cursor && this.gemini == gemini && this.codex == codex
      ensures this.copilot == copilot && this.all == all && this.local == local
    {
      this.claude, this.cursor, this.gemini, this.codex := claude, cursor, gemini, codex;
      this.copilot, this.all, this.local := copilot, all, local;
    }

    predicate AnySelected()
      reads this
    {
      claude || cursor || gemini || codex || copilot
    }

    /** The defaulting of runInit: `--all` selects every client; with none selected, Claude is. */
    method ApplyDefaults()
      modifies this`claude, this`cursor, this`gemini, this`codex, this`copilot
      ensures AnySelected()
      ensures old(all) ==> claude && cursor && gemini && codex && copilot
      ensures !old(all) && old(AnySelected()) ==>
        claude == old(claude) && cursor == old(cursor) && gemini == old(gemini) && codex == old(codex) && copilot == old(copilot)
      ensures !old(all) && !old(AnySelected()) ==> claude && !cursor && !gemini && !codex && !copilot
    {
      if all {
        claude, cursor, gemini, codex, copilot := true, true, true, true, true;
      }
      if !claude && !cursor && !gemini && !codex && !copilot {
        claude := true;
      }
    }

    /** The configuration steps of runInit, after the defaulting, in order. */
    method RunInit() returns (steps: seq<SetupStep>)
      modifies this`claude, this`cursor, this`gemini, this`codex, this`copilot
      ensures steps == Plan(old(Selection(all, claude, cursor, gemini, codex, copilot)), local)
      ensures Selection(all, claude, cursor, gemini, codex, copilot) == Defaulted(old(Selection(all, claude, cursor, gemini, codex, copilot)))
    {
      ghost var d := Defaulted(Selection(all, claude, cursor, gemini, codex, copilot));
      ApplyDefaults();
      assert claude == d.claude && cursor == d.cursor && gemini == d.gemini && codex == d.codex && copilot == d.copilot;
      steps := [];
      if claude {
        steps := steps + [Configure(Claude), Install(Claude, local)];
      }
      assert steps == StepsFor(Claude, d.claude, local);
      if cursor {
        steps := steps + [Configure(Cursor), Install(Cursor, local)];
      }
      assert steps == StepsFor(Claude, d.claude, local) + StepsFor(Cursor, d.cursor, local);
      if gemini {
        steps := steps + [Configure(Gemini), Install(Gemini, local)];
      }
      ghost var three := steps;
      assert three == StepsFor(Claude, d.claude, local) + StepsFor(Cursor, d.cursor, local) + StepsFor(Gemini, d.gemini, local);
      if codex {
        steps := steps + [Configure(Codex), Install(Codex, false)];
      }
      assert steps == three + StepsFor(Codex, d.codex, local);
      if copilot {
        steps := steps + [Configure(Copilot)];
      }
      assert steps == three + StepsFor(Codex, d.codex, local) + StepsFor(Copilot, d.copilot, local);
    }
  }

  /** The five client flags with `--all`. */
  datatype Selection = Selection(all: bool, claude: bool, cursor: bool, gemini: bool, codex: bool, copilot: bool)

  /** The selection after the defaulting: everything with `--all`, Claude when nothing is chosen. */
  function Defaulted(s: Selection): (d: Selection)
  {
    var t := if s.all then Selection(true, true, true, true, true, true) else s;
    if !t.claude && !t.cursor && !t.gemini && !t.codex && !t.copilot then t.(claude := true) else t
  }

  /** The steps for one client when it is selected. */
  function StepsFor(c: Client, selected: bool, local: bool): seq<SetupStep>
  {
    if !selected then []
    else if c == Copilot then [Configure(Copilot)]
    else [Configure(c), Install(c, if c == Codex then false else local)]
  }

  /** runInit's steps for the given flags. */
  function Plan(s: Selection, local: bool): seq<SetupStep>
  {
    var d := Defaulted(s);
    StepsFor(Claude, d.claude, local) + StepsFor(Cursor, d.cursor, local) + StepsFor(Gemini, d.gemini, local)
    + StepsFor(Codex, d.codex, local) + StepsFor(Copilot, d.copilot, local)
  }
}
