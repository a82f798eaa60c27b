/** What the setup transformations promise: the comment stripper's output
    lines, its idempotence, the Codex splice's re-run stability, the merges'
    preservation of existing entries, and the tool selection. */
module SetupProperties {

  import opened Wrappers
  import opened Json
  import opened Text
  import opened Setup

  // ---------------------------------------------------------------------------
  // removeJSONComments

  /** A line as the loop keeps it: one line, no "//", not blank. */
  ghost predicate Tidy(line: string)
  {
    SingleLine(line) && Absent(line, "//") && !Blank(line)
  }

  /** Every kept line is a single line without "//" and with something other than white space. */
  lemma KeptLinesShape(lines: seq<string>)
    requires forall k :: 0 <= k < |lines| ==> SingleLine(lines[k])
    ensures forall k :: 0 <= k < |KeptLines(lines)| ==>
      var line := KeptLines(lines)[k];
      SingleLine(line) && Absent(line, "//") && !Blank(line)
  {
    KeptPrefixShape(lines, |lines|);
  }

  lemma {:induction false} KeptPrefixShape(lines: seq<string>, n: nat)
    requires n <= |lines|
    requires forall k :: 0 <= k < |lines| ==> SingleLine(lines[k])
    ensures forall k :: 0 <= k < |KeptPrefix(lines, n)| ==> Tidy(KeptPrefix(lines, n)[k])
  {
    if n > 0 {
      KeptPrefixShape(lines, n - 1);
      var cut := StripComment(lines[n - 1]);
      var extra := if Blank(cut) then [] else [cut];
      CutIsTidy(lines[n - 1]);
      TidyConcat(KeptPrefix(lines, n - 1), extra);
    }
  }

  /** A single line cut at "//" is tidy unless it is blank. */
  lemma CutIsTidy(line: string)
    requires SingleLine(line)
    ensures !Blank(StripComment(line)) ==> Tidy(StripComment(line))
  {
    var cut := StripComment(line);
    assert SingleLine(cut) by {
      forall i | 0 <= i < |cut| ensures cut[i] != '\n' {
        assert cut[i] == line[i];
      }
    }
  }

  lemma TidyConcat(a: seq<string>, b: seq<string>)
    requires forall k :: 0 <= k < |a| ==> Tidy(a[k])
    requires forall k :: 0 <= k < |b| ==> Tidy(b[k])
    ensures forall k :: 0 <= k < |a + b| ==> Tidy((a + b)[k])
  {
  }

  /** Lines that are already clean are kept as they are. */
  lemma CleanLinesKept(lines: seq<string>)
    requires forall k :: 0 <= k < |lines| ==> StripComment(lines[k]) == lines[k] && !Blank(lines[k])
    ensures KeptLines(lines) == lines
  {
    CleanPrefixKept(lines, |lines|);
    TakeAll(lines);
  }

  lemma {:induction false} CleanPrefixKept(lines: seq<string>, n: nat)
    requires n <= |lines|
    requires forall k :: 0 <= k < |lines| ==> StripComment(lines[k]) == lines[k] && !Blank(lines[k])
    ensures KeptPrefix(lines, n) == lines[..n]
  {
    if n > 0 {
      CleanPrefixKept(lines, n - 1);
      CleanStep(lines, n);
    }
  }

  lemma CleanStep(lines: seq<string>, n: nat)
    requires 0 < n <= |lines|
    requires StripComment(lines[n - 1]) == lines[n - 1] && !Blank(lines[n - 1])
    requires KeptPrefix(lines, n - 1) == lines[..n - 1]
    ensures KeptPrefix(lines, n) == lines[..n]
  {
    TakeOneMore(lines, n - 1);
  }

  /** The output never contains "//", not even across the joined line breaks. */
  lemma NoCommentMarker(data: string)
    ensures Absent(CleanJson(data), "//")
  {
    var kept := KeptLines(SplitLines(data));
    KeptLinesShape(SplitLines(data));
    JoinAbsent(kept, "//");
  }

  /** The output is empty exactly when no line is kept; otherwise its lines are,
      in order, the kept lines, and none of them is blank. */
  lemma OutputLines(data: string)
    ensures CleanJson(data) == "" <==> KeptLines(SplitLines(data)) == []
    ensures CleanJson(data) != "" ==> SplitLines(CleanJson(data)) == KeptLines(SplitLines(data))
    ensures CleanJson(data) != "" ==>
      forall k :: 0 <= k < |SplitLines(CleanJson(data))| ==> !Blank(SplitLines(CleanJson(data))[k])
  {
    var kept := KeptLines(SplitLines(data));
    KeptLinesShape(SplitLines(data));
    if kept != [] {
      SplitJoin(kept);
      assert kept[0] != "" by {
        assert !Blank(kept[0]);
      }
      if |kept| == 1 {
        assert JoinLines(kept) == kept[0];
      } else {
        assert JoinLines(kept) == kept[0] + "\n" + JoinLines(kept[1..]);
      }
    }
  }

  /** Stripping twice is stripping once. */
  lemma CleanIdempotent(data: string)
    ensures CleanJson(CleanJson(data)) == CleanJson(data)
  {
    var out := CleanJson(data);
    var kept := KeptLines(SplitLines(data));
    OutputLines(data);
    if kept == [] {
      assert SplitLines("") == [""];
      assert KeptPrefix([""], 1) == [];
    } else {
      KeptLinesShape(SplitLines(data));
      CleanLinesKept(kept);
    }
  }

  /** The cut also hits "//" inside a JSON string: the string "a://b" loses everything after its scheme. */
  lemma UrlValueIsCut()
    ensures StripComment("\"a://b\"") == "\"a:"
  {
    var line := "\"a://b\"";
    OccursPair(line, "//", 0);
    OccursPair(line, "//", 1);
    OccursPair(line, "//", 2);
    OccursPair(line, "//", 3);
    IndexOfIs(line, "//", 3);
    assert line[..3] == "\"a:";
  }

  // ---------------------------------------------------------------------------
  // The Codex splice

  /** Without the header, only the trailing line breaks go and the section is appended. */
  lemma SpliceWithoutHeader(existing: string, binaryPath: string, projectRoot: string)
    requires Absent(existing, CodexHeader)
    ensures SpliceCodexConfig(existing, binaryPath, projectRoot)
            == TrimRightNewlines(existing) + CodexSection(binaryPath, projectRoot)
  {
  }

  /** No line break is followed by '['. */
  predicate NoBracketLine(x: string)
  {
    forall i :: 0 <= i < |x| - 1 && x[i] == '\n' ==> x[i + 1] != '['
  }

  lemma NoBracketLineAbsent(x: string)
    requires NoBracketLine(x)
    ensures Absent(x, "\n[")
  {
    forall j ensures !OccursAt(x, "\n[", j) {
      OccursPair(x, "\n[", j);
    }
  }

  lemma NoBracketLineConcat(a: string, b: string)
    requires NoBracketLine(a) && NoBracketLine(b)
    requires a == [] || b == [] || a[|a| - 1] != '\n' || b[0] != '['
    ensures NoBracketLine(a + b)
  {
    var s := a + b;
    forall i | 0 <= i < |s| - 1 && s[i] == '\n' ensures s[i + 1] != '[' {
      if i < |a| - 1 {
        assert s[i] == a[i] && s[i + 1] == a[i + 1];
      } else if i >= |a| {
        assert s[i] == b[i - |a|] && s[i + 1] == b[i + 1 - |a|];
      }
    }
  }

  lemma SingleLineNoBracket(x: string)
    requires SingleLine(x)
    ensures NoBracketLine(x)
  {
    forall i | 0 <= i < |x| - 1 ensures x[i] != '\n' {
      assert x[i] in x;
    }
  }

  lemma HeaderTailNoBracket()
    ensures NoBracketLine(CodexHeader[1..])
  {
    SingleLineNoBracket(CodexHeader[1..]);
  }

  /** The fixed pieces of the section body are free of "\n[". */
  lemma BodyPiecesNoBracket()
    ensures NoBracketLine("command = \"") && NoBracketLine("\"\n") && NoBracketLine("\" }\n")
    ensures NoBracketLine("env = { QUINT_PROJECT_ROOT = \"")
  {
    SingleLineNoBracket("command = \"");
    SingleLineNoBracket("env = { QUINT_PROJECT_ROOT = \"");
  }

  lemma ArgsLineNoBracket()
    ensures NoBracketLine("args = [\"serve\"]\n")
  {
    var line := "args = [\"serve\"]";
    SingleLineNoBracket(line);
    NoBracketLineConcat(line, "\n");
    assert line + "\n" == "args = [\"serve\"]\n";
  }

  /** After its header, the appended section contains no "\n[" when the paths are single lines. */
  lemma SectionTailHasNoBreakBracket(binaryPath: string, projectRoot: string)
    requires SingleLine(binaryPath) && SingleLine(projectRoot)
    ensures Absent(CodexSection(binaryPath, projectRoot)[2..], "\n[")
  {
    var h := CodexHeader;
    var body := CodexBody(binaryPath, projectRoot);
    var section := CodexSection(binaryPath, projectRoot);
    assert section[2..] == h[1..] + body by {
      var lead := "\n" + h;
      DropFront(lead, body, 2);
      assert lead[2..] == h[1..];
    }
    HeaderTailNoBracket();
    BodyPiecesNoBracket();
    ArgsLineNoBracket();
    var c1, c2, c3, c4, c5 := "command = \"", "\"\n", "args = [\"serve\"]\n", "env = { QUINT_PROJECT_ROOT = \"", "\" }\n";
    SingleLineNoBracket(binaryPath);
    SingleLineNoBracket(projectRoot);
    NoBracketLineConcat("\n", c1);
    NoBracketLineConcat("\n" + c1, binaryPath);
    NoBracketLineConcat("\n" + c1 + binaryPath, c2);
    NoBracketLineConcat("\n" + c1 + binaryPath + c2, c3);
    NoBracketLineConcat("\n" + c1 + binaryPath + c2 + c3, c4);
    NoBracketLineConcat("\n" + c1 + binaryPath + c2 + c3 + c4, projectRoot);
    NoBracketLineConcat("\n" + c1 + binaryPath + c2 + c3 + c4 + projectRoot, c5);
    assert body == "\n" + c1 + binaryPath + c2 + c3 + c4 + projectRoot + c5;
    NoBracketLineConcat(h[1..], body);
    NoBracketLineAbsent(h[1..] + body);
  }

  /** With at most one header in the file, nothing of the header is left after the removal. */
  lemma RemovalLeavesNoHeader(existing: string)
    requires forall j, k :: OccursAt(existing, CodexHeader, j) && OccursAt(existing, CodexHeader, k) ==> j == k
    ensures Absent(RemoveCodexSection(existing), CodexHeader)
  {
    var h := CodexHeader;
    if !Absent(existing, h) {
      var start := IndexOf(existing, h);
      var end := SectionEnd(existing, start);
      AbsentBefore(existing, h, start);
      assert forall j :: end <= j ==> !OccursAt(existing, h, j) by {
        assert OccursAt(existing, h, start);
      }
      AbsentFrom(existing, h, end);
      OccursPair(existing, "\n[", end);
      AbsentAcrossBreak(existing[..start], existing[end..], h);
    }
  }

  lemma HeaderIsSingleLine()
    ensures |CodexHeader| >= 1 && SingleLine(CodexHeader)
  {
  }

  /** The section is a line break followed by the header. */
  lemma SectionStartsWithHeader(binaryPath: string, projectRoot: string)
    ensures var section := CodexSection(binaryPath, projectRoot);
      |section| >= 1 + |CodexHeader| && section[0] == '\n' && section[1..1 + |CodexHeader|] == CodexHeader
  {
    var lead := "\n" + CodexHeader;
    SliceOfFirst(lead, CodexBody(binaryPath, projectRoot), 1, 1 + |CodexHeader|);
    assert lead[1..1 + |CodexHeader|] == CodexHeader;
  }

  /** The appended section runs to the end of the text. */
  lemma SectionEndsText(t: string, binaryPath: string, projectRoot: string)
    requires SingleLine(binaryPath) && SingleLine(projectRoot)
    ensures SectionEnd(t + CodexSection(binaryPath, projectRoot), |t| + 1) == |t + CodexSection(binaryPath, projectRoot)|
  {
    var section := CodexSection(binaryPath, projectRoot);
    var once := t + section;
    SectionTailHasNoBreakBracket(binaryPath, projectRoot);
    SliceOfSecond(t, section, |t| + 2, |once|);
    assert once[|t| + 2..] == section[2..];
    NoneFrom(once, "\n[", |t| + 2);
  }

  /** Removing the section from a header-free text followed by the section leaves the text and one line break. */
  lemma RemoveAppendedSection(t: string, binaryPath: string, projectRoot: string)
    requires SingleLine(binaryPath) && SingleLine(projectRoot)
    requires Absent(t, CodexHeader)
    ensures RemoveCodexSection(t + CodexSection(binaryPath, projectRoot)) == t + "\n"
  {
    var section := CodexSection(binaryPath, projectRoot);
    var once := t + section;
    HeaderIsSingleLine();
    SectionStartsWithHeader(binaryPath, projectRoot);
    FoundAfterBreak(t, section, CodexHeader);
    SectionEndsText(t, binaryPath, projectRoot);
    SliceOfFirst(t + "\n", section[1..], 0, |t| + 1);
    assert once == (t + "\n") + section[1..];
  }

  /** Running the Codex setup twice writes the same file as running it once,
      when the paths are single lines and the file held at most one header. */
  lemma SpliceIdempotent(existing: string, binaryPath: string, projectRoot: string)
    requires SingleLine(binaryPath) && SingleLine(projectRoot)
    requires forall j, k :: OccursAt(existing, CodexHeader, j) && OccursAt(existing, CodexHeader, k) ==> j == k
    ensures SpliceCodexConfig(SpliceCodexConfig(existing, binaryPath, projectRoot), binaryPath, projectRoot)
            == SpliceCodexConfig(existing, binaryPath, projectRoot)
  {
    var t := TrimRightNewlines(RemoveCodexSection(existing));
    RemovalLeavesNoHeader(existing);
    AbsentPrefix(RemoveCodexSection(existing), CodexHeader, |t|);
    RemoveAppendedSection(t, binaryPath, projectRoot);
    TrimOneNewline(t);
  }

  // ---------------------------------------------------------------------------
  // mergeMCPConfig

  /** Merging into an already merged map changes nothing. */
  lemma MergeServersIdempotent(prior: Option<map<string, McpServer>>, server: McpServer)
    ensures MergeServers(Some(MergeServers(prior, server)), server) == MergeServers(prior, server)
  {
  }

  /** Only the Gemini configuration carries a timeout, of 30000. */
  lemma GeminiTimeout(c: Client)
    ensures ExtraTimeout(ExtraFields(c)) == if c == Gemini then 30000 else 0
  {
  }

  // ---------------------------------------------------------------------------
  // The Copilot settings merge

  /** Existing keys keep their values, missing base keys are added, and only
      `mcp.servers` is replaced. */
  lemma CopilotKeepsExisting(existing: map<string, JsonValue>, base: map<string, JsonValue>,
                             binaryPath: string, projectRoot: string)
    ensures var r := CopilotSettings(Some(existing), base, binaryPath, projectRoot);
      && r.Keys == existing.Keys + base.Keys + {"mcp.servers"}
      && (forall k :: k in existing && k != "mcp.servers" ==> r[k] == existing[k])
      && (forall k :: k in base && k !in existing && k != "mcp.servers" ==> r[k] == base[k])
  {
  }

  /** Without settings (no file, or a null document) the base settings are the starting point. */
  lemma CopilotFromBase(base: map<string, JsonValue>, binaryPath: string, projectRoot: string)
    ensures var r := CopilotSettings(None, base, binaryPath, projectRoot);
      && r.Keys == base.Keys + {"mcp.servers"}
      && forall k :: k in base && k != "mcp.servers" ==> r[k] == base[k]
  {
  }

  /** `mcp.servers` keeps its other entries when it was an object and is a new
      object otherwise; either way "quint-code" holds this server. */
  lemma CopilotServers(existing: Option<map<string, JsonValue>>, base: map<string, JsonValue>,
                       binaryPath: string, projectRoot: string)
    ensures var merged := if existing.Some? then WithDefaults(existing.value, base) else base;
      var r := CopilotSettings(existing, base, binaryPath, projectRoot);
      var wasMap := "mcp.servers" in merged && merged["mcp.servers"].JObject?;
      && "mcp.servers" in r && r["mcp.servers"].JObject?
      && var servers := r["mcp.servers"].fields;
      && "quint-code" in servers && servers["quint-code"] == CopilotServer(binaryPath, projectRoot)
      && (wasMap ==> forall k :: k in merged["mcp.servers"].fields && k != "quint-code" ==>
                       k in servers && servers[k] == merged["mcp.servers"].fields[k])
      && (!wasMap ==> servers.Keys == {"quint-code"})
  {
  }

  /** Merging the parsed settings map the Copilot setup produced yields that same map again
      (a map-level statement: a re-run on the file text first strips comments from it). */
  lemma CopilotIdempotent(existing: Option<map<string, JsonValue>>, base: map<string, JsonValue>,
                          binaryPath: string, projectRoot: string)
    ensures var once := CopilotSettings(existing, base, binaryPath, projectRoot);
      CopilotSettings(Some(once), base, binaryPath, projectRoot) == once
  {
    var once := CopilotSettings(existing, base, binaryPath, projectRoot);
    var again := MergedSettings(Some(once), base);
    assert again == once;
    var servers := once["mcp.servers"].fields;
    assert servers["quint-code" := CopilotServer(binaryPath, projectRoot)] == servers;
  }

  // ---------------------------------------------------------------------------
  // Tool selection

  function Selects(s: Selection, c: Client): bool
  {
    match c
    case Claude => s.claude
    case Cursor => s.cursor
    case Gemini => s.gemini
    case Codex => s.codex
    case Copilot => s.copilot
  }

  /** After the defaulting at least one client is selected; `--all` selects all
      five; an explicit selection without `--all` is kept as it is; with
      nothing selected, Claude alone is. */
  lemma DefaultingSelects(s: Selection)
    ensures exists c :: Selects(Defaulted(s), c)
    ensures s.all ==> forall c :: Selects(Defaulted(s), c)
    ensures !s.all && (exists c :: Selects(s, c)) ==> forall c :: Selects(Defaulted(s), c) == Selects(s, c)
    ensures !s.all && (forall c :: !Selects(s, c)) ==> forall c :: Selects(Defaulted(s), c) <==> c == Claude
  {
    var d := Defaulted(s);
    if d.claude {
      assert Selects(d, Claude);
    } else if d.cursor {
      assert Selects(d, Cursor);
    } else if d.gemini {
      assert Selects(d, Gemini);
    } else if d.codex {
      assert Selects(d, Codex);
    } else {
      assert Selects(d, Copilot);
    }
    if !s.all && (exists c :: Selects(s, c)) {
      var c :| Selects(s, c);
      assert s.claude || s.cursor || s.gemini || s.codex || s.copilot by {
        match c
        case Claude =>
        case Cursor =>
        case Gemini =>
        case Codex =>
        case Copilot =>
      }
    }
    if !s.all && (forall c :: !Selects(s, c)) {
      assert !Selects(s, Claude) && !Selects(s, Cursor) && !Selects(s, Gemini);
      assert !Selects(s, Codex) && !Selects(s, Copilot);
    }
  }

  /** A client's MCP configuration is written exactly when it is selected after the defaulting. */
  lemma ConfiguredIffSelected(s: Selection, local: bool, c: Client)
    ensures Configure(c) in Plan(s, local) <==> Selects(Defaulted(s), c)
  {
    var d := Defaulted(s);
    ConfigureIn(c, Claude, d.claude, local);
    ConfigureIn(c, Cursor, d.cursor, local);
    ConfigureIn(c, Gemini, d.gemini, local);
    ConfigureIn(c, Codex, d.codex, local);
    ConfigureIn(c, Copilot, d.copilot, local);
  }

  lemma ConfigureIn(c: Client, other: Client, selected: bool, local: bool)
    ensures Configure(c) in StepsFor(other, selected, local) <==> selected && c == other
  {
  }

  /** Codex prompts are always installed globally; every other client's commands follow `--local`. */
  lemma CodexAlwaysGlobal(s: Selection, local: bool)
    ensures forall st :: st in Plan(s, local) && st.Install? ==> st.local == (if st.client == Codex then false else local)
    ensures forall st :: st in Plan(s, local) ==> st != Install(Copilot, true) && st != Install(Copilot, false)
  {
    var d := Defaulted(s);
    var p1 := StepsFor(Claude, d.claude, local);
    var p2 := StepsFor(Cursor, d.cursor, local);
    var p3 := StepsFor(Gemini, d.gemini, local);
    var p4 := StepsFor(Codex, d.codex, local);
    var p5 := StepsFor(Copilot, d.copilot, local);
    InstallScoped(Claude, d.claude, local);
    InstallScoped(Cursor, d.cursor, local);
    InstallScoped(Gemini, d.gemini, local);
    InstallScoped(Codex, d.codex, local);
    InstallScoped(Copilot, d.copilot, local);
    ScopedConcat(p1, p2, local);
    ScopedConcat(p1 + p2, p3, local);
    ScopedConcat(p1 + p2 + p3, p4, local);
    ScopedConcat(p1 + p2 + p3 + p4, p5, local);
  }

  /** An install step of Codex is global, one of another client follows `--local`, and Copilot has none. */
  ghost predicate Scoped(st: SetupStep, local: bool)
  {
    && (st.Install? ==> st.local == (if st.client == Codex then false else local))
    && st != Install(Copilot, true) && st != Install(Copilot, false)
  }

  lemma InstallScoped(c: Client, selected: bool, local: bool)
    ensures forall st :: st in StepsFor(c, selected, local) ==> Scoped(st, local)
  {
  }

  lemma ScopedConcat(a: seq<SetupStep>, b: seq<SetupStep>, local: bool)
    requires forall st :: st in a ==> Scoped(st, local)
    requires forall st :: st in b ==> Scoped(st, local)
    ensures forall st :: st in a + b ==> Scoped(st, local)
  {
  }
}
