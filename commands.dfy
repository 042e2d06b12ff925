/**
 * The argument lists the form handlers pass to the backend CLI. Each builder
 * checks the fields the handler requires (a Python string is missing when it
 * is empty) and either names the problem or returns the arguments; an optional
 * flag is appended only when its field is non-empty.
 */
module Commands {
  import opened Wrappers

  /** An optional flag: the pair when the field is non-empty, nothing otherwise. */
  function Optional(flag: string, value: string): seq<string> {
    if value == "" then [] else [flag, value]
  }

  /** handle_create_entity. */
  function CreateEntityArgs(name: string, entityType: string, metadata: string): (r: Result<seq<string>, string>)
    ensures r.Failure? <==> name == "" || entityType == ""
    ensures r.Failure? ==> r.error == "Name and type are required"
    ensures r.Success? ==> |r.value| >= 6 && r.value[..6] == ["entity", "create", "-n", name, "-t", entityType]
    ensures r.Success? ==> (|r.value| == 8 <==> metadata != "") && (|r.value| == 6 <==> metadata == "")
    ensures r.Success? && metadata != "" ==> r.value[6..] == ["-m", metadata]
  {
    if name == "" || entityType == "" then Failure("Name and type are required")
    else Success(["entity", "create", "-n", name, "-t", entityType] + Optional("-m", metadata))
  }

  /** The two search forms share their fields and differ in the subcommand. */
  datatype SearchKind = Standard | Agentic {
    function Subcommand(): string {
      match this
      case Standard => "query"
      case Agentic => "agentic"
    }
  }

  /** handle_search and handle_agentic_search. */
  function SearchArgs(kind: SearchKind, query: string, limit: string): (r: Result<seq<string>, string>)
    ensures r.Failure? <==> query == ""
    ensures r.Failure? ==> r.error == "Search query is required"
    ensures r.Success? ==> |r.value| >= 4 && r.value[..4] == ["search", kind.Subcommand(), "-q", query]
    ensures r.Success? ==> (|r.value| == 6 <==> limit != "") && (|r.value| == 4 <==> limit == "")
    ensures r.Success? && limit != "" ==> r.value[4..] == ["-l", limit]
  {
    if query == "" then Failure("Search query is required")
    else Success(["search", kind.Subcommand(), "-q", query] + Optional("-l", limit))
  }

  const DefaultImportFormat := "cozo"

  /** handle_import: the format defaults to "cozo", so `-f` always carries a non-empty value. */
  function ImportArgs(filePath: string, format: string): (r: Result<seq<string>, string>)
    ensures r.Failure? <==> filePath == ""
    ensures r.Failure? ==> r.error == "File path is required"
    ensures r.Success? ==> |r.value| == 6 && r.value[..5] == ["import", "file", "-i", filePath, "-f"]
    ensures r.Success? ==> r.value[5] != "" && (format != "" ==> r.value[5] == format)
    ensures r.Success? && format == "" ==> r.value[5] == DefaultImportFormat
  {
    if filePath == "" then Failure("File path is required")
    else Success(["import", "file", "-i", filePath, "-f", if format == "" then DefaultImportFormat else format])
  }

  /** handle_graph_explore. */
  function ExploreArgs(startId: string, hops: string): (r: Result<seq<string>, string>)
    ensures r.Failure? <==> startId == ""
    ensures r.Failure? ==> r.error == "Start entity ID is required"
    ensures r.Success? ==> |r.value| >= 4 && r.value[..4] == ["graph", "explore", "-s", startId]
    ensures r.Success? ==> (|r.value| == 6 <==> hops != "") && (|r.value| == 4 <==> hops == "")
    ensures r.Success? && hops != "" ==> r.value[4..] == ["-h", hops]
  {
    if startId == "" then Failure("Start entity ID is required")
    else Success(["graph", "explore", "-s", startId] + Optional("-h", hops))
  }

  /** handle_sys_reflect: nothing is required; an entity id narrows the reflection. */
  function ReflectArgs(entityId: string): (r: seq<string>)
    ensures |r| >= 2 && r[..2] == ["system", "reflect"]
    ensures |r| == 2 <==> entityId == ""
    ensures entityId != "" ==> r[2..] == ["-i", entityId]
  {
    ["system", "reflect"] + Optional("-i", entityId)
  }

  /**
   * handle_profile_update: the flags are appended first and the request is
   * refused afterwards when none was, i.e. when all three fields are empty.
   */
  function ProfileUpdateArgs(name: string, entityType: string, metadata: string): (r: Result<seq<string>, string>)
    ensures r.Failure? <==> name == "" && entityType == "" && metadata == ""
    ensures r.Failure? ==> r.error == "At least one field must be provided"
    ensures r.Success? ==>
              r.value == ["profile", "update"] + Optional("-n", name) + Optional("-t", entityType) + Optional("-m", metadata)
  {
    var args := ["profile", "update"] + Optional("-n", name) + Optional("-t", entityType) + Optional("-m", metadata);
    if |args| == 2 then Failure("At least one field must be provided") else Success(args)
  }

  /** The flag names of a flat list of flag/value pairs, in order. */
  function Flags(pairs: seq<string>): seq<string>
    decreases |pairs|
  {
    if |pairs| < 2 then [] else [pairs[0]] + Flags(pairs[2..])
  }

  /** The value following the first occurrence of `flag` in a flat list of flag/value pairs. */
  function ValueOf(pairs: seq<string>, flag: string): Option<string>
    decreases |pairs|
  {
    if |pairs| < 2 then None
    else if pairs[0] == flag then Some(pairs[1])
    else ValueOf(pairs[2..], flag)
  }

  /**
   * The flags the CLI reads from a profile update come in the order -n, -t,
   * -m, each present exactly when its field is non-empty.
   */
  lemma ProfileUpdateFlags(name: string, entityType: string, metadata: string)
    requires name != "" || entityType != "" || metadata != ""
    ensures var args := ProfileUpdateArgs(name, entityType, metadata).value;
            && args[..2] == ["profile", "update"]
            && Flags(args[2..]) == (if name != "" then ["-n"] else []) + (if entityType != "" then ["-t"] else [])
                                   + (if metadata != "" then ["-m"] else [])
  {
    var args := ProfileUpdateArgs(name, entityType, metadata).value;
    var n, t, m := Optional("-n", name), Optional("-t", entityType), Optional("-m", metadata);
    assert args[2..] == n + (t + m);
    OptionalReads("-n", name, "-n");
    OptionalReads("-t", entityType, "-n");
    OptionalReads("-m", metadata, "-n");
    PairsAppend(n, t + m, "-n");
    PairsAppend(t, m, "-n");
  }

  /**
   * Each field reaches the CLI as the value of its own flag, even when the
   * value itself looks like a flag; an empty field gives no flag at all.
   */
  lemma ProfileUpdateValue(name: string, entityType: string, metadata: string, flag: string, field: string)
    requires name != "" || entityType != "" || metadata != ""
    requires (flag, field) in [("-n", name), ("-t", entityType), ("-m", metadata)]
    ensures var args := ProfileUpdateArgs(name, entityType, metadata).value;
            ValueOf(args[2..], flag) == if field != "" then Some(field) else None
  {
    var args := ProfileUpdateArgs(name, entityType, metadata).value;
    var n, t, m := Optional("-n", name), Optional("-t", entityType), Optional("-m", metadata);
    assert args[2..] == n + (t + m);
    OptionalReads("-n", name, flag);
    OptionalReads("-t", entityType, flag);
    OptionalReads("-m", metadata, flag);
    PairsAppend(n, t + m, flag);
    PairsAppend(t, m, flag);
  }

  /** What reading one optional pair gives. */
  lemma OptionalReads(flag: string, value: string, query: string)
    ensures Flags(Optional(flag, value)) == if value != "" then [flag] else []
    ensures ValueOf(Optional(flag, value), query) == if value != "" && flag == query then Some(value) else None
  {
  }

  /** Reading flags from one optional pair placed before further pairs. */
  lemma PairsAppend(opt: seq<string>, rest: seq<string>, query: string)
    requires opt == [] || |opt| == 2
    ensures Flags(opt + rest) == Flags(opt) + Flags(rest)
    ensures ValueOf(opt + rest, query) == if opt != [] && opt[0] == query then Some(opt[1]) else ValueOf(rest, query)
  {
    if opt != [] {
      assert (opt + rest)[2..] == rest;
      assert opt[2..] == [];
    } else {
      assert opt + rest == rest;
    }
  }

  /** handle_profile_add_pref. */
  function AddPreferenceArgs(text: string, metadata: string): (r: Result<seq<string>, string>)
    ensures r.Failure? <==> text == ""
    ensures r.Failure? ==> r.error == "Preference text is required"
    ensures r.Success? ==> |r.value| >= 4 && r.value[..4] == ["profile", "add-preference", "-t", text]
    ensures r.Success? ==> (|r.value| == 6 <==> metadata != "") && (|r.value| == 4 <==> metadata == "")
    ensures r.Success? && metadata != "" ==> r.value[4..] == ["-m", metadata]
  {
    if text == "" then Failure("Preference text is required")
    else Success(["profile", "add-preference", "-t", text] + Optional("-m", metadata))
  }

  /** The three export buttons. */
  datatype ExportFormat = JsonFile | MarkdownFile | ObsidianFile {
    function Name(): string {
      match this
      case JsonFile => "json"
      case MarkdownFile => "markdown"
      case ObsidianFile => "obsidian"
    }
  }

  const IncludeFlags: seq<string> := ["--include-metadata", "--include-relationships", "--include-observations"]

  /** handle_export: the output path (defaulting to `export.<format>`) and the arguments. */
  function ExportArgs(format: ExportFormat, fileInput: string): (r: (string, seq<string>))
    ensures r.0 == if fileInput == "" then "export." + format.Name() else fileInput
    ensures r.0 != ""
    ensures |r.1| >= 4 && r.1[..4] == ["export", format.Name(), "-o", r.0]
    ensures format.JsonFile? ==> r.1[4..] == IncludeFlags
    ensures !format.JsonFile? ==> |r.1| == 4
  {
    var path := if fileInput == "" then "export." + format.Name() else fileInput;
    match format
    case JsonFile => (path, ["export", "json", "-o", path] + IncludeFlags)
    case MarkdownFile => (path, ["export", "markdown", "-o", path])
    case ObsidianFile => (path, ["export", "obsidian", "-o", path])
  }

  /** The actions that run a fixed command without a form. */
  datatype Fixed = Health | Metrics | PageRank | Communities | Summarize | ProfileShow | ProfileReset

  function FixedArgs(c: Fixed): (r: seq<string>)
    ensures |r| == 2
    ensures r[0] == (if c.Health? || c.Metrics? then "system"
                     else if c.ProfileShow? || c.ProfileReset? then "profile" else "graph")
  {
    match c
    case Health => ["system", "health"]
    case Metrics => ["system", "metrics"]
    case PageRank => ["graph", "pagerank"]
    case Communities => ["graph", "communities"]
    case Summarize => ["graph", "summarize"]
    case ProfileShow => ["profile", "show"]
    case ProfileReset => ["profile", "reset"]
  }

  /** The fixed commands are pairwise distinct: no two buttons run the same command. */
  lemma FixedArgsInjective(c: Fixed, d: Fixed)
    requires FixedArgs(c) == FixedArgs(d)
    ensures c == d
  {
  }
}
