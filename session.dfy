/**
 * The dashboard object: where the CLI was found at start-up, what the
 * result area shows, and what one button press does to it. Every press is
 * handled to completion before the next, and runs at most one command.
 */
module Session {
  import opened Wrappers
  import opened JsonValue
  import opened Locator
  import opened Invoker
  import opened Rendering
  import opened Commands
  import opened Navigation

  /** The value of an input widget; every input a handler reads is mounted (Navigation.SubmitReadsItsForm). */
  function Field(values: map<string, string>, key: string): string {
    if key in values then values[key] else ""
  }

  /** The fields a submission cannot do without: it is refused exactly when this holds. */
  predicate Missing(r: Request, values: map<string, string>) {
    match r
    case CreateEntity => Field(values, "input-name") == "" || Field(values, "input-type") == ""
    case Search(_) => Field(values, "input-search-query") == ""
    case Import => Field(values, "input-import-file") == ""
    case Explore => Field(values, "input-explore-start") == ""
    case Reflect => false
    case ProfileUpdate =>
      Field(values, "input-profile-name") == "" && Field(values, "input-profile-type") == ""
      && Field(values, "input-profile-metadata") == ""
    case AddPreference => Field(values, "input-pref-text") == ""
  }

  /** The CLI command group and subcommand a submission runs. */
  function CommandPath(r: Request): seq<string> {
    match r
    case CreateEntity => ["entity", "create"]
    case Search(kind) => ["search", kind.Subcommand()]
    case Import => ["import", "file"]
    case Explore => ["graph", "explore"]
    case Reflect => ["system", "reflect"]
    case ProfileUpdate => ["profile", "update"]
    case AddPreference => ["profile", "add-preference"]
  }

  /** The arguments a submission runs, read from its form's inputs, or the validation message. */
  function Prepare(r: Request, values: map<string, string>): (res: Result<seq<string>, string>)
    ensures res.Failure? <==> Missing(r, values)
    ensures res.Success? ==> |res.value| >= 2 && res.value[..2] == CommandPath(r)
  {
    match r
    case CreateEntity =>
      CreateEntityArgs(Field(values, "input-name"), Field(values, "input-type"), Field(values, "input-metadata"))
    case Search(kind) =>
      SearchArgs(kind, Field(values, "input-search-query"), Field(values, "input-search-limit"))
    case Import =>
      ImportArgs(Field(values, "input-import-file"), Field(values, "input-import-format"))
    case Explore =>
      ExploreArgs(Field(values, "input-explore-start"), Field(values, "input-explore-hops"))
    case Reflect =>
      Success(ReflectArgs(Field(values, "input-reflect-id")))
    case ProfileUpdate =>
      ProfileUpdateArgs(Field(values, "input-profile-name"), Field(values, "input-profile-type"),
                        Field(values, "input-profile-metadata"))
    case AddPreference =>
      AddPreferenceArgs(Field(values, "input-pref-text"), Field(values, "input-pref-metadata"))
  }

  /** A submission depends on nothing but the inputs its handler reads. */
  lemma PrepareReadsOnlyItsInputs(r: Request, values: map<string, string>, other: map<string, string>)
    requires forall k :: k in RequestInputs(r) ==> Field(values, k) == Field(other, k)
    ensures Prepare(r, values) == Prepare(r, other)
  {
    match r
    case CreateEntity =>
      assert "input-name" in RequestInputs(r) && "input-type" in RequestInputs(r) && "input-metadata" in RequestInputs(r);
    case Search(_) =>
      assert "input-search-query" in RequestInputs(r) && "input-search-limit" in RequestInputs(r);
    case Import =>
      assert "input-import-file" in RequestInputs(r) && "input-import-format" in RequestInputs(r);
    case Explore =>
      assert "input-explore-start" in RequestInputs(r) && "input-explore-hops" in RequestInputs(r);
    case Reflect =>
      assert "input-reflect-id" in RequestInputs(r);
    case ProfileUpdate =>
      assert "input-profile-name" in RequestInputs(r) && "input-profile-type" in RequestInputs(r)
        && "input-profile-metadata" in RequestInputs(r);
    case AddPreference =>
      assert "input-pref-text" in RequestInputs(r) && "input-pref-metadata" in RequestInputs(r);
  }

  /**
   * Submitting a form with every input empty (as it is right after it is
   * opened) is refused, except the reflection, which then runs globally.
   */
  lemma EmptySubmission(r: Request, values: map<string, string>)
    requires forall k :: k in values ==> values[k] == ""
    ensures Prepare(r, values).Failure? <==> !r.Reflect?
    ensures r.Reflect? ==> Prepare(r, values) == Success(["system", "reflect"])
  {
    assert forall k :: Field(values, k) == "";
    if r.Reflect? {
      assert ReflectArgs("") == ["system", "reflect"];
    }
  }

  /** handle_export's post-processing: a success shows where the export went, not the CLI's output. */
  function ExportReply(reply: Reply, path: string): (r: Reply)
    ensures reply.Failed? ==> r == reply
    ensures r.Succeeded? <==> reply.Succeeded?
    ensures r.Succeeded? ==> r.data == Object([("message", Str("Exported to " + path))])
    ensures r.Succeeded? ==> Lookup(r.data.members, "message") == Some(Str("Exported to " + path))
  {
    if reply.Succeeded? then Succeeded(Object([("message", Str("Exported to " + path))])) else reply
  }

  /** An export that exits 0 shows the same text whatever the CLI printed. */
  lemma ExportHidesOutput(path: string, out1: string, err1: string, out2: string, err2: string, lib: Library)
    ensures Display(ExportReply(Classify(Exited(0, out1, err1), false, lib), path), lib)
         == Display(ExportReply(Classify(Exited(0, out2, err2), false, lib), path), lib)
  {
  }

  /** A health count as shown: the formatted value of the key, or 0 when the key is missing. */
  function Count(data: Json, key: string, lib: Library): (r: string)
    requires data.Object?
    ensures (forall v :: (key, v) !in data.members) ==> r == "0"
    ensures (exists v :: (key, v) in data.members) ==> exists v :: (key, v) in data.members && r == Text(v, lib)
  {
    match Lookup(data.members, key)
    case Some(v) => Text(v, lib)
    case None => "0"
  }

  /** The closing hint of the entity list. */
  const CliHint := "\nUse CLI to get detailed entity list:\ncozo-memory entity get -i <entity-id>"

  /** action_list_entities: the health counts, or the error; a non-dict payload makes the count lookup raise. */
  function HealthPanel(reply: Reply, lib: Library): (p: Panel)
    ensures p.Fault? <==> reply.Succeeded? && !reply.data.Object?
    ensures reply.Failed? ==> p == Summary(["Error: " + reply.message])
    ensures reply.Succeeded? && reply.data.Object? ==>
              p == Summary([
                     "Total Entities: " + Count(reply.data, "entities", lib),
                     "Total Observations: " + Count(reply.data, "observations", lib),
                     "Total Relationships: " + Count(reply.data, "relationships", lib),
                     CliHint])
  {
    match reply
    case Failed(m) => Summary(["Error: " + m])
    case Succeeded(data) =>
      if data.Object? then
        Summary([
          "Total Entities: " + Count(data, "entities", lib),
          "Total Observations: " + Count(data, "observations", lib),
          "Total Relationships: " + Count(data, "relationships", lib),
          CliHint])
      else Fault
  }

  class Dashboard {
    /** The CLI script found at start-up. */
    var cliPath: string
    /** What the result area shows. */
    var panel: Panel

    /** A mounted form holds exactly its own inputs. */
    ghost predicate Valid()
      reads this
    {
      panel.FormPanel? ==> panel.values.Keys == set k | k in FormInputs(panel.form)
    }

    /** Start-up: locate the CLI among the install-relative and working-directory candidates. */
    constructor (installRoot: string, cwd: string, present: string -> bool)
      ensures Valid() && panel == Welcome
      ensures cliPath == Locate(Candidates(installRoot, cwd), present)
    {
      var path := FindCliPath(Candidates(installRoot, cwd), present);
      cliPath := path;
      panel := Welcome;
    }

    /** The user types into an input of the mounted form; nothing is checked until submission. */
    method Edit(key: string, value: string)
      requires Valid() && panel.FormPanel? && key in FormInputs(panel.form)
      modifies this
      ensures Valid() && cliPath == old(cliPath)
      ensures panel == FormPanel(old(panel).form, old(panel).values[key := value])
    {
      panel := FormPanel(panel.form, panel.values[key := value]);
    }

    /**
     * on_button_pressed with the handler it reaches. `run` gives the outcome
     * of running a command line; `ran` is the command line run, if any.
     */
    method Press(id: string, lib: Library, run: seq<string> -> Outcome) returns (ran: Option<seq<string>>)
      requires Valid() && id in ShownButtons(panel)
      modifies this
      ensures Valid() && cliPath == old(cliPath)
      ensures match Dispatch(id)
        case Ignore => ran.None? && panel == old(panel)
        case OpenMenu(m) => ran.None? && panel == MenuPanel(m)
        case OpenForm(f) => ran.None? && panel == FormPanel(f, Blank(f))
        case ListEntities =>
          var cmd := Command(cliPath, FixedArgs(Health), true);
          ran == Some(cmd) && panel == HealthPanel(Classify(run(cmd), true, lib), lib)
        case RunFixed(c) =>
          var cmd := Command(cliPath, FixedArgs(c), true);
          ran == Some(cmd) && panel == Output(Display(Classify(run(cmd), true, lib), lib))
        case Submit(q) =>
          && old(panel).FormPanel?
          && (forall k :: k in RequestInputs(q) ==> k in old(panel).values)
          && (match Prepare(q, old(panel).values)
              case Failure(m) => ran.None? && panel == Output(Display(Failed(m), lib))
              case Success(args) =>
                var cmd := Command(cliPath, args, !q.Import?);
                ran == Some(cmd) && panel == Output(Display(Classify(run(cmd), !q.Import?, lib), lib)))
        case Export(fmt) =>
          && old(panel).FormPanel?
          && ExportInput in old(panel).values
          && var (path, args) := ExportArgs(fmt, Field(old(panel).values, ExportInput));
             var cmd := Command(cliPath, args, false);
             ran == Some(cmd) && panel == Output(Display(ExportReply(Classify(run(cmd), false, lib), path), lib))
    {
      SubmitReadsItsForm(panel, id);
      match Dispatch(id) {
        case Ignore =>
          ran := None;
        case OpenMenu(m) =>
          ran := None;
          panel := MenuPanel(m);
        case OpenForm(f) =>
          ran := None;
          panel := FormPanel(f, Blank(f));
        case ListEntities =>
          var cmd := Command(cliPath, FixedArgs(Health), true);
          ran := Some(cmd);
          panel := HealthPanel(Classify(run(cmd), true, lib), lib);
        case RunFixed(c) =>
          var cmd := Command(cliPath, FixedArgs(c), true);
          ran := Some(cmd);
          panel := Output(Display(Classify(run(cmd), true, lib), lib));
        case Submit(q) =>
          match Prepare(q, panel.values) {
            case Failure(m) =>
              ran := None;
              panel := Output(Display(Failed(m), lib));
            case Success(args) =>
              var cmd := Command(cliPath, args, !q.Import?);
              ran := Some(cmd);
              panel := Output(Display(Classify(run(cmd), !q.Import?, lib), lib));
          }
        case Export(fmt) =>
          var (path, args) := ExportArgs(fmt, Field(panel.values, ExportInput));
          var cmd := Command(cliPath, args, false);
          ran := Some(cmd);
          panel := Output(Display(ExportReply(Classify(run(cmd), false, lib), path), lib));
      }
    }
  }
}
