/**
 * What the dashboard shows and which handler each button press reaches.
 * The widget tree is reduced to the panel in the result area: a menu of
 * buttons, a form of inputs and buttons, or text. The sidebar is always shown.
 */
module Navigation {
  import opened Commands

  datatype Menu = SystemMenu | GraphMenu | ProfileMenu

  /** The forms; the export menu counts as one, since it holds an input. */
  datatype Form =
    | CreateEntityForm
    | SearchForm
    | ImportForm
    | ExploreForm
    | ReflectForm
    | ProfileUpdateForm
    | PreferenceForm
    | ExportForm

  /** The content of the result area. */
  datatype Panel =
    | Welcome                                          // "Results will appear here..."
    | MenuPanel(menu: Menu)
    | FormPanel(form: Form, values: map<string, string>)
    | Output(text: string)                             // the result text, shown literally
    | Summary(lines: seq<string>)                      // the list-entities lines
    | Fault                                            // emptied by a handler that then raised

  /** The sidebar's button ids, in mount order. */
  function Sidebar(): (ids: seq<string>)
    ensures |ids| == 8
  {
    ["btn-system", "btn-profile", "btn-create-entity", "btn-search",
     "btn-graph", "btn-export", "btn-import", "btn-list"]
  }

  /** The button ids a menu mounts, in mount order. */
  function MenuButtons(m: Menu): (ids: seq<string>)
    ensures |ids| == if m == SystemMenu then 3 else 4
  {
    match m
    case SystemMenu => ["btn-sys-health", "btn-sys-metrics", "btn-sys-reflect"]
    case GraphMenu => ["btn-graph-pagerank", "btn-graph-communities", "btn-graph-summarize", "btn-graph-explore"]
    case ProfileMenu => ["btn-profile-show", "btn-profile-update", "btn-profile-add-pref", "btn-profile-reset"]
  }

  /** The button ids a form mounts, in mount order. */
  function FormButtons(f: Form): (ids: seq<string>)
    ensures |ids| == if f == SearchForm then 2 else if f == ExportForm then 3 else 1
  {
    match f
    case CreateEntityForm => ["btn-submit-entity"]
    case SearchForm => ["btn-submit-search", "btn-submit-agentic"]
    case ImportForm => ["btn-submit-import"]
    case ExploreForm => ["btn-submit-explore"]
    case ReflectForm => ["btn-submit-reflect"]
    case ProfileUpdateForm => ["btn-submit-profile-update"]
    case PreferenceForm => ["btn-submit-profile-pref"]
    case ExportForm => ["btn-export-json", "btn-export-md", "btn-export-obsidian"]
  }

  /** The input ids a form mounts, in mount order. */
  function FormInputs(f: Form): (ids: seq<string>)
    ensures 1 <= |ids| <= 3
  {
    match f
    case CreateEntityForm => ["input-name", "input-type", "input-metadata"]
    case SearchForm => ["input-search-query", "input-search-limit"]
    case ImportForm => ["input-import-file", "input-import-format"]
    case ExploreForm => ["input-explore-start", "input-explore-hops"]
    case ReflectForm => ["input-reflect-id"]
    case ProfileUpdateForm => ["input-profile-name", "input-profile-type", "input-profile-metadata"]
    case PreferenceForm => ["input-pref-text", "input-pref-metadata"]
    case ExportForm => ["input-export-file"]
  }

  /** A freshly mounted form: every input empty. */
  function Blank(f: Form): (values: map<string, string>)
    ensures values.Keys == set k | k in FormInputs(f)
    ensures forall k :: k in values ==> values[k] == ""
  {
    map k | k in FormInputs(f) :: ""
  }

  /** Every button on screen: the sidebar and the panel's own. */
  function ShownButtons(p: Panel): seq<string> {
    Sidebar() + match p
              case MenuPanel(m) => MenuButtons(m)
              case FormPanel(f, _) => FormButtons(f)
              case _ => []
  }

  /** No two buttons on one screen share an id, as Textual demands of mounted widgets. */
  lemma ScreenIdsDistinct(p: Panel)
    ensures forall i, j :: 0 <= i < j < |ShownButtons(p)| ==> ShownButtons(p)[i] != ShownButtons(p)[j]
  {
    match p
    case MenuPanel(m) =>
    case FormPanel(f, _) =>
    case _ =>
  }

  /** No two inputs of one form share an id. */
  lemma FormInputIdsDistinct(f: Form)
    ensures forall i, j :: 0 <= i < j < |FormInputs(f)| ==> FormInputs(f)[i] != FormInputs(f)[j]
  {
    match f
    case CreateEntityForm =>
    case SearchForm =>
    case ImportForm =>
    case ExploreForm =>
    case ReflectForm =>
    case ProfileUpdateForm =>
    case PreferenceForm =>
    case ExportForm =>
  }

  /** Every input id a form mounts is an `input-` id. */
  lemma FormInputIdsPrefixed(f: Form)
    ensures forall id :: id in FormInputs(f) ==> |id| > 6 && id[..6] == "input-"
  {
    match f
    case CreateEntityForm =>
    case SearchForm =>
    case ImportForm =>
    case ExploreForm =>
    case ReflectForm =>
    case ProfileUpdateForm =>
    case PreferenceForm =>
    case ExportForm =>
  }

  /** Every button a form mounts submits (`btn-submit-`) or exports (`btn-export-`). */
  lemma FormButtonKinds(f: Form)
    ensures forall id :: id in FormButtons(f) ==> |id| > 11 && (id[..11] == "btn-submit-" || id[..11] == "btn-export-")
  {
    match f
    case CreateEntityForm =>
    case SearchForm =>
    case ImportForm =>
    case ExploreForm =>
    case ReflectForm =>
    case ProfileUpdateForm =>
    case PreferenceForm =>
    case ExportForm =>
  }

  /** The form submissions. */
  datatype Request =
    | CreateEntity
    | Search(kind: SearchKind)
    | Import
    | Explore
    | Reflect
    | ProfileUpdate
    | AddPreference

  /** The form a submission's button sits on. */
  function RequestForm(r: Request): Form {
    match r
    case CreateEntity => CreateEntityForm
    case Search(_) => SearchForm
    case Import => ImportForm
    case Explore => ExploreForm
    case Reflect => ReflectForm
    case ProfileUpdate => ProfileUpdateForm
    case AddPreference => PreferenceForm
  }

  /** The input ids a submission handler reads: every input of its form. */
  function RequestInputs(r: Request): (ids: seq<string>)
    ensures ids == FormInputs(RequestForm(r))
  {
    match r
    case CreateEntity => ["input-name", "input-type", "input-metadata"]
    case Search(_) => ["input-search-query", "input-search-limit"]
    case Import => ["input-import-file", "input-import-format"]
    case Explore => ["input-explore-start", "input-explore-hops"]
    case Reflect => ["input-reflect-id"]
    case ProfileUpdate => ["input-profile-name", "input-profile-type", "input-profile-metadata"]
    case AddPreference => ["input-pref-text", "input-pref-metadata"]
  }

  const ExportInput := "input-export-file"

  /** What a button press leads to. */
  datatype Action =
    | OpenMenu(menu: Menu)
    | OpenForm(form: Form)
    | ListEntities
    | RunFixed(command: Fixed)
    | Submit(request: Request)
    | Export(format: ExportFormat)
    | Ignore

  /** on_button_pressed: the button id decides the handler; an id no screen shows does nothing. */
  function Dispatch(id: string): (a: Action)
    ensures id in Sidebar() ==> a.OpenMenu? || a.OpenForm? || a.ListEntities?
    ensures a.Submit? ==> |id| > 11 && id[..11] == "btn-submit-"
  {
    if id == "btn-system" then OpenMenu(SystemMenu)
    else if id == "btn-profile" then OpenMenu(ProfileMenu)
    else if id == "btn-create-entity" then OpenForm(CreateEntityForm)
    else if id == "btn-search" then OpenForm(SearchForm)
    else if id == "btn-graph" then OpenMenu(GraphMenu)
    else if id == "btn-export" then OpenForm(ExportForm)
    else if id == "btn-import" then OpenForm(ImportForm)
    else if id == "btn-list" then ListEntities
    else if id == "btn-sys-health" then RunFixed(Health)
    else if id == "btn-sys-metrics" then RunFixed(Metrics)
    else if id == "btn-sys-reflect" then OpenForm(ReflectForm)
    else if id == "btn-profile-show" then RunFixed(ProfileShow)
    else if id == "btn-profile-update" then OpenForm(ProfileUpdateForm)
    else if id == "btn-profile-add-pref" then OpenForm(PreferenceForm)
    else if id == "btn-profile-reset" then RunFixed(ProfileReset)
    else if id == "btn-submit-entity" then Submit(CreateEntity)
    else if id == "btn-submit-search" then Submit(Search(Standard))
    else if id == "btn-submit-profile-update" then Submit(ProfileUpdate)
    else if id == "btn-submit-profile-pref" then Submit(AddPreference)
    else if id == "btn-submit-import" then Submit(Import)
    else if id == "btn-submit-agentic" then Submit(Search(Agentic))
    else if id == "btn-submit-reflect" then Submit(Reflect)
    else if id == "btn-graph-pagerank" then RunFixed(PageRank)
    else if id == "btn-graph-communities" then RunFixed(Communities)
    else if id == "btn-graph-summarize" then RunFixed(Summarize)
    else if id == "btn-graph-explore" then OpenForm(ExploreForm)
    else if id == "btn-export-json" then Export(JsonFile)
    else if id == "btn-export-md" then Export(MarkdownFile)
    else if id == "btn-export-obsidian" then Export(ObsidianFile)
    else if id == "btn-submit-explore" then Submit(Explore)
    else Ignore
  }

  /** Every button any screen can show. */
  function AllButtons(): seq<string> {
    Sidebar() + MenuButtons(SystemMenu) + MenuButtons(GraphMenu) + MenuButtons(ProfileMenu)
    + FormButtons(CreateEntityForm) + FormButtons(SearchForm) + FormButtons(ImportForm)
    + FormButtons(ExploreForm) + FormButtons(ReflectForm) + FormButtons(ProfileUpdateForm)
    + FormButtons(PreferenceForm) + FormButtons(ExportForm)
  }

  /** The dispatch table handles exactly the buttons the dashboard shows. */
  lemma DispatchCoversShownButtons(id: string)
    ensures Dispatch(id) != Ignore <==> id in AllButtons()
  {
    if id in AllButtons() && id !in Sidebar() {
      if m :| id in MenuButtons(m) {
        MenuButtonsHandled(m, id);
      } else {
        var f :| id in FormButtons(f);
        FormButtonsReadForm(f, id);
      }
    }
  }

  /** A menu's buttons run fixed commands or open forms; they never submit one. */
  lemma MenuButtonsHandled(m: Menu, id: string)
    requires id in MenuButtons(m)
    ensures Dispatch(id).RunFixed? || Dispatch(id).OpenForm?
  {
  }

  /** A form's buttons submit that form (or export from it), reading only inputs it mounts. */
  lemma FormButtonsReadForm(f: Form, id: string)
    requires id in FormButtons(f)
    ensures Dispatch(id).Submit? || Dispatch(id).Export?
    ensures Dispatch(id).Submit? ==> forall k :: k in RequestInputs(Dispatch(id).request) ==> k in FormInputs(f)
    ensures Dispatch(id).Export? ==> ExportInput in FormInputs(f)
  {
    FormButtonSubmitsItsForm(f, id);
  }

  /** A form's buttons submit a request of that form, or export from the export form. */
  lemma FormButtonSubmitsItsForm(f: Form, id: string)
    requires id in FormButtons(f)
    ensures Dispatch(id).Submit? || Dispatch(id).Export?
    ensures Dispatch(id).Submit? ==> RequestForm(Dispatch(id).request) == f
    ensures Dispatch(id).Export? ==> f == ExportForm
  {
    if f == ExportForm {
      ExportButtonsExport(id);
    } else {
      SubmitButtonsSubmit(f, id);
    }
  }

  /** The export form's buttons export. */
  lemma ExportButtonsExport(id: string)
    requires id in FormButtons(ExportForm)
    ensures Dispatch(id).Export?
  {
  }

  /** Every other form's buttons submit a request of that form. */
  lemma SubmitButtonsSubmit(f: Form, id: string)
    requires f != ExportForm && id in FormButtons(f)
    ensures Dispatch(id).Submit? && RequestForm(Dispatch(id).request) == f
  {
    match f
    case CreateEntityForm =>
    case SearchForm =>
    case ImportForm =>
    case ExploreForm =>
    case ReflectForm =>
    case ProfileUpdateForm =>
    case PreferenceForm =>
  }

  /**
   * A submission is only reachable from its own form, and that form mounts
   * every input the handler reads: no input lookup of a handler can miss.
   * In particular every button on screen reaches a handler.
   */
  lemma SubmitReadsItsForm(p: Panel, id: string)
    requires id in ShownButtons(p)
    ensures Dispatch(id) != Ignore
    ensures Dispatch(id).Submit? ==>
              p.FormPanel? && forall k :: k in RequestInputs(Dispatch(id).request) ==> k in FormInputs(p.form)
    ensures Dispatch(id).Export? ==> p.FormPanel? && ExportInput in FormInputs(p.form)
  {
    if id !in Sidebar() {
      match p
      case MenuPanel(m) =>
        MenuButtonsHandled(m, id);
      case FormPanel(f, _) =>
        FormButtonsReadForm(f, id);
      case _ =>
        assert false;
    }
  }
}
