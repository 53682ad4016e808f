/**
 * The application object of `main.py`: the table that picks a builder for a tool id, the settings
 * menu (hint mode and clearing every template), and the flows that set the current command: building
 * a new one, loading a template and managing templates. Each flow reads the user's lines from
 * `input` at `pos` and gives back where it stopped, or `None` when the input ran out.
 */
module ShadowCaster {
  import opened Wrappers
  import opened Sorting
  import opened Strings
  import opened ConfigLoader
  import opened Display
  import opened CommandBuilder
  import opened ToolBuilders
  import opened BuildSession
  import opened FileManager

  /** The keys of `TOOL_BUILDERS`, the tools that have a builder of their own. */
  const TOOL_IDS: seq<string> := ["nmap", "hydra", "sqlmap", "wpscan", "gobuster", "aircrack"]

  /** The id `TOOL_BUILDERS` files a specialised builder under; the base builder has none. */
  function ToolIdOf(kind: ToolKind): (r: Option<string>)
    ensures r.None? <==> kind == Base
    ensures r.Some? ==> r.value in TOOL_IDS
  {
    match kind
    case Base => None
    case Nmap => Some("nmap")
    case Hydra => Some("hydra")
    case SQLMap => Some("sqlmap")
    case WPScan => Some("wpscan")
    case Gobuster => Some("gobuster")
    case Aircrack => Some("aircrack")
  }

  /**
   * `TOOL_BUILDERS.get(tool_id, CommandBuilder)`: the builder for a tool id, the base one for any id
   * not in the table. The table is one-to-one: the builder picked is the one filed under that id.
   */
  function BuilderFor(toolId: string): (k: ToolKind)
    ensures k == Base <==> toolId !in TOOL_IDS
    ensures k != Base ==> ToolIdOf(k) == Some(toolId)
  {
    if toolId == "nmap" then Nmap
    else if toolId == "hydra" then Hydra
    else if toolId == "sqlmap" then SQLMap
    else if toolId == "wpscan" then WPScan
    else if toolId == "gobuster" then Gobuster
    else if toolId == "aircrack" then Aircrack
    else Base
  }

  /** Every specialised builder is reached from its own id. */
  lemma EveryBuilderReachable(kind: ToolKind)
    requires kind != Base
    ensures BuilderFor(ToolIdOf(kind).value) == kind
  {
  }

  /** `input("Press Enter to continue...")`: one line, whatever it says. */
  function PressEnter(input: seq<string>, pos: nat): (r: Option<nat>)
    requires pos <= |input|
    ensures r.Some? <==> pos < |input|
    ensures r.Some? ==> r.value == pos + 1
  {
    if pos < |input| then Some(pos + 1) else None
  }

  // ---- The tool listing and the build flow

  /** `tools` is what `list_available_tools` returns when the directory yields the files in `order`. */
  ghost predicate ToolListing(dir: ConfigDir, tools: seq<ToolEntry>, order: seq<string>) {
    && (dir.Missing? ==> tools == [])
    && (dir.Present? ==>
          && Enumerates(order, Listed(dir.files))
          && (forall i :: 0 <= i < |order| ==> order[i] in Listed(dir.files))
          && multiset(tools) == multiset(EntriesOf(dir.files, order)))
  }

  /** The id of the tool picked from the menu, if the menu got an answer. */
  function ChosenTool(tools: seq<ToolEntry>, input: seq<string>, pos: nat): (r: Option<string>)
    requires pos <= |input|
    ensures r.Some? <==> tools != [] && ReadSelection(input, pos, |tools|, false).Got?
    ensures r.Some? ==> exists i :: 0 <= i < |tools| && r.value == tools[i].id
  {
    if tools == [] then None
    else
      match ReadSelection(input, pos, |tools|, false)
      case Eof => None
      case Got(ix, _) => Some(tools[ix[0]].id)
  }

  /**
   * `build_command` once the tool `id` is picked: the new current command, if any, and where reading
   * stopped. A descriptor that does not load, a failed build and an empty line leave the command alone.
   */
  function ToolFlow(dir: ConfigDir, id: string, input: seq<string>, p: nat): (r: (Option<string>, nat))
    requires p <= |input|
    ensures p <= r.1 <= |input|
    ensures r.0.Some? ==> r.0.value != ""
  {
    match LoadConfig(dir, id)
    case None => (None, p)
    case Some(config) =>
      var built := FreshBuild(config, BuilderFor(id), input, p);
      if built.0.Some? && built.0.value != "" then built else (None, built.1)
  }

  /**
   * `build_command` of the application: the new current command, if any, and where reading stopped
   * (`None` when the tool menu ran out of input). An empty listing leaves the command alone.
   */
  function BuildFlow(dir: ConfigDir, tools: seq<ToolEntry>, input: seq<string>, pos: nat): (r: (Option<string>, Option<nat>))
    requires pos <= |input|
    ensures r.1.Some? ==> pos <= r.1.value <= |input|
    ensures r.0.Some? ==> r.0.value != "" && r.1.Some?
    ensures r.1.None? <==> tools != [] && ReadSelection(input, pos, |tools|, false).Eof?
  {
    if tools == [] then (None, Some(pos))
    else
      match ReadSelection(input, pos, |tools|, false)
      case Eof => (None, None)
      case Got(ix, p) =>
        var r := ToolFlow(dir, tools[ix[0]].id, input, p);
        (r.0, Some(r.1))
  }

  /**
   * A command the build flow sets is a line of the chosen tool's own descriptor and builder: it starts
   * with the descriptor's base command, followed by the flags chosen and the builder's values.
   */
  lemma BuildFlowCommand(dir: ConfigDir, tools: seq<ToolEntry>, input: seq<string>, pos: nat)
    requires pos <= |input|
    ensures var r := BuildFlow(dir, tools, input, pos);
      r.0.Some? ==>
        && tools != []
        && ReadSelection(input, pos, |tools|, false).Got?
        && var sel := ReadSelection(input, pos, |tools|, false);
           var id := tools[sel.value[0]].id;
           && LoadConfig(dir, id).Some?
           && LoadConfig(dir, id).value.command.Some?
           && StartsWith(r.0.value, LoadConfig(dir, id).value.command.value)
  {
    var r := BuildFlow(dir, tools, input, pos);
    if r.0.Some? {
      var sel := ReadSelection(input, pos, |tools|, false);
      var id := tools[sel.value[0]].id;
      FreshBuildStarts(LoadConfig(dir, id).value, BuilderFor(id), input, sel.next);
    }
  }

  /** A listed descriptor whose stem holds `_config` only as its suffix loads again under the id it is listed with. */
  lemma ListedToolLoads(dir: ConfigDir, f: string)
    requires dir.Present? && f in Listed(dir.files)
    requires !Contains(f[..|f| - 12], "_config")
    ensures LoadConfig(dir, ToolId(f)) == Some(dir.files[f].config)
  {
    ListedIdLoadsSameFile(f);
  }

  /** Every tool on the menu is the entry of one listed descriptor. */
  lemma OfferedToolListed(dir: ConfigDir, tools: seq<ToolEntry>, order: seq<string>, i: nat)
    requires ToolListing(dir, tools, order) && dir.Present?
    requires i < |tools|
    ensures exists f :: f in Listed(dir.files) && tools[i] == EntryOf(f, dir.files[f].config)
  {
    var all := EntriesOf(dir.files, order);
    assert tools[i] in multiset(all);
    var k :| 0 <= k < |all| && all[k] == tools[i];
    assert order[k] in Listed(dir.files);
  }

  // ---- Clearing every template

  /** What "Clear All Templates" leaves: every file named after a listed template's stem is gone. */
  ghost function Cleared(files: map<string, StoredFile>): map<string, StoredFile> {
    files - StemFiles(files)
  }

  /**
   * Clearing removes every listed template but one whose whole name is `.json`: its stem is the whole
   * name, so the name deleted for it is `.json.json`. Files that are not `*.json` are never touched.
   */
  lemma ClearedLeavesOnlyBareSuffix(files: map<string, StoredFile>)
    ensures ListedTemplates(Cleared(files)) == ListedTemplates(files) * {".json"}
    ensures forall f :: f in files && !EndsWith(f, ".json") ==> f in Cleared(files)
  {
    var left := Cleared(files);
    forall f | f in ListedTemplates(files) && f != ".json" ensures f !in left {
      StemFileRoundTrip(f);
    }
    forall g | g in ListedTemplates(files)
      ensures |TemplateFileName(JsonStem(g))| > 5 && EndsWith(TemplateFileName(JsonStem(g)), ".json")
    {
    }
    assert ".json" !in StemFiles(files);
  }

  /** The names a listing gives, as the files `delete_template` removes for them. */
  ghost function NamedFiles(templates: seq<Summary>): set<string> {
    set t | t in templates :: TemplateFileName(t.name)
  }

  /** The commands a listing shows. */
  ghost function Commands(templates: seq<Summary>): set<string> {
    set t | t in templates :: t.command
  }

  lemma NamedFilesExtend(templates: seq<Summary>, i: nat)
    requires i < |templates|
    ensures NamedFiles(templates[..i + 1]) == NamedFiles(templates[..i]) + {TemplateFileName(templates[i].name)}
  {
    assert templates[..i + 1] == templates[..i] + [templates[i]];
  }

  /** Removing keys in two steps is removing them all at once. */
  lemma RemoveTwice<V>(m: map<string, V>, a: set<string>, x: string)
    ensures m - a - {x} == m - (a + {x})
  {
  }

  /** How a pass of the template-management loop ends. */
  datatype Round = Leave(exit: Option<nat>) | Again(resume: nat)

  /**
   * What one pass of `manage_templates`' loop does: how it ends, the command it makes current (if
   * any) and the file it deletes (if any).
   */
  datatype Step = Step(round: Round, used: Option<string>, deleted: Option<string>)
  {
    /** The files the pass removes. */
    function Gone(): set<string> {
      if deleted.Some? then {deleted.value} else {}
    }
  }

  /**
   * The "Template Actions" menu for the template `picked`: "Use" makes its command current and
   * leaves; "Delete" asks for a yes, deletes `<name>.json`, waits for Enter and goes round again;
   * "Back", or a no, goes round again. Running out of input leaves.
   */
  function ActionStep(picked: Summary, input: seq<string>, q: nat): (r: Step)
    requires q <= |input|
    ensures r.used.Some? ==> r.used == Some(picked.command) && r.round.Leave? && r.deleted.None?
    ensures r.deleted.Some? ==> r.deleted == Some(TemplateFileName(picked.name)) && r.used.None?
    ensures r.round.Again? ==> q < r.round.resume <= |input|
    ensures r.round.Leave? && r.round.exit.Some? ==> q < r.round.exit.value <= |input| && r.used.Some?
  {
    match ReadSelection(input, q, 3, false)
    case Eof => Step(Leave(None), None, None)
    case Got(action, r) =>
      if action[0] == 0 then Step(Leave(Some(r)), Some(picked.command), None)
      else if action[0] == 1 then
        match ReadConfirm(input, r)
        case Eof => Step(Leave(None), None, None)
        case Got(yes, s) =>
          if !yes then Step(Again(s), None, None)
          else
            match PressEnter(input, s)
            case None => Step(Leave(None), None, Some(TemplateFileName(picked.name)))
            case Some(t) => Step(Again(t), None, Some(TemplateFileName(picked.name)))
      else Step(Again(r), None, None)
  }

  /**
   * One pass over the listing `templates`: the last menu entry is "Back to Main Menu"; entry `c`
   * before it opens the actions of `templates[c]`.
   */
  function RoundStep(templates: seq<Summary>, input: seq<string>, p: nat): (r: Step)
    requires p <= |input|
    ensures r.used.Some? ==> r.round.Leave? && exists c :: 0 <= c < |templates| && r.used.value == templates[c].command
    ensures r.deleted.Some? ==> exists c :: 0 <= c < |templates| && r.deleted.value == TemplateFileName(templates[c].name)
    ensures r.round.Again? ==> p < r.round.resume <= |input|
    ensures r.round.Leave? && r.round.exit.Some? ==> p < r.round.exit.value <= |input|
  {
    match ReadSelection(input, p, |templates| + 1, false)
    case Eof => Step(Leave(None), None, None)
    case Got(choice, q) =>
      if choice[0] == |templates| then Step(Leave(Some(q)), None, None)
      else ActionStep(templates[choice[0]], input, q)
  }

  /** Typing the last entry's number leaves the loop, touching nothing. */
  lemma RoundBack(templates: seq<Summary>, input: seq<string>, p: nat)
    requires p < |input| && input[p] == ShowNat(|templates| + 1)
    ensures RoundStep(templates, input, p) == Step(Leave(Some(p + 1)), None, None)
  {
    TypedChoice(input, p, |templates| + 1, |templates| + 1);
  }

  /** A menu answer selecting entry `c` before "Back" opens the actions of `templates[c]`. */
  lemma RoundPicked(templates: seq<Summary>, input: seq<string>, p: nat, c: nat, q: nat)
    requires p <= |input| && c < |templates|
    requires ReadSelection(input, p, |templates| + 1, false) == Got([c], q)
    ensures q <= |input| && RoundStep(templates, input, p) == ActionStep(templates[c], input, q)
  {
  }

  /** Typing entry `k` opens the actions of `templates[k - 1]`, reading on from the next line. */
  lemma RoundPick(templates: seq<Summary>, input: seq<string>, p: nat, k: nat)
    requires 1 <= k <= |templates|
    requires p < |input| && input[p] == ShowNat(k)
    ensures RoundStep(templates, input, p) == ActionStep(templates[k - 1], input, p + 1)
  {
    assert ReadSelection(input, p, |templates| + 1, false) == Got([k - 1], p + 1) by {
      TypedChoice(input, p, |templates| + 1, k);
    }
    RoundPicked(templates, input, p, k - 1, p + 1);
  }

  /** "Use This Template" (1) makes the command of `picked` current and leaves. */
  lemma ActionUse(picked: Summary, input: seq<string>, q: nat)
    requires q < |input| && input[q] == ShowNat(1)
    ensures ActionStep(picked, input, q) == Step(Leave(Some(q + 1)), Some(picked.command), None)
  {
    TypedChoice(input, q, 3, 1);
  }

  /**
   * "Delete Template" (2), then an answer and Enter: the file of `picked` is deleted exactly when the
   * answer is a yes, and the loop goes round again.
   */
  lemma ActionDelete(picked: Summary, input: seq<string>, q: nat)
    requires q + 2 < |input| && input[q] == ShowNat(2)
    ensures var r := ActionStep(picked, input, q);
      && r.used.None?
      && r.deleted == (if Confirmed(input[q + 1]) then Some(TemplateFileName(picked.name)) else None)
      && r.round == Again(if Confirmed(input[q + 1]) then q + 3 else q + 2)
  {
    TypedChoice(input, q, 3, 2);
  }

  /** "Back" (3) goes round again, touching nothing. */
  lemma ActionBack(picked: Summary, input: seq<string>, q: nat)
    requires q < |input| && input[q] == ShowNat(3)
    ensures ActionStep(picked, input, q) == Step(Again(q + 1), None, None)
  {
    TypedChoice(input, q, 3, 3);
  }

  /** Typing entry `k`, then "Use This Template" (1), makes the command of `templates[k - 1]` current and leaves. */
  lemma RoundUse(templates: seq<Summary>, input: seq<string>, p: nat, k: nat)
    requires 1 <= k <= |templates|
    requires p + 1 < |input| && input[p] == ShowNat(k) && input[p + 1] == ShowNat(1)
    ensures RoundStep(templates, input, p) == Step(Leave(Some(p + 2)), Some(templates[k - 1].command), None)
  {
    RoundPick(templates, input, p, k);
    ActionUse(templates[k - 1], input, p + 1);
  }

  /** Typing entry `k`, then "Delete Template" (2), then an answer and Enter. */
  lemma RoundDelete(templates: seq<Summary>, input: seq<string>, p: nat, k: nat)
    requires 1 <= k <= |templates|
    requires p + 3 < |input| && input[p] == ShowNat(k) && input[p + 1] == ShowNat(2)
    ensures var r := RoundStep(templates, input, p);
      && r.used.None?
      && r.deleted == (if Confirmed(input[p + 2]) then Some(TemplateFileName(templates[k - 1].name)) else None)
      && r.round == Again(if Confirmed(input[p + 2]) then p + 4 else p + 3)
  {
    RoundPick(templates, input, p, k);
    ActionDelete(templates[k - 1], input, p + 1);
  }

  /** Typing entry `k`, then "Back" (3), goes round again, touching nothing. */
  lemma RoundActionBack(templates: seq<Summary>, input: seq<string>, p: nat, k: nat)
    requires 1 <= k <= |templates|
    requires p + 1 < |input| && input[p] == ShowNat(k) && input[p + 1] == ShowNat(3)
    ensures RoundStep(templates, input, p) == Step(Again(p + 2), None, None)
  {
    RoundPick(templates, input, p, k);
    ActionBack(templates[k - 1], input, p + 1);
  }



  /** The application: its two directories, the hint mode and the command last built or loaded. */
  class App {
    const configDir: ConfigDir
    const store: FileManager
    var hintMode: bool
    var currentCommand: Option<string>

    /** `ShadowCaster()`: hints off and no command yet. */
    constructor (configDir: ConfigDir, templateFiles: map<string, StoredFile>)
      ensures this.configDir == configDir && fresh(store) && store.files == templateFiles
      ensures !hintMode && currentCommand.None?
    {
      this.configDir := configDir;
      store := new FileManager(templateFiles);
      hintMode := false;
      currentCommand := None;
    }

    /**
     * "Clear All Templates": lists the templates and deletes each by name. The count reported is the
     * number listed; the files removed are those named after the listed stems.
     */
    method ClearAllTemplates() returns (count: nat)
      modifies store
      ensures count == |ListedTemplates(old(store.files))|
      ensures store.files == Cleared(old(store.files))
    {
      var templates, order := store.ListTemplates();
      ListingContents(store.files, order, templates);
      ghost var start := store.files;
      var i := 0;
      while i < |templates|
        invariant 0 <= i <= |templates|
        invariant store.files == start - NamedFiles(templates[..i])
      {
        var _ := store.DeleteTemplate(templates[i].name);
        NamedFilesExtend(templates, i);
        RemoveTwice(start, NamedFiles(templates[..i]), TemplateFileName(templates[i].name));
        i := i + 1;
      }
      assert templates[..|templates|] == templates;
      assert NamedFiles(templates) == StemFiles(start);
      return |templates|;
    }

    /**
     * `settings_menu`: toggling hint mode, or clearing every template after a yes, each followed by
     * "Press Enter"; "Back" returns at once. Nothing else changes.
     */
    method SettingsMenu(input: seq<string>, pos: nat) returns (next: Option<nat>)
      requires pos <= |input|
      modifies this`hintMode, store
      ensures next.Some? ==> pos < next.value <= |input|
      ensures match ReadSelection(input, pos, 3, false)
        case Eof => next.None? && hintMode == old(hintMode) && store.files == old(store.files)
        case Got(choice, p) =>
          if choice[0] == 0 then
            hintMode == !old(hintMode) && store.files == old(store.files) && next == PressEnter(input, p)
          else if choice[0] == 1 then
            && hintMode == old(hintMode)
            && match ReadConfirm(input, p)
               case Eof => next.None? && store.files == old(store.files)
               case Got(yes, q) =>
                 && store.files == (if yes then Cleared(old(store.files)) else old(store.files))
                 && next == PressEnter(input, q)
          else
            hintMode == old(hintMode) && store.files == old(store.files) && next == Some(p)
    {
      var choice := DisplayMenu(input, pos, 3, false);
      if choice.Eof? {
        return None;
      }
      var p := choice.next;
      if choice.value[0] == 0 {
        hintMode := !hintMode;
        next := PressEnter(input, p);
      } else if choice.value[0] == 1 {
        var answer := ReadConfirm(input, p);
        if answer.Eof? {
          return None;
        }
        if answer.value {
          var _ := ClearAllTemplates();
        }
        next := PressEnter(input, answer.next);
      } else {
        next := Some(p);
      }
    }

    /**
     * `build_command` once the tool `id` is picked: loads its descriptor, builds with the builder the
     * table gives (in the current hint mode) and keeps a non-empty result as the current command. The
     * builder is made only when the descriptor loads.
     */
    method BuildTool(id: string, input: seq<string>, p: nat) returns (next: nat, ghost builder: Builder?)
      requires p <= |input|
      modifies this`currentCommand
      ensures builder == null <==> LoadConfig(configDir, id).None?
      ensures builder != null ==> fresh(builder) && builder.hintMode == hintMode && builder.kind == BuilderFor(id)
      ensures next == ToolFlow(configDir, id, input, p).1
      ensures currentCommand == if ToolFlow(configDir, id, input, p).0.Some?
        then ToolFlow(configDir, id, input, p).0 else old(currentCommand)
    {
      var config := LoadConfig(configDir, id);
      if config.None? {
        return p, null;
      }
      var command, q, made := RunBuilder(config.value, BuilderFor(id), hintMode, input, p);
      builder := made;
      if command.Some? && command.value != "" {
        currentCommand := command;
      }
      next := q;
    }

    /** `build_command` once the tools are listed: the tool menu, then the build of the tool picked. */
    method BuildFromListing(tools: seq<ToolEntry>, input: seq<string>, pos: nat) returns (next: Option<nat>, ghost builder: Builder?)
      requires pos <= |input|
      modifies this`currentCommand
      ensures builder == null <==> ChosenTool(tools, input, pos).None? || LoadConfig(configDir, ChosenTool(tools, input, pos).value).None?
      ensures builder != null ==>
        && fresh(builder) && builder.hintMode == hintMode && builder.kind == BuilderFor(ChosenTool(tools, input, pos).value)
      ensures next == BuildFlow(configDir, tools, input, pos).1
      ensures currentCommand == if BuildFlow(configDir, tools, input, pos).0.Some?
        then BuildFlow(configDir, tools, input, pos).0 else old(currentCommand)
    {
      if |tools| == 0 {
        return Some(pos), null;
      }
      var index := DisplayTools(tools, input, pos);
      if index.Eof? {
        return None, null;
      }
      var q;
      q, builder := BuildTool(tools[index.value].id, input, index.next);
      next := Some(q);
    }

    /** `build_command`: lists the tools, sorted by display name, and goes on as above. */
    method BuildCommand(input: seq<string>, pos: nat)
      returns (next: Option<nat>, ghost tools: seq<ToolEntry>, ghost order: seq<string>, ghost builder: Builder?)
      requires pos <= |input|
      modifies this`currentCommand
      ensures ToolListing(configDir, tools, order) && SortedBy(tools, DisplayName)
      ensures builder == null <==> ChosenTool(tools, input, pos).None? || LoadConfig(configDir, ChosenTool(tools, input, pos).value).None?
      ensures builder != null ==>
        && fresh(builder) && builder.hintMode == hintMode && builder.kind == BuilderFor(ChosenTool(tools, input, pos).value)
      ensures next == BuildFlow(configDir, tools, input, pos).1
      ensures currentCommand == if BuildFlow(configDir, tools, input, pos).0.Some?
        then BuildFlow(configDir, tools, input, pos).0 else old(currentCommand)
    {
      var listing;
      listing, order := ListAvailableTools(configDir);
      tools := listing;
      next, builder := BuildFromListing(listing, input, pos);
    }

    /**
     * `load_template`: with no template, one "Press Enter"; otherwise the template picked from the
     * sorted listing gives the current command. The menu that follows is not part of this model.
     */
    method LoadTemplate(input: seq<string>, pos: nat) returns (next: Option<nat>, ghost templates: seq<Summary>, ghost order: seq<string>)
      requires pos <= |input|
      modifies this`currentCommand
      ensures TemplateListing(store.files, templates, order)
      ensures |templates| == |ListedTemplates(store.files)|
      ensures Commands(templates) == ListedCommands(store.files)
      ensures templates == [] ==> next == PressEnter(input, pos) && currentCommand == old(currentCommand)
      ensures templates != [] ==> match ReadSelection(input, pos, |templates|, false)
        case Eof => next.None? && currentCommand == old(currentCommand)
        case Got(ix, p) => next == Some(p) && currentCommand == Some(templates[ix[0]].command)
      ensures currentCommand != old(currentCommand) ==>
        currentCommand.Some? && currentCommand.value in ListedCommands(store.files)
    {
      var listing;
      listing, order := store.ListTemplates();
      templates := listing;
      ListingContents(store.files, order, templates);
      if |listing| == 0 {
        return PressEnter(input, pos), templates, order;
      }
      var choice := DisplayMenu(input, pos, |listing|, false);
      if choice.Eof? {
        return None, templates, order;
      }
      var picked := listing[choice.value[0]];
      assert picked in templates;
      currentCommand := Some(picked.command);
      next := Some(choice.next);
    }

    /**
     * "Delete Template" after a yes, in `manage_templates`: deletes the template by name and lists the
     * templates again. What is gone so far grows by the one file deleted.
     */
    method DeleteAndRelist(name: string, ghost start: map<string, StoredFile>, ghost gone: set<string>)
      returns (templates: seq<Summary>, ghost order: seq<string>, ghost goneAfter: set<string>)
      requires gone <= StemFiles(start) && store.files == start - gone
      requires TemplateFileName(name) in StemFiles(store.files)
      modifies store
      ensures store.files == old(store.files) - {TemplateFileName(name)}
      ensures TemplateListing(store.files, templates, order)
      ensures goneAfter == gone + {TemplateFileName(name)}
      ensures goneAfter <= StemFiles(start) && store.files == start - goneAfter
      ensures NamedFiles(templates) == StemFiles(store.files)
      ensures Commands(templates) == ListedCommands(store.files)
    {
      RemovalListsLess(start, gone);
      var _ := store.DeleteTemplate(name);
      goneAfter := gone + {TemplateFileName(name)};
      RemoveTwice(start, gone, TemplateFileName(name));
      templates, order := store.ListTemplates();
      ListingContents(store.files, order, templates);
    }

    /**
     * The "Template Actions" menu for `templates[c]`, as `ActionStep` describes it: the listing is
     * read again after a delete and kept otherwise.
     */
    method TemplateAction(templates: seq<Summary>, c: nat, input: seq<string>, q: nat, ghost start: map<string, StoredFile>, ghost gone: set<string>)
      returns (round: Round, listing: seq<Summary>, ghost order: seq<string>, ghost goneAfter: set<string>)
      requires c < |templates| && q <= |input|
      requires gone <= StemFiles(start) && store.files == start - gone
      requires NamedFiles(templates) == StemFiles(store.files) && Commands(templates) == ListedCommands(store.files)
      modifies this`currentCommand, store
      ensures var s := ActionStep(templates[c], input, q);
        && round == s.round
        && currentCommand == (if s.used.Some? then s.used else old(currentCommand))
        && store.files == old(store.files) - s.Gone()
        && goneAfter == gone + s.Gone()
        && (s.deleted.None? ==> listing == templates)
        && (s.deleted.Some? ==> TemplateListing(store.files, listing, order))
      ensures goneAfter <= StemFiles(start) && store.files == start - goneAfter
      ensures NamedFiles(listing) == StemFiles(store.files) && Commands(listing) == ListedCommands(store.files)
      ensures currentCommand != old(currentCommand) ==>
        currentCommand.Some? && currentCommand.value in ListedCommands(start)
    {
      listing, order, goneAfter := templates, [], gone;
      var picked := templates[c];
      assert picked in templates;
      var action := DisplayMenu(input, q, 3, false);
      if action.Eof? {
        return Leave(None), listing, order, goneAfter;
      }
      var r := action.next;
      if action.value[0] == 0 {
        RemovalListsLess(start, gone);
        currentCommand := Some(picked.command);
        return Leave(Some(r)), listing, order, goneAfter;
      } else if action.value[0] == 1 {
        var answer := ReadConfirm(input, r);
        if answer.Eof? {
          return Leave(None), listing, order, goneAfter;
        }
        r := answer.next;
        if answer.value {
          listing, order, goneAfter := DeleteAndRelist(picked.name, start, gone);
          var enter := PressEnter(input, r);
          if enter.None? {
            return Leave(None), listing, order, goneAfter;
          }
          r := enter.value;
        }
      }
      round := Again(r);
    }

    /**
     * One pass of `manage_templates`' loop over `templates`, as `RoundStep` describes it: leave (with
     * where reading stopped, or `None` when the input ran out), or go round again with the listing as
     * it now is.
     */
    method ManageRound(templates: seq<Summary>, input: seq<string>, p: nat, ghost start: map<string, StoredFile>, ghost gone: set<string>)
      returns (round: Round, listing: seq<Summary>, ghost order: seq<string>, ghost goneAfter: set<string>)
      requires p <= |input|
      requires gone <= StemFiles(start) && store.files == start - gone
      requires NamedFiles(templates) == StemFiles(store.files) && Commands(templates) == ListedCommands(store.files)
      modifies this`currentCommand, store
      ensures var s := RoundStep(templates, input, p);
        && round == s.round
        && currentCommand == (if s.used.Some? then s.used else old(currentCommand))
        && store.files == old(store.files) - s.Gone()
        && goneAfter == gone + s.Gone()
        && (s.deleted.None? ==> listing == templates)
        && (s.deleted.Some? ==> TemplateListing(store.files, listing, order))
      ensures goneAfter <= StemFiles(start) && store.files == start - goneAfter
      ensures NamedFiles(listing) == StemFiles(store.files) && Commands(listing) == ListedCommands(store.files)
      ensures round.Again? ==> p < round.resume <= |input| && currentCommand == old(currentCommand)
      ensures round.Leave? && round.exit.Some? ==> p < round.exit.value <= |input|
      ensures currentCommand != old(currentCommand) ==>
        currentCommand.Some? && currentCommand.value in ListedCommands(start)
    {
      order := [];
      var choice := DisplayMenu(input, p, |templates| + 1, false);
      if choice.Eof? {
        return Leave(None), templates, order, gone;
      }
      var c := choice.value[0];
      if c == |templates| {
        return Leave(Some(choice.next)), templates, order, gone;
      }
      round, listing, order, goneAfter := TemplateAction(templates, c, input, choice.next, start, gone);
    }

    /**
     * `manage_templates`: picks a template from the listing, then uses it (setting the current command
     * and leaving), deletes it after a yes (and lists again), or goes back to the listing; "Back to Main
     * Menu" leaves. Only files named after a listed stem are ever removed, and a command it sets is one
     * a template held when it started.
     */
    method ManageTemplates(input: seq<string>, pos: nat) returns (next: Option<nat>, ghost gone: set<string>)
      requires pos <= |input|
      modifies this`currentCommand, store
      ensures next.Some? ==> pos < next.value <= |input|
      ensures gone <= StemFiles(old(store.files)) && store.files == old(store.files) - gone
      ensures currentCommand != old(currentCommand) ==>
        currentCommand.Some? && currentCommand.value in ListedCommands(old(store.files))
      ensures ListedTemplates(old(store.files)) == {} ==>
        next == PressEnter(input, pos) && gone == {} && currentCommand == old(currentCommand)
    {
      ghost var start := store.files;
      gone := {};
      assert store.files == start - gone;
      var templates, order := store.ListTemplates();
      ListingContents(store.files, order, templates);
      if |templates| == 0 {
        return PressEnter(input, pos), gone;
      }
      var p := pos;
      while true
        invariant pos <= p <= |input|
        invariant gone <= StemFiles(start) && store.files == start - gone
        invariant NamedFiles(templates) == StemFiles(store.files)
        invariant Commands(templates) == ListedCommands(store.files)
        invariant currentCommand == old(currentCommand)
        decreases |input| - p
      {
        var round;
        ghost var order;
        round, templates, order, gone := ManageRound(templates, input, p, start, gone);
        if round.Leave? {
          return round.exit, gone;
        }
        p := round.resume;
      }
    }
  }
}
