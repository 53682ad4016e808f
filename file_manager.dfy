/**
 * The templates directory and what is saved in it: command scripts and JSON templates share one
 * directory, modelled as a map from file name to what the file holds.
 */
module FileManager {
  import opened Wrappers
  import opened Strings
  import opened Sorting

  /**
   * A JSON object read from a `.json` file, reduced to the fields the manager looks at.
   * `save_template` writes all five; a file written by hand may lack any of them.
   */
  datatype TemplateJson = TemplateJson(
    name: Option<string>,
    tool: Option<string>,
    command: Option<string>,
    description: Option<string>,
    created: Option<string>)

  /**
   * A file of the directory: a saved script, a JSON object, or text that `json.load` rejects.
   * A script starts with `#!`, which is not JSON either.
   */
  datatype StoredFile = Script(text: string) | Document(json: TemplateJson) | Unreadable

  /** `json.load` on the file: the object, or `None` for a `JSONDecodeError`. */
  function Parse(file: StoredFile): (r: Option<TemplateJson>)
    ensures r.Some? <==> file.Document?
    ensures r.Some? ==> r.value == file.json
  {
    match file
    case Document(json) => Some(json)
    case _ => None
  }

  // ---- Scripts

  const SHEBANG := "#!/bin/bash"

  /**
   * The warning line of a script. It is written as three literals so that the proof that it holds no
   * newline (`HeaderLinesPlain`) works on short pieces; as one literal that proof is much slower.
   */
  const REVIEW_NOTE := "# Generated command" + " - Always review" + " before executing"

  /** The three lines every saved script starts with: the interpreter, a warning, a blank line. */
  const SCRIPT_HEADER := SHEBANG + "\n" + REVIEW_NOTE + "\n" + "\n"

  /** What `save_command_to_file` writes: the header, then the command with no newline after it. */
  function ScriptText(command: string): string {
    SCRIPT_HEADER + command
  }

  lemma HeaderLinesPlain()
    ensures '\n' !in SHEBANG && '\n' !in REVIEW_NOTE
  {
  }

  /** The header is three whole lines: splitting a script at newlines gives them, then the command's lines. */
  lemma ScriptTextSplit(command: string)
    ensures Split(ScriptText(command), '\n') == [SHEBANG, REVIEW_NOTE, ""] + Split(command, '\n')
  {
    var nl := ['\n'];
    assert "\n" == nl;
    var third := [] + nl + command;
    var second := REVIEW_NOTE + nl + third;
    assert ScriptText(command) == SHEBANG + nl + second;
    HeaderLinesPlain();
    SplitAfter(SHEBANG, second, '\n');
    SplitAfter(REVIEW_NOTE, third, '\n');
    SplitAfter([], command, '\n');
  }

  /** The script is the shebang line, the review comment, a blank line, then the command as given. */
  lemma ScriptTextLines(command: string)
    ensures var lines := Split(ScriptText(command), '\n');
      && |lines| >= 4
      && lines[..3] == [SHEBANG, REVIEW_NOTE, ""]
      && ((forall j :: 0 <= j < |command| ==> command[j] != '\n') ==> lines == [SHEBANG, REVIEW_NOTE, "", command])
    ensures ScriptText(command)[|SCRIPT_HEADER|..] == command
  {
    ScriptTextSplit(command);
    if forall j :: 0 <= j < |command| ==> command[j] != '\n' {
      SplitPlain(command, '\n');
    }
  }

  /** `filename += '.sh'` unless the name already ends in `.sh` or `.txt`. */
  function ScriptFileName(name: string): (r: string)
    ensures EndsWith(r, ".sh") || EndsWith(r, ".txt")
  {
    if EndsWith(name, ".sh") || EndsWith(name, ".txt") then name
    else
      assert (name + ".sh")[|name|..] == ".sh";
      name + ".sh"
  }

  /** A name with an accepted extension is kept; any other gets `.sh` once; normalising twice changes nothing. */
  lemma ScriptFileNameRule(name: string)
    ensures EndsWith(name, ".sh") || EndsWith(name, ".txt") <==> ScriptFileName(name) == name
    ensures ScriptFileName(name) != name ==> ScriptFileName(name) == name + ".sh"
    ensures ScriptFileName(ScriptFileName(name)) == ScriptFileName(name)
  {
    if !(EndsWith(name, ".sh") || EndsWith(name, ".txt")) {
      assert |name + ".sh"| != |name|;
    }
  }

  /** A script name never ends in `.json`, so a saved script is never a template file. */
  lemma ScriptNameIsNotJson(name: string)
    ensures !EndsWith(ScriptFileName(name), ".json")
  {
    var r := ScriptFileName(name);
    if EndsWith(r, ".sh") {
      assert r[|r| - 1] == 'h';
    } else {
      assert r[|r| - 1] == 't';
    }
  }

  /** `f"command_{timestamp}.sh"`, the name used when none is given. */
  function DefaultScriptName(timestamp: string): string {
    "command_" + timestamp + ".sh"
  }

  // ---- Templates

  /** `f"{name}.json"`. */
  function TemplateFileName(name: string): string {
    name + ".json"
  }

  lemma TemplateFileNameInjective(a: string, b: string)
    requires TemplateFileName(a) == TemplateFileName(b)
    ensures a == b
  {
    assert a == TemplateFileName(a)[..|a|];
    assert b == TemplateFileName(b)[..|b|];
  }

  /** The object `save_template` writes. */
  function TemplateRecord(name: string, tool: string, command: string, description: string, created: string): TemplateJson {
    TemplateJson(Some(name), Some(tool), Some(command), Some(description), Some(created))
  }

  /** The directory after `save_template`: the one file of that name is (over)written. */
  function WithTemplate(files: map<string, StoredFile>, name: string, tool: string, command: string, description: string, created: string): (r: map<string, StoredFile>)
    ensures r.Keys == files.Keys + {TemplateFileName(name)}
  {
    files[TemplateFileName(name) := Document(TemplateRecord(name, tool, command, description, created))]
  }

  /** `load_template`: the object in `<name>.json`; a missing file and malformed JSON both give `None`. */
  function Load(files: map<string, StoredFile>, name: string): (r: Option<TemplateJson>)
    ensures r.Some? <==> TemplateFileName(name) in files && files[TemplateFileName(name)].Document?
    ensures r.Some? ==> r.value == files[TemplateFileName(name)].json
  {
    if TemplateFileName(name) in files then Parse(files[TemplateFileName(name)]) else None
  }

  /** Saving then loading under the same name gives back the fields saved. */
  lemma LoadAfterSave(files: map<string, StoredFile>, name: string, tool: string, command: string, description: string, created: string)
    ensures var r := Load(WithTemplate(files, name, tool, command, description, created), name);
      && r.Some?
      && r.value.name == Some(name) && r.value.tool == Some(tool)
      && r.value.command == Some(command) && r.value.description == Some(description)
  {
  }

  /** Saving under one name leaves what every other name loads unchanged. */
  lemma SaveKeepsOthers(files: map<string, StoredFile>, name: string, tool: string, command: string, description: string, created: string, other: string)
    requires other != name
    ensures Load(WithTemplate(files, name, tool, command, description, created), other) == Load(files, other)
  {
    if TemplateFileName(other) == TemplateFileName(name) {
      TemplateFileNameInjective(other, name);
    }
  }

  /** After a delete the name loads nothing, and every other name loads what it did. */
  lemma LoadAfterDelete(files: map<string, StoredFile>, name: string, other: string)
    ensures Load(files - {TemplateFileName(name)}, name).None?
    ensures other != name ==> Load(files - {TemplateFileName(name)}, other) == Load(files, other)
  {
    if other != name && TemplateFileName(other) == TemplateFileName(name) {
      TemplateFileNameInjective(other, name);
    }
  }

  // ---- Listing

  /** The files `list_templates` reports: matching the glob `*.json` and holding a JSON object. */
  ghost function ListedTemplates(files: map<string, StoredFile>): set<string> {
    set f | f in files && EndsWith(f, ".json") && Parse(files[f]).Some?
  }

  /** One entry of `list_templates`. The tool is whatever the file says, possibly nothing. */
  datatype Summary = Summary(name: string, tool: Option<string>, description: string, command: string)

  function SummaryName(s: Summary): string {
    s.name
  }

  /** The entry for file `f`: named by the stem, description and command defaulting to `''`. */
  function SummaryOf(f: string, json: TemplateJson): Summary
    requires EndsWith(f, ".json")
  {
    Summary(JsonStem(f), json.tool, json.description.GetOr(""), json.command.GetOr(""))
  }

  /** A saved template is listed under the name it was saved with, unless that name is empty: `.json` is its own stem. */
  lemma SavedTemplateSummary(name: string, tool: string, command: string, description: string, created: string)
    ensures EndsWith(TemplateFileName(name), ".json")
    ensures var s := SummaryOf(TemplateFileName(name), TemplateRecord(name, tool, command, description, created));
      && s.tool == Some(tool) && s.description == description && s.command == command
      && (s.name == name <==> name != "")
  {
    var f := TemplateFileName(name);
    assert f[|f| - 5..] == ".json";
    if |f| > 5 {
      assert f[..|f| - 5] == name;
    }
  }

  /** The entries of the files in `order`, in that order. */
  function SummariesOf(files: map<string, StoredFile>, order: seq<string>): (r: seq<Summary>)
    requires forall i :: 0 <= i < |order| ==> order[i] in files && EndsWith(order[i], ".json") && files[order[i]].Document?
    ensures |r| == |order|
    ensures forall i :: 0 <= i < |order| ==> r[i] == SummaryOf(order[i], files[order[i]].json)
  {
    seq(|order|, i requires 0 <= i < |order| => SummaryOf(order[i], files[order[i]].json))
  }

  lemma SummariesOfExtend(files: map<string, StoredFile>, order: seq<string>, f: string)
    requires forall i :: 0 <= i < |order| ==> order[i] in files && EndsWith(order[i], ".json") && files[order[i]].Document?
    requires f in files && EndsWith(f, ".json") && files[f].Document?
    ensures SummariesOf(files, order + [f]) == SummariesOf(files, order) + [SummaryOf(f, files[f].json)]
  {
  }

  /** Saving a template adds its file to the listing and changes no other listed file. */
  lemma SaveListsOneMore(files: map<string, StoredFile>, name: string, tool: string, command: string, description: string, created: string)
    ensures ListedTemplates(WithTemplate(files, name, tool, command, description, created))
            == ListedTemplates(files) + {TemplateFileName(name)}
  {
    var f := TemplateFileName(name);
    assert f[|f| - 5..] == ".json";
  }

  /** Saving a script changes neither the listing nor what any template name loads. */
  lemma ScriptSaveInvisible(files: map<string, StoredFile>, name: string, text: string, template: string)
    ensures ListedTemplates(files[ScriptFileName(name) := Script(text)]) == ListedTemplates(files)
    ensures Load(files[ScriptFileName(name) := Script(text)], template) == Load(files, template)
  {
    ScriptNameIsNotJson(name);
    var f := TemplateFileName(template);
    assert f[|f| - 5..] == ".json";
  }

  /** The files that deleting every listed template by its listed name targets: `<stem>.json` for each listed file. */
  ghost function StemFiles(files: map<string, StoredFile>): set<string> {
    set f | f in ListedTemplates(files) :: TemplateFileName(JsonStem(f))
  }

  /** The commands of the listed templates, `''` for one without a command. */
  ghost function ListedCommands(files: map<string, StoredFile>): set<string> {
    set f | f in ListedTemplates(files) :: files[f].json.command.GetOr("")
  }

  /** A listed file other than `.json` is the file its listed name targets; `.json` itself never is. */
  lemma StemFileRoundTrip(f: string)
    requires EndsWith(f, ".json")
    ensures TemplateFileName(JsonStem(f)) == f <==> f != ".json"
  {
    if |f| > 5 {
      assert TemplateFileName(JsonStem(f)) == f[..|f| - 5] + f[|f| - 5..];
    } else {
      assert f == ".json";
      assert |TemplateFileName(JsonStem(f))| == 10;
    }
  }

  /** Two sequences that are permutations of each other hold the same elements. */
  lemma PermutationMembers<T>(a: seq<T>, b: seq<T>)
    requires multiset(a) == multiset(b)
    ensures |a| == |b|
    ensures forall x :: x in a <==> x in b
  {
    assert |a| == |multiset(a)|;
    assert |b| == |multiset(b)|;
    forall x ensures x in a <==> x in b {
      assert x in a <==> x in multiset(a);
      assert x in b <==> x in multiset(b);
    }
  }

  /** The entry an enumeration gives for one listed file. */
  lemma SummaryListed(files: map<string, StoredFile>, order: seq<string>, f: string)
    requires Enumerates(order, ListedTemplates(files))
    requires forall i :: 0 <= i < |order| ==> order[i] in ListedTemplates(files)
    requires f in ListedTemplates(files)
    ensures SummaryOf(f, files[f].json) in SummariesOf(files, order)
  {
    assert f in (set y | y in order);
    var k :| 0 <= k < |order| && order[k] == f;
    assert SummariesOf(files, order)[k] == SummaryOf(f, files[f].json);
  }

  /** Every entry of an enumeration comes from one listed file. */
  lemma SummaryFromListed(files: map<string, StoredFile>, order: seq<string>, t: Summary)
    requires forall i :: 0 <= i < |order| ==> order[i] in ListedTemplates(files)
    requires forall i :: 0 <= i < |order| ==> order[i] in files && EndsWith(order[i], ".json") && files[order[i]].Document?
    requires t in SummariesOf(files, order)
    ensures exists f :: f in ListedTemplates(files) && t == SummaryOf(f, files[f].json)
  {
    var all := SummariesOf(files, order);
    var k :| 0 <= k < |all| && all[k] == t;
    assert order[k] in ListedTemplates(files);
  }

  /** The entries of an enumeration of the listed files name exactly their stems. */
  lemma SummariesStems(files: map<string, StoredFile>, order: seq<string>)
    requires Enumerates(order, ListedTemplates(files))
    requires forall i :: 0 <= i < |order| ==> order[i] in ListedTemplates(files)
    ensures (set t | t in SummariesOf(files, order) :: TemplateFileName(t.name)) == StemFiles(files)
  {
    var all := SummariesOf(files, order);
    var names := set t | t in all :: TemplateFileName(t.name);
    forall x | x in StemFiles(files) ensures x in names {
      var f :| f in ListedTemplates(files) && x == TemplateFileName(JsonStem(f));
      SummaryListed(files, order, f);
    }
    forall t | t in all ensures TemplateFileName(t.name) in StemFiles(files) {
      SummaryFromListed(files, order, t);
    }
  }

  /** The entries of an enumeration of the listed files carry exactly their commands. */
  lemma SummariesCommands(files: map<string, StoredFile>, order: seq<string>)
    requires Enumerates(order, ListedTemplates(files))
    requires forall i :: 0 <= i < |order| ==> order[i] in ListedTemplates(files)
    ensures (set t | t in SummariesOf(files, order) :: t.command) == ListedCommands(files)
  {
    var all := SummariesOf(files, order);
    var commands := set t | t in all :: t.command;
    forall c | c in ListedCommands(files) ensures c in commands {
      var f :| f in ListedTemplates(files) && c == files[f].json.command.GetOr("");
      SummaryListed(files, order, f);
    }
    forall t | t in all ensures t.command in ListedCommands(files) {
      SummaryFromListed(files, order, t);
    }
  }

  /**
   * What a listing holds, whatever order the directory gave: one entry per listed file, the names
   * naming the listed files' stems and the commands those files hold.
   */
  lemma ListingContents(files: map<string, StoredFile>, order: seq<string>, templates: seq<Summary>)
    requires Enumerates(order, ListedTemplates(files))
    requires forall i :: 0 <= i < |order| ==> order[i] in ListedTemplates(files)
    requires multiset(templates) == multiset(SummariesOf(files, order))
    ensures |templates| == |ListedTemplates(files)|
    ensures (set t | t in templates :: TemplateFileName(t.name)) == StemFiles(files)
    ensures (set t | t in templates :: t.command) == ListedCommands(files)
  {
    var all := SummariesOf(files, order);
    EnumerationSize(order, ListedTemplates(files));
    PermutationMembers(templates, all);
    SummariesStems(files, order);
    SummariesCommands(files, order);
    assert (set t | t in templates :: TemplateFileName(t.name)) == (set t | t in all :: TemplateFileName(t.name));
    assert (set t | t in templates :: t.command) == (set t | t in all :: t.command);
  }

  /** Removing files lists no new template: the stems and commands listed afterwards were listed before. */
  lemma RemovalListsLess(files: map<string, StoredFile>, gone: set<string>)
    ensures ListedTemplates(files - gone) <= ListedTemplates(files)
    ensures StemFiles(files - gone) <= StemFiles(files)
    ensures ListedCommands(files - gone) <= ListedCommands(files)
  {
    var after := files - gone;
    forall x | x in StemFiles(after) ensures x in StemFiles(files) {
      var f :| f in ListedTemplates(after) && x == TemplateFileName(JsonStem(f));
      assert f in ListedTemplates(files);
    }
    forall c | c in ListedCommands(after) ensures c in ListedCommands(files) {
      var f :| f in ListedTemplates(after) && c == after[f].json.command.GetOr("");
      assert f in ListedTemplates(files);
    }
  }

  /**
   * `templates` is what `list_templates` returns over `files` when the glob visits the listed files
   * in the order `order`: their entries, sorted by name.
   */
  ghost predicate TemplateListing(files: map<string, StoredFile>, templates: seq<Summary>, order: seq<string>) {
    && Enumerates(order, ListedTemplates(files))
    && (forall i :: 0 <= i < |order| ==> order[i] in ListedTemplates(files))
    && templates == SortBy(SummariesOf(files, order), SummaryName)
  }

  /** The template store over the directory `files`. */
  class FileManager {
    var files: map<string, StoredFile>

    constructor (files: map<string, StoredFile>)
      ensures this.files == files
    {
      this.files := files;
    }

    /**
     * `save_command_to_file`: the script goes to the given name (or `command_<timestamp>.sh`), with
     * `.sh` appended unless the name ends in `.sh` or `.txt`; the name is returned.
     */
    method SaveCommandToFile(command: string, filename: Option<string>, timestamp: string) returns (path: Option<string>)
      modifies this
      ensures var name := ScriptFileName(if filename.Some? then filename.value else DefaultScriptName(timestamp));
        && path == Some(name)
        && files == old(files)[name := Script(ScriptText(command))]
      ensures ListedTemplates(files) == ListedTemplates(old(files))
    {
      var name := if filename.Some? then filename.value else DefaultScriptName(timestamp);
      ScriptSaveInvisible(files, name, ScriptText(command), "");
      name := ScriptFileName(name);
      files := files[name := Script(ScriptText(command))];
      return Some(name);
    }

    /** `save_template`: writes `<name>.json` with the five fields, replacing any file of that name. */
    method SaveTemplate(name: string, tool: string, command: string, description: string, created: string) returns (path: Option<string>)
      modifies this
      ensures path == Some(TemplateFileName(name))
      ensures files == WithTemplate(old(files), name, tool, command, description, created)
    {
      files := WithTemplate(files, name, tool, command, description, created);
      return Some(TemplateFileName(name));
    }

    /** `load_template`. */
    function LoadTemplate(name: string): (r: Option<TemplateJson>)
      reads this
      ensures r.Some? <==> TemplateFileName(name) in files && files[TemplateFileName(name)].Document?
      ensures r.Some? ==> r.value == files[TemplateFileName(name)].json
    {
      Load(files, name)
    }

    /**
     * `list_templates`: one entry per listed file, read in whatever order the directory yields
     * (`order`), then sorted by name.
     */
    method ListTemplates() returns (templates: seq<Summary>, ghost order: seq<string>)
      ensures Enumerates(order, ListedTemplates(files))
      ensures forall i :: 0 <= i < |order| ==> order[i] in ListedTemplates(files)
      ensures templates == SortBy(SummariesOf(files, order), SummaryName)
      ensures SortedBy(templates, SummaryName)
      ensures multiset(templates) == multiset(SummariesOf(files, order))
    {
      ghost var listed := ListedTemplates(files);
      var remaining := files.Keys;
      var found: seq<Summary> := [];
      order := [];
      while remaining != {}
        invariant remaining <= files.Keys
        invariant Enumerates(order, listed - remaining)
        invariant forall i :: 0 <= i < |order| ==> order[i] in listed
        invariant found == SummariesOf(files, order)
        decreases |remaining|
      {
        var f :| f in remaining;
        EnumeratesStep(order, listed, remaining, f);
        remaining := remaining - {f};
        if EndsWith(f, ".json") && files[f].Document? {
          assert f in listed;
          SummariesOfExtend(files, order, f);
          found := found + [SummaryOf(f, files[f].json)];
          order := order + [f];
        } else {
          assert f !in listed;
        }
      }
      templates := SortBy(found, SummaryName);
      SortBySorted(found, SummaryName);
      SortByPermutes(found, SummaryName);
    }

    /** `delete_template`: removes `<name>.json` and says whether it existed. */
    method DeleteTemplate(name: string) returns (deleted: bool)
      modifies this
      ensures deleted <==> TemplateFileName(name) in old(files)
      ensures files == old(files) - {TemplateFileName(name)}
    {
      deleted := TemplateFileName(name) in files;
      files := files - {TemplateFileName(name)};
    }
  }
}
