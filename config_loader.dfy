/**
 * The configuration catalog: tool descriptors read from a directory of `<id>_config.json` files.
 * The directory is a map from file name to what parsing that file gives.
 */
module ConfigLoader {
  import opened Wrappers
  import opened Strings
  import opened Sorting

  /** The prompt for one required parameter; it is shown to the user and never reaches the command. */
  datatype ParamSpec = ParamSpec(prompt: Option<string>, description: string)

  /** One selectable switch. A `variable` option asks for a value; any other is emitted as it is. */
  datatype FlagOption = FlagOption(flag: Option<string>, description: string, variable: bool)

  /** A flag category; a category without an `options` list has none. */
  datatype Category = Category(options: seq<FlagOption>)

  /** A JSON object as its entries in file order: a key occurs at most once. */
  predicate UniqueKeys<V>(entries: seq<(string, V)>) {
    forall i, j :: 0 <= i < j < |entries| ==> entries[i].0 != entries[j].0
  }

  type Entries<V> = e: seq<(string, V)> | UniqueKeys(e)

  /** `list(d.keys())`. */
  function Keys<V>(e: seq<(string, V)>): (r: seq<string>)
    ensures |r| == |e| && forall i :: 0 <= i < |e| ==> r[i] == e[i].0
  {
    seq(|e|, i requires 0 <= i < |e| => e[i].0)
  }

  /** `d[key]`: the value of the (only) entry with that key. */
  function Lookup<V>(e: seq<(string, V)>, key: string): V
    requires key in Keys(e)
  {
    if e[0].0 == key then e[0].1 else Lookup(e[1..], key)
  }

  lemma {:induction false} LookupAt<V>(e: Entries<V>, i: nat)
    requires i < |e|
    ensures e[i].0 in Keys(e) && Lookup(e, e[i].0) == e[i].1
  {
    if i > 0 {
      LookupAt(e[1..], i - 1);
      assert e[1..][i - 1] == e[i];
    }
  }

  /**
   * A parsed descriptor: `{name, description, command, categories, required}`. The display name is
   * always present here; every other field may be missing.
   */
  datatype ToolConfig = ToolConfig(
    name: string,
    description: Option<string>,
    command: Option<string>,
    categories: Option<Entries<Category>>,
    required: Option<Entries<ParamSpec>>)

  /** What `json.load` makes of one file. */
  datatype ConfigFile = Malformed | Parsed(config: ToolConfig)

  /** The configuration directory, which may not exist at all. */
  datatype ConfigDir = Missing | Present(files: map<string, ConfigFile>)

  /** The file `load_config(tool)` opens. */
  function ConfigFileName(tool: string): string {
    tool + "_config.json"
  }

  /** `load_config`: the descriptor in `<tool>_config.json`; a missing directory or file and malformed JSON all give `None`. */
  function LoadConfig(dir: ConfigDir, tool: string): (r: Option<ToolConfig>)
    ensures r.Some? <==> dir.Present? && ConfigFileName(tool) in dir.files && dir.files[ConfigFileName(tool)].Parsed?
    ensures r.Some? ==> r.value == dir.files[ConfigFileName(tool)].config
  {
    if dir.Present? && ConfigFileName(tool) in dir.files then
      match dir.files[ConfigFileName(tool)]
      case Parsed(config) => Some(config)
      case Malformed => None
    else None
  }

  /** `load_config(tool)` looks at one file only: two directories that agree on it give the same answer. */
  lemma LoadConfigReadsOneFile(a: ConfigDir, b: ConfigDir, tool: string)
    requires a.Present? == b.Present?
    requires a.Present? ==> (ConfigFileName(tool) in a.files <==> ConfigFileName(tool) in b.files)
    requires a.Present? && ConfigFileName(tool) in a.files ==> a.files[ConfigFileName(tool)] == b.files[ConfigFileName(tool)]
    ensures LoadConfig(a, tool) == LoadConfig(b, tool)
  {
  }

  /** `get_tool_categories`: the `categories` object, or an empty one. */
  function ToolCategories(config: ToolConfig): (r: Entries<Category>)
    ensures config.categories.Some? ==> r == config.categories.value
    ensures config.categories.None? ==> r == []
  {
    config.categories.GetOr([])
  }

  /** `get_required_params`: the `required` object, or an empty one. */
  function RequiredParams(config: ToolConfig): (r: Entries<ParamSpec>)
    ensures config.required.Some? ==> r == config.required.value
    ensures config.required.None? ==> r == []
  {
    config.required.GetOr([])
  }

  /** The glob `*_config.json`. */
  predicate IsConfigFileName(f: string) {
    EndsWith(f, "_config.json")
  }

  /** `config_file.stem.replace('_config', '')`: the id a listed descriptor is shown under. */
  function ToolId(f: string): string
    requires IsConfigFileName(f)
  {
    ReplaceAll(JsonStem(f), "_config", "")
  }

  /** One line of the tool menu. */
  datatype ToolEntry = ToolEntry(id: string, name: string, description: Option<string>)

  function DisplayName(e: ToolEntry): string {
    e.name
  }

  /** The files `list_available_tools` reports: matching the glob and well-formed. */
  ghost function Listed(files: map<string, ConfigFile>): set<string> {
    set f | f in files && IsConfigFileName(f) && files[f].Parsed?
  }

  function EntryOf(f: string, config: ToolConfig): ToolEntry
    requires IsConfigFileName(f)
  {
    ToolEntry(ToolId(f), config.name, config.description)
  }

  /** The entries of the files in `order`, in that order. */
  function EntriesOf(files: map<string, ConfigFile>, order: seq<string>): (r: seq<ToolEntry>)
    requires forall i :: 0 <= i < |order| ==> order[i] in files && IsConfigFileName(order[i]) && files[order[i]].Parsed?
    ensures |r| == |order|
    ensures forall i :: 0 <= i < |order| ==> r[i] == EntryOf(order[i], files[order[i]].config)
  {
    seq(|order|, i requires 0 <= i < |order| => EntryOf(order[i], files[order[i]].config))
  }

  lemma EntriesOfExtend(files: map<string, ConfigFile>, order: seq<string>, f: string)
    requires forall i :: 0 <= i < |order| ==> order[i] in files && IsConfigFileName(order[i]) && files[order[i]].Parsed?
    requires f in files && IsConfigFileName(f) && files[f].Parsed?
    ensures EntriesOf(files, order + [f]) == EntriesOf(files, order) + [EntryOf(f, files[f].config)]
  {
  }

  /** The scan of the directory: one entry per listed file, in the order the directory yields them. */
  method ScanConfigs(files: map<string, ConfigFile>) returns (found: seq<ToolEntry>, ghost order: seq<string>)
    ensures Enumerates(order, Listed(files))
    ensures forall i :: 0 <= i < |order| ==> order[i] in Listed(files)
    ensures found == EntriesOf(files, order)
  {
    ghost var listed := Listed(files);
    var remaining := files.Keys;
    found := [];
    order := [];
    while remaining != {}
      invariant remaining <= files.Keys
      invariant Enumerates(order, listed - remaining)
      invariant forall i :: 0 <= i < |order| ==> order[i] in listed
      invariant found == EntriesOf(files, order)
      decreases |remaining|
    {
      var f :| f in remaining;
      EnumeratesStep(order, listed, remaining, f);
      remaining := remaining - {f};
      if IsConfigFileName(f) && files[f].Parsed? {
        assert f in listed;
        EntriesOfExtend(files, order, f);
        found := found + [EntryOf(f, files[f].config)];
        order := order + [f];
      } else {
        assert f !in listed;
      }
    }
  }

  /**
   * `list_available_tools`: one entry per well-formed `*_config.json` file, read in whatever order the
   * directory yields (`order`), then sorted by display name. A missing directory lists nothing.
   */
  method ListAvailableTools(dir: ConfigDir) returns (tools: seq<ToolEntry>, ghost order: seq<string>)
    ensures dir.Missing? ==> tools == [] && order == []
    ensures dir.Present? ==> Enumerates(order, Listed(dir.files))
    ensures dir.Present? ==> forall i :: 0 <= i < |order| ==> order[i] in Listed(dir.files)
    ensures dir.Present? ==> tools == SortBy(EntriesOf(dir.files, order), DisplayName)
    ensures dir.Present? ==> multiset(tools) == multiset(EntriesOf(dir.files, order))
    ensures |tools| == |order|
    ensures SortedBy(tools, DisplayName)
  {
    if dir.Missing? {
      return [], [];
    }
    var found;
    found, order := ScanConfigs(dir.files);
    tools := SortBy(found, DisplayName);
    SortBySorted(found, DisplayName);
    SortByPermutes(found, DisplayName);
    assert |multiset(tools)| == |multiset(found)|;
  }

  // How the listed id and `load_config` fit together. `_config` starts with the only `_` it contains,
  // so no occurrence of it can overlap a trailing `_config`.

  /** Removing every `_config` from `p + "_config"` removes the trailing one and whatever `p` holds. */
  lemma {:induction false} DropTrailingConfig(p: string)
    ensures ReplaceAll(p + "_config", "_config", "") == ReplaceAll(p, "_config", "")
  {
    var c := "_config";
    var s := p + c;
    if p == [] {
      assert StartsWith(s, c) && s[7..] == [];
    } else if |p| < 7 {
      assert s[..7][|p|] == '_' != c[|p|];
      assert s[1..] == p[1..] + c;
      DropTrailingConfig(p[1..]);
    } else {
      assert s[..7] == p[..7];
      if StartsWith(p, c) {
        assert s[7..] == p[7..] + c;
        DropTrailingConfig(p[7..]);
      } else {
        assert s[1..] == p[1..] + c;
        DropTrailingConfig(p[1..]);
      }
    }
  }

  lemma {:induction false} RemovalNeverGrows(p: string)
    ensures |ReplaceAll(p, "_config", "")| <= |p|
  {
    if p != [] {
      if StartsWith(p, "_config") {
        RemovalNeverGrows(p[7..]);
      } else {
        RemovalNeverGrows(p[1..]);
      }
    }
  }

  /** Removing `_config` changes a text exactly when the text contains it. */
  lemma {:induction false} RemovalIdentity(p: string)
    ensures ReplaceAll(p, "_config", "") == p <==> !Contains(p, "_config")
  {
    if p != [] {
      RemovalIdentity(p[1..]);
      if StartsWith(p, "_config") {
        RemovalNeverGrows(p[7..]);
      } else {
        assert [p[0]] + p[1..] == p;
        if ReplaceAll(p, "_config", "") == p {
          assert ReplaceAll(p[1..], "_config", "") == p[1..];
        }
      }
    }
  }

  /**
   * The id listed for `f` loads `f` again exactly when `_config` occurs in the file's stem only as its
   * suffix; `a_config_config.json`, say, is listed as `a` and `load_config('a')` opens `a_config.json`.
   */
  lemma ListedIdLoadsSameFile(f: string)
    requires IsConfigFileName(f)
    ensures ConfigFileName(ToolId(f)) == f <==> !Contains(f[..|f| - 12], "_config")
  {
    var p := f[..|f| - 12];
    assert f == p + "_config.json";
    assert JsonStem(f) == p + "_config";
    DropTrailingConfig(p);
    RemovalIdentity(p);
    if ConfigFileName(ToolId(f)) == f {
      assert ToolId(f) + "_config.json" == p + "_config.json";
      assert ToolId(f) == (ToolId(f) + "_config.json")[..|ToolId(f)|];
    }
  }
}
