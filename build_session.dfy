/**
 * One build session: the builder object `main.py` creates for the chosen tool. It keeps the answers
 * to the required prompts in `requiredParams` and the flags chosen so far in `selectedFlags`, and
 * fills both while reading the user's answers. The tool-specific subclasses add no state, so one
 * class with a `kind` tag stands for all of them.
 */
module BuildSession {
  import opened Wrappers
  import opened Strings
  import opened ConfigLoader
  import opened Display
  import opened CommandBuilder
  import opened ToolBuilders

  /** Distinct keys, as the keys of a JSON object are. */
  lemma EntryKeysDistinct<V>(e: Entries<V>)
    ensures forall a, b :: 0 <= a < b < |Keys(e)| ==> Keys(e)[a] != Keys(e)[b]
  {
  }

  lemma AssignStep(m: map<string, string>, keys: seq<string>, vals: seq<string>, v: string)
    requires |vals| < |keys|
    ensures var i := |vals|;
      Assign(m, keys[..i + 1], vals + [v]) == Assign(m, keys[..i], vals)[keys[i] := v]
  {
    var i := |vals|;
    var ks, vs := keys[..i + 1], vals + [v];
    assert ks[..i] == keys[..i] && ks[i] == keys[i];
    assert vs[..i] == vals && vs[i] == v;
    assert Assign(m, ks, vs) == Assign(m, ks[..i], vs[..i])[ks[i] := vs[i]];
  }

  lemma ApplyOptionsExtend(opts: seq<FlagOption>, k: nat, input: seq<string>, pos: nat)
    requires pos <= |input| && k < |opts|
    requires ApplyOptions(opts[..k], input, pos).Got?
    ensures var prev := ApplyOptions(opts[..k], input, pos);
      var t := ApplyOption(opts[k], input, prev.next);
      ApplyOptions(opts[..k + 1], input, pos) == if t.Eof? then Eof else Got(prev.value + t.value, t.next)
  {
    assert opts[..k + 1][..k] == opts[..k];
  }

  lemma ConfigureCategoriesExtend(categories: Entries<Category>, chosen: seq<string>, k: nat, input: seq<string>, pos: nat)
    requires pos <= |input| && k < |chosen|
    requires forall i :: 0 <= i < |chosen| ==> chosen[i] in Keys(categories)
    requires ConfigureCategories(categories, chosen[..k], input, pos).Got?
    ensures var prev := ConfigureCategories(categories, chosen[..k], input, pos);
      var t := ConfigureCategory(Lookup(categories, chosen[k]), input, prev.next);
      ConfigureCategories(categories, chosen[..k + 1], input, pos) == if t.Eof? then Eof else Got(prev.value + t.value, t.next)
  {
    assert chosen[..k + 1][..k] == chosen[..k];
  }

  lemma ReverseStep<T>(s: seq<T>, k: nat)
    requires k < |s|
    ensures Reverse(s[..k + 1]) == [s[k]] + Reverse(s[..k])
  {
    assert s[..k + 1][..k] == s[..k];
  }

  /**
   * What `build_command` gives on a builder just made from `config`: the command line, or `None`, and
   * the first line left unread. Running out of input inside the build also gives `None`.
   */
  function FreshBuild(config: ToolConfig, kind: ToolKind, input: seq<string>, pos: nat): (r: (Option<string>, nat))
    requires pos <= |input|
    ensures pos <= r.1 <= |input|
  {
    var required := RequiredParams(config);
    match CollectRequired(|required|, input, pos)
    case Eof => (None, |input|)
    case Got(vals, p) =>
      var params := Assign(map[], Keys(required), vals);
      if |params| != |required| then (None, p)
      else
        match CollectOptional(kind, ToolCategories(config), [], input, p)
        case Eof => (None, |input|)
        case Got(flags, q) => (Assemble(config.command, flags, RequiredValues(kind, params)), q)
  }

  /** On a fresh builder the count check after the prompts always passes: the keys are distinct and the map starts empty. */
  lemma FreshCountPasses(required: Entries<ParamSpec>, input: seq<string>, pos: nat)
    requires pos <= |input|
    requires CollectRequired(|required|, input, pos).Got?
    ensures |Assign(map[], Keys(required), CollectRequired(|required|, input, pos).value)| == |required|
  {
    EntryKeysDistinct(required);
    CountCheck(map[], Keys(required), CollectRequired(|required|, input, pos).value);
  }

  /**
   * A fresh build fails only when the input runs out or a part of the line is missing; when it
   * succeeds the line is the base command, the flags in order, then the tool's values.
   */
  lemma FreshBuildLayout(config: ToolConfig, kind: ToolKind, input: seq<string>, pos: nat)
    requires pos <= |input|
    ensures var required := RequiredParams(config);
      match CollectRequired(|required|, input, pos)
      case Eof => FreshBuild(config, kind, input, pos).0.None?
      case Got(vals, p) =>
        var params := Assign(map[], Keys(required), vals);
        match CollectOptional(kind, ToolCategories(config), [], input, p)
        case Eof => FreshBuild(config, kind, input, pos).0.None?
        case Got(flags, q) =>
          && (FreshBuild(config, kind, input, pos).0.Some?
              <==> config.command.Some? && forall i :: 0 <= i < |flags| ==> flags[i].Some?)
          && (FreshBuild(config, kind, input, pos).0.Some? ==>
                FreshBuild(config, kind, input, pos).0.value
                == config.command.value + Tail(Texts(flags)) + Tail(RequiredValues(kind, params)))
  {
    var required := RequiredParams(config);
    var got := CollectRequired(|required|, input, pos);
    if got.Got? {
      FreshCountPasses(required, input, pos);
      var params := Assign(map[], Keys(required), got.value);
      var opt := CollectOptional(kind, ToolCategories(config), [], input, got.next);
      if opt.Got? && config.command.Some? && forall i :: 0 <= i < |opt.value| ==> opt.value[i].Some? {
        var flags := opt.value;
        assert AsParts(Texts(flags)) == flags;
        AssembledLayout(config.command.value, Texts(flags), RequiredValues(kind, params));
      }
    }
  }

  /** A line a fresh build gives starts with the descriptor's base command. */
  lemma FreshBuildStarts(config: ToolConfig, kind: ToolKind, input: seq<string>, pos: nat)
    requires pos <= |input|
    ensures FreshBuild(config, kind, input, pos).0.Some? ==>
      config.command.Some? && StartsWith(FreshBuild(config, kind, input, pos).0.value, config.command.value)
  {
    var line := FreshBuild(config, kind, input, pos).0;
    if line.Some? {
      FreshBuildLayout(config, kind, input, pos);
      var required := RequiredParams(config);
      var vals := CollectRequired(|required|, input, pos);
      var params := Assign(map[], Keys(required), vals.value);
      var flags := CollectOptional(kind, ToolCategories(config), [], input, vals.next);
      var rest := Tail(Texts(flags.value)) + Tail(RequiredValues(kind, params));
      AppendAssoc(config.command.value, Tail(Texts(flags.value)), Tail(RequiredValues(kind, params)));
      assert line.value == config.command.value + rest;
      assert line.value[..|config.command.value|] == config.command.value;
    }
  }

  /** Gobuster's pass over the other categories: one yes/no question each, in order; the ones answered yes. */
  method ConfirmCategories(keys: seq<string>, input: seq<string>, pos: nat) returns (r: Reply<seq<string>>)
    requires pos <= |input|
    ensures r == ConfirmEach(keys, input, pos)
  {
    var p := pos;
    var chosen: seq<string> := [];
    var c := 0;
    while c < |keys|
      invariant c <= |keys| && ConfirmEach(keys[..c], input, pos) == Got(chosen, p)
    {
      var yes := ReadConfirm(input, p);
      if yes.Eof? {
        return Eof;
      }
      assert keys[..c + 1][..c] == keys[..c];
      if yes.value {
        chosen := chosen + [keys[c]];
      } else {
        assert chosen + [] == chosen;
      }
      p := yes.next;
      c := c + 1;
    }
    assert keys[..c] == keys;
    return Got(chosen, p);
  }

  class Builder {
    const kind: ToolKind
    const toolName: string
    const command: Option<string>
    const categories: Entries<Category>
    const required: Entries<ParamSpec>
    var hintMode: bool
    var selectedFlags: seq<Option<string>>
    var requiredParams: map<string, string>

    /** `CommandBuilder(config)`: the descriptor's fields, hints off, nothing selected or answered yet. */
    constructor (config: ToolConfig, kind: ToolKind)
      ensures this.kind == kind && toolName == config.name && command == config.command
      ensures categories == ToolCategories(config) && required == RequiredParams(config)
      ensures !hintMode && selectedFlags == [] && requiredParams == map[]
    {
      this.kind := kind;
      toolName := config.name;
      command := config.command;
      categories := config.categories.GetOr([]);
      required := config.required.GetOr([]);
      hintMode := false;
      selectedFlags := [];
      requiredParams := map[];
    }

    /** `set_hint_mode`. Hints only change what is printed, never the command. */
    method SetHintMode(enabled: bool)
      modifies this`hintMode
      ensures hintMode == enabled
    {
      hintMode := enabled;
    }

    /** The loop of `get_required_parameters`: asks for each key in turn and stores the answer under it. */
    method AnswerPrompts(keys: seq<string>, input: seq<string>, pos: nat) returns (next: Option<nat>)
      requires pos <= |input|
      modifies this`requiredParams
      ensures match CollectRequired(|keys|, input, pos)
        case Eof => next.None?
        case Got(vals, p) => next == Some(p) && requiredParams == Assign(old(requiredParams), keys, vals)
    {
      var p := pos;
      var i := 0;
      ghost var got: seq<string> := [];
      while i < |keys|
        invariant i <= |keys| && CollectRequired(i, input, pos) == Got(got, p)
        invariant requiredParams == Assign(old(requiredParams), keys[..i], got)
      {
        var value := GetTextInput(input, p, true);
        if value.Eof? {
          CollectRequiredStaysEof(i + 1, |keys|, input, pos);
          return None;
        }
        AssignStep(old(requiredParams), keys, got, value.value);
        requiredParams := requiredParams[keys[i] := value.value];
        got := got + [value.value];
        p := value.next;
        i := i + 1;
      }
      assert keys[..i] == keys;
      return Some(p);
    }

    /**
     * `get_required_parameters`: one non-blank answer per required key, stored under that key in
     * descriptor order. It reports whether the map then holds as many keys as the descriptor has,
     * which is the case exactly when no other key was in it beforehand.
     */
    method GetRequiredParameters(input: seq<string>, pos: nat) returns (r: Reply<bool>)
      requires pos <= |input|
      modifies this`requiredParams
      ensures match CollectRequired(|required|, input, pos)
        case Eof => r.Eof?
        case Got(vals, next) =>
          && requiredParams == Assign(old(requiredParams), Keys(required), vals)
          && r == Got(|requiredParams| == |required|, next)
      ensures r.Got? ==> (r.value <==> old(requiredParams).Keys <= (set k | k in Keys(required)))
      ensures r.Got? ==> forall k :: k in Keys(required) ==> k in requiredParams && requiredParams[k] != ""
    {
      var keys := Keys(required);
      var next := AnswerPrompts(keys, input, pos);
      if next.None? {
        return Eof;
      }
      r := Got(|requiredParams| == |required|, next.value);
      ghost var vals := CollectRequired(|keys|, input, pos).value;
      EntryKeysDistinct(required);
      CountCheck(old(requiredParams), keys, vals);
      RequiredAnswered(old(requiredParams), keys, vals);
    }

    /** One selected option: a switch adds its flag; a value option asks for the value and adds `flag "value"` unless it is blank. */
    method AddOption(opt: FlagOption, input: seq<string>, pos: nat) returns (next: Option<nat>)
      requires pos <= |input|
      modifies this`selectedFlags
      ensures match ApplyOption(opt, input, pos)
        case Eof => next.None? && selectedFlags == old(selectedFlags)
        case Got(added, p) => next == Some(p) && selectedFlags == old(selectedFlags) + added
    {
      if opt.variable {
        var value := GetTextInput(input, pos, false);
        if value.Eof? {
          return None;
        }
        if value.value != "" {
          var flag := opt.flag;
          selectedFlags := selectedFlags + [Some(FlagText(flag) + " " + Quoted(value.value))];
        } else {
          assert selectedFlags + [] == selectedFlags;
        }
        return Some(value.next);
      } else {
        selectedFlags := selectedFlags + [opt.flag];
        return Some(pos);
      }
    }

    /** The inner loop over the options selected in one category, in the order selected. */
    method AddOptions(opts: seq<FlagOption>, input: seq<string>, pos: nat) returns (next: Option<nat>)
      requires pos <= |input|
      modifies this`selectedFlags
      ensures match ApplyOptions(opts, input, pos)
        case Eof => next.None?
        case Got(added, p) => next == Some(p) && selectedFlags == old(selectedFlags) + added
      ensures old(selectedFlags) <= selectedFlags
    {
      var p := pos;
      var k := 0;
      ghost var added: seq<Option<string>> := [];
      while k < |opts|
        invariant k <= |opts| && ApplyOptions(opts[..k], input, pos) == Got(added, p)
        invariant selectedFlags == old(selectedFlags) + added
      {
        ApplyOptionsExtend(opts, k, input, pos);
        ghost var t := ApplyOption(opts[k], input, p);
        var q := AddOption(opts[k], input, p);
        if q.None? {
          ApplyOptionsStaysEof(opts, k + 1, input, pos);
          return None;
        }
        AppendAssoc(old(selectedFlags), added, t.value);
        added := added + t.value;
        p := q.value;
        k := k + 1;
      }
      assert opts[..k] == opts;
      return Some(p);
    }

    /** One category: offer its options (when it has any) and add the chosen ones. */
    method ConfigureOne(cat: Category, input: seq<string>, pos: nat) returns (next: Option<nat>)
      requires pos <= |input|
      modifies this`selectedFlags
      ensures match ConfigureCategory(cat, input, pos)
        case Eof => next.None?
        case Got(added, p) => next == Some(p) && selectedFlags == old(selectedFlags) + added
      ensures old(selectedFlags) <= selectedFlags
    {
      if cat.options == [] {
        assert selectedFlags == old(selectedFlags) + [];
        return Some(pos);
      }
      var selected := DisplayOptions(cat.options, input, pos);
      if selected.Eof? {
        return None;
      }
      next := AddOptions(selected.value, input, selected.next);
    }

    /** The chosen categories, one after the other in the order chosen. */
    method ConfigureChosen(chosen: seq<string>, input: seq<string>, pos: nat) returns (next: Option<nat>)
      requires pos <= |input|
      requires forall i :: 0 <= i < |chosen| ==> chosen[i] in Keys(categories)
      modifies this`selectedFlags
      ensures match ConfigureCategories(categories, chosen, input, pos)
        case Eof => next.None?
        case Got(added, p) => next == Some(p) && selectedFlags == old(selectedFlags) + added
      ensures old(selectedFlags) <= selectedFlags
    {
      var p := pos;
      var k := 0;
      ghost var added: seq<Option<string>> := [];
      while k < |chosen|
        invariant k <= |chosen| && ConfigureCategories(categories, chosen[..k], input, pos) == Got(added, p)
        invariant selectedFlags == old(selectedFlags) + added
      {
        ConfigureCategoriesExtend(categories, chosen, k, input, pos);
        ghost var t := ConfigureCategory(Lookup(categories, chosen[k]), input, p);
        ghost var before := selectedFlags;
        var q := ConfigureOne(Lookup(categories, chosen[k]), input, p);
        if q.None? {
          ConfigureCategoriesStaysEof(categories, chosen, k + 1, input, pos);
          assert old(selectedFlags) <= before <= selectedFlags;
          return None;
        }
        AppendAssoc(old(selectedFlags), added, t.value);
        added := added + t.value;
        p := q.value;
        k := k + 1;
      }
      assert chosen[..k] == chosen;
      return Some(p);
    }

    /** The base `get_optional_parameters`: choose categories, then options within each, in the order chosen. */
    method BaseOptionalParameters(input: seq<string>, pos: nat) returns (next: Option<nat>)
      requires pos <= |input|
      modifies this`selectedFlags
      ensures match OptionalParameters(categories, input, pos)
        case Eof => next.None?
        case Got(added, p) => next == Some(p) && selectedFlags == old(selectedFlags) + added
    {
      if categories == [] {
        return Some(pos);
      }
      var chosen := DisplayCategories(categories, input, pos);
      if chosen.Eof? {
        return None;
      }
      next := ConfigureChosen(chosen.value, input, chosen.next);
    }

    /** `insert(0, flag)` for each mode selected, in the order selected: the last one ends up first. */
    method InsertModes(sel: seq<FlagOption>)
      modifies this`selectedFlags
      ensures selectedFlags == Reverse(FlagsOf(sel)) + old(selectedFlags)
    {
      ghost var modes := FlagsOf(sel);
      var k := 0;
      while k < |sel|
        invariant k <= |sel|
        invariant selectedFlags == Reverse(modes[..k]) + old(selectedFlags)
      {
        ReverseStep(modes, k);
        assert modes[k] == sel[k].flag;
        AppendAssoc([sel[k].flag], Reverse(modes[..k]), old(selectedFlags));
        selectedFlags := [sel[k].flag] + selectedFlags;
        k := k + 1;
      }
      assert modes[..k] == modes;
    }

    /** Gobuster's mode menu: the modes selected go to the front of the flags. */
    method PutModesFirst(modeOptions: seq<FlagOption>, input: seq<string>, pos: nat) returns (next: Option<nat>)
      requires pos <= |input|
      modifies this`selectedFlags
      ensures match ModeSelection(modeOptions, input, pos)
        case Eof => next.None?
        case Got(modes, p) => next == Some(p) && selectedFlags == Reverse(modes) + old(selectedFlags)
    {
      if modeOptions == [] {
        return Some(pos);
      }
      var selected := DisplayOptions(modeOptions, input, pos);
      if selected.Eof? {
        return None;
      }
      InsertModes(selected.value);
      return Some(selected.next);
    }

    /**
     * `GobusterBuilder.get_optional_parameters`: each selected mode flag is put in front of the list,
     * then every other category is offered with a yes/no question and the confirmed ones are
     * configured as the base class does.
     */
    method GobusterOptionalParameters(input: seq<string>, pos: nat) returns (next: Option<nat>)
      requires pos <= |input|
      modifies this`selectedFlags
      ensures match GobusterOptional(categories, old(selectedFlags), input, pos)
        case Eof => next.None?
        case Got(flags, p) => next == Some(p) && selectedFlags == flags
    {
      if categories == [] {
        return Some(pos);
      }
      var afterModes := PutModesFirst(ModeOptions(categories), input, pos);
      if afterModes.None? {
        return None;
      }
      var p := afterModes.value;
      ghost var front := selectedFlags;
      var others := OtherCategories(Keys(categories));
      if others == [] {
        return Some(p);
      }
      var chosen := ConfirmCategories(others, input, p);
      if chosen.Eof? {
        return None;
      }
      assert forall i :: 0 <= i < |chosen.value| ==> chosen.value[i] in Keys(categories);
      next := ConfigureChosen(chosen.value, input, chosen.next);
    }

    /** `get_optional_parameters`, as the builder's class defines it. */
    method GetOptionalParameters(input: seq<string>, pos: nat) returns (next: Option<nat>)
      requires pos <= |input|
      modifies this`selectedFlags
      ensures match CollectOptional(kind, categories, old(selectedFlags), input, pos)
        case Eof => next.None?
        case Got(flags, p) => next == Some(p) && selectedFlags == flags
    {
      if kind == Gobuster {
        next := GobusterOptionalParameters(input, pos);
      } else {
        next := BaseOptionalParameters(input, pos);
      }
    }

    /**
     * `build_command`: the required prompts, then (only if they report success) the optional menus,
     * then the command line. Running out of input and a `None` in the line both give `None`; `next`
     * is where reading stopped.
     */
    method BuildCommand(input: seq<string>, pos: nat) returns (r: Option<string>, next: nat)
      requires pos <= |input|
      modifies this`requiredParams, this`selectedFlags
      ensures next <= |input|
      ensures match CollectRequired(|required|, input, pos)
        case Eof => r.None? && next == |input| && selectedFlags == old(selectedFlags)
        case Got(vals, p) =>
          var params := Assign(old(requiredParams), Keys(required), vals);
          && requiredParams == params
          && if |params| != |required| then r.None? && next == p && selectedFlags == old(selectedFlags)
             else match CollectOptional(kind, categories, old(selectedFlags), input, p)
               case Eof => r.None? && next == |input|
               case Got(flags, q) =>
                 selectedFlags == flags && next == q && r == Assemble(command, flags, RequiredValues(kind, params))
      ensures r.Some? ==> forall k :: k in Keys(required) ==> k in requiredParams && requiredParams[k] != ""
    {
      var ok := GetRequiredParameters(input, pos);
      if ok.Eof? {
        return None, |input|;
      }
      if !ok.value {
        return None, ok.next;
      }
      var after := GetOptionalParameters(input, ok.next);
      if after.None? {
        return None, |input|;
      }
      var values := RequiredValues(kind, requiredParams);
      r := Assemble(command, selectedFlags, values);
      next := after.value;
    }
  }

  /**
   * What `main.py` does with a builder class: makes a builder from the descriptor, sets its hint mode
   * and builds. The line and where reading stopped are those of a fresh build, whatever the hint mode.
   */
  method RunBuilder(config: ToolConfig, kind: ToolKind, hintMode: bool, input: seq<string>, pos: nat)
    returns (command: Option<string>, next: nat, builder: Builder)
    requires pos <= |input|
    ensures (command, next) == FreshBuild(config, kind, input, pos)
    ensures fresh(builder) && builder.kind == kind && builder.hintMode == hintMode
  {
    builder := new Builder(config, kind);
    builder.SetHintMode(hintMode);
    command, next := builder.BuildCommand(input, pos);
  }
}
