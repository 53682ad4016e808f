/**
 * The rules of the base `CommandBuilder`, as functions of the descriptor and the input script:
 * what the required prompts collect, which flags the optional menus add, and how the command line is
 * joined. The stateful builder that follows these rules is `BuildSession.Builder`.
 */
module CommandBuilder {
  import opened Wrappers
  import opened Strings
  import opened ConfigLoader
  import opened Display
  import Sorting

  // Required parameters

  /** The answers to the first `count` required prompts, in descriptor order; blank answers are asked again. */
  function CollectRequired(count: nat, input: seq<string>, pos: nat): (r: Reply<seq<string>>)
    requires pos <= |input|
    ensures r.Got? ==> |r.value| == count && pos <= r.next <= |input|
    ensures r.Got? ==> forall i :: 0 <= i < count ==> r.value[i] != ""
  {
    if count == 0 then Got([], pos)
    else
      match CollectRequired(count - 1, input, pos)
      case Eof => Eof
      case Got(vs, p) =>
        match ReadText(input, p, true)
        case Eof => Eof
        case Got(v, q) => Got(vs + [v], q)
  }

  /** Once the input has run out, every later prompt finds it run out too. */
  lemma {:induction false} CollectRequiredStaysEof(k: nat, count: nat, input: seq<string>, pos: nat)
    requires pos <= |input| && k <= count
    requires CollectRequired(k, input, pos).Eof?
    ensures CollectRequired(count, input, pos).Eof?
    decreases count - k
  {
    if k < count {
      CollectRequiredStaysEof(k + 1, count, input, pos);
    }
  }

  /** `m[keys[0]] = vals[0]`, then `m[keys[1]] = vals[1]`, and so on. */
  function Assign(m: map<string, string>, keys: seq<string>, vals: seq<string>): (r: map<string, string>)
    requires |keys| == |vals|
    ensures r.Keys == m.Keys + (set k | k in keys)
    ensures forall k :: k in m && k !in keys ==> r[k] == m[k]
    decreases |keys|
  {
    if keys == [] then m
    else Assign(m, keys[..|keys| - 1], vals[..|vals| - 1])[keys[|keys| - 1] := vals[|vals| - 1]]
  }

  /** With distinct keys, each key ends up holding its own answer. */
  lemma {:induction false} AssignedValues(m: map<string, string>, keys: seq<string>, vals: seq<string>, i: nat)
    requires |keys| == |vals| && i < |keys|
    requires forall a, b :: 0 <= a < b < |keys| ==> keys[a] != keys[b]
    ensures Assign(m, keys, vals)[keys[i]] == vals[i]
    decreases |keys|
  {
    if i < |keys| - 1 {
      AssignedValues(m, keys[..|keys| - 1], vals[..|vals| - 1], i);
    }
  }

  /**
   * `len(self.required_params) == len(self.required)` after the prompts: it holds exactly when every key
   * the map held beforehand is a descriptor key, whatever was answered.
   */
  lemma CountCheck(before: map<string, string>, keys: seq<string>, vals: seq<string>)
    requires |keys| == |vals|
    requires forall a, b :: 0 <= a < b < |keys| ==> keys[a] != keys[b]
    ensures |Assign(before, keys, vals)| == |keys| <==> before.Keys <= (set k | k in keys)
  {
    var ks := set k | k in keys;
    assert Sorting.Enumerates(keys, ks);
    Sorting.EnumerationSize(keys, ks);
    assert |Assign(before, keys, vals)| == |before.Keys + ks|;
    UnionSize(before.Keys, ks);
  }

  /** A union is no larger than one of its sides exactly when the other side adds nothing to it. */
  lemma UnionSize<T>(a: set<T>, b: set<T>)
    ensures |a + b| == |b| <==> a <= b
  {
    if !(a <= b) {
      var x :| x in a && x !in b;
      var grown := b + {x};
      var extra := (a + b) - grown;
      assert a + b == grown + extra;
      assert grown * extra == {};
      assert |grown| == |b| + 1;
      assert |a + b| == |grown| + |extra|;
    } else {
      assert a + b == b;
    }
  }

  /** Every descriptor key holds a non-blank answer once the prompts are done. */
  lemma RequiredAnswered(before: map<string, string>, keys: seq<string>, vals: seq<string>)
    requires |keys| == |vals|
    requires forall a, b :: 0 <= a < b < |keys| ==> keys[a] != keys[b]
    requires forall i :: 0 <= i < |vals| ==> vals[i] != ""
    ensures forall k :: k in keys ==> k in Assign(before, keys, vals) && Assign(before, keys, vals)[k] != ""
  {
    forall k | k in keys
      ensures Assign(before, keys, vals)[k] != ""
    {
      var i :| 0 <= i < |keys| && keys[i] == k;
      AssignedValues(before, keys, vals, i);
    }
  }

  // Optional flags

  /** `f'{flag}'`: a missing flag prints as `None`. */
  function FlagText(flag: Option<string>): string {
    flag.GetOr("None")
  }

  /** What a value option adds for the answer `value`: `flag "value"`, or nothing for an empty answer. */
  function ValueFlag(flag: Option<string>, value: string): seq<Option<string>> {
    if value == "" then [] else [Some(FlagText(flag) + " " + Quoted(value))]
  }

  /** What one selected option adds: its flag as it is, or, for a value option, the flag with the value asked for. */
  function ApplyOption(opt: FlagOption, input: seq<string>, pos: nat): (r: Reply<seq<Option<string>>>)
    requires pos <= |input|
    ensures r.Eof? <==> opt.variable && pos == |input|
    ensures r.Got? && !opt.variable ==> r == Got([opt.flag], pos)
    ensures r.Got? && opt.variable ==> r == Got(ValueFlag(opt.flag, Strip(input[pos])), pos + 1)
  {
    if opt.variable then
      match ReadText(input, pos, false)
      case Eof => Eof
      case Got(v, p) => Got(ValueFlag(opt.flag, v), p)
    else Got([opt.flag], pos)
  }

  /** The inner loop of `get_optional_parameters`: the flags the selected options add, in the order selected. */
  function ApplyOptions(opts: seq<FlagOption>, input: seq<string>, pos: nat): (r: Reply<seq<Option<string>>>)
    requires pos <= |input|
    ensures r.Got? ==> pos <= r.next <= |input| && |r.value| <= |opts|
  {
    if opts == [] then Got([], pos)
    else
      match ApplyOptions(opts[..|opts| - 1], input, pos)
      case Eof => Eof
      case Got(ts, p) =>
        match ApplyOption(opts[|opts| - 1], input, p)
        case Eof => Eof
        case Got(t, q) => Got(ts + t, q)
  }

  /** Once the input has run out, no later option gets an answer either. */
  lemma {:induction false} ApplyOptionsStaysEof(opts: seq<FlagOption>, k: nat, input: seq<string>, pos: nat)
    requires pos <= |input| && k <= |opts|
    requires ApplyOptions(opts[..k], input, pos).Eof?
    ensures ApplyOptions(opts, input, pos).Eof?
    decreases |opts| - k
  {
    if k < |opts| {
      assert opts[..k + 1][..k] == opts[..k];
      ApplyOptionsStaysEof(opts, k + 1, input, pos);
    } else {
      assert opts[..k] == opts;
    }
  }

  function FlagsOf(opts: seq<FlagOption>): (r: seq<Option<string>>)
    ensures |r| == |opts| && forall i :: 0 <= i < |opts| ==> r[i] == opts[i].flag
  {
    seq(|opts|, i requires 0 <= i < |opts| => opts[i].flag)
  }

  /** Switches without values are added verbatim, in the order selected, repeats included, and read no input. */
  lemma {:induction false} SwitchesVerbatim(opts: seq<FlagOption>, input: seq<string>, pos: nat)
    requires pos <= |input|
    requires forall i :: 0 <= i < |opts| ==> !opts[i].variable
    ensures ApplyOptions(opts, input, pos) == Got(FlagsOf(opts), pos)
  {
    if opts != [] {
      var init := opts[..|opts| - 1];
      SwitchesVerbatim(init, input, pos);
      assert FlagsOf(opts) == FlagsOf(init) + [opts[|opts| - 1].flag];
    }
  }

  /** One value option reads one line; blank answers add nothing. */
  lemma ValueOptionReadsOneLine(opt: FlagOption, input: seq<string>, pos: nat)
    requires opt.variable && pos < |input|
    ensures Strip(input[pos]) == "" ==> ApplyOptions([opt], input, pos) == Got([], pos + 1)
    ensures Strip(input[pos]) != "" ==>
      ApplyOptions([opt], input, pos) == Got([Some(FlagText(opt.flag) + " \"" + Strip(input[pos]) + "\"")], pos + 1)
  {
    assert [opt][..0] == [];
    var v := Strip(input[pos]);
    var added := ValueFlag(opt.flag, v);
    assert ApplyOption(opt, input, pos) == Got(added, pos + 1);
    assert [] + added == added;
    assert FlagText(opt.flag) + " " + Quoted(v) == FlagText(opt.flag) + " \"" + v + "\"";
  }

  /** The flags one chosen category adds; a category without options adds none and reads nothing. */
  function ConfigureCategory(cat: Category, input: seq<string>, pos: nat): (r: Reply<seq<Option<string>>>)
    requires pos <= |input|
    ensures cat.options == [] ==> r == Got([], pos)
    ensures r.Got? ==> pos <= r.next <= |input|
  {
    if cat.options == [] then Got([], pos)
    else
      match ReadChoice(cat.options, input, pos)
      case Eof => Eof
      case Got(chosen, p) => ApplyOptions(chosen, input, p)
  }

  /** The flags of the chosen categories, one category after the other in the order chosen. */
  function ConfigureCategories(categories: Entries<Category>, chosen: seq<string>, input: seq<string>, pos: nat): (r: Reply<seq<Option<string>>>)
    requires pos <= |input|
    requires forall i :: 0 <= i < |chosen| ==> chosen[i] in Keys(categories)
    ensures r.Got? ==> pos <= r.next <= |input|
  {
    if chosen == [] then Got([], pos)
    else
      match ConfigureCategories(categories, chosen[..|chosen| - 1], input, pos)
      case Eof => Eof
      case Got(ts, p) =>
        match ConfigureCategory(Lookup(categories, chosen[|chosen| - 1]), input, p)
        case Eof => Eof
        case Got(t, q) => Got(ts + t, q)
  }

  /** Once the input has run out, no later category gets configured either. */
  lemma {:induction false} ConfigureCategoriesStaysEof(categories: Entries<Category>, chosen: seq<string>, k: nat, input: seq<string>, pos: nat)
    requires pos <= |input| && k <= |chosen|
    requires forall i :: 0 <= i < |chosen| ==> chosen[i] in Keys(categories)
    requires ConfigureCategories(categories, chosen[..k], input, pos).Eof?
    ensures ConfigureCategories(categories, chosen, input, pos).Eof?
    decreases |chosen| - k
  {
    if k < |chosen| {
      assert chosen[..k + 1][..k] == chosen[..k];
      ConfigureCategoriesStaysEof(categories, chosen, k + 1, input, pos);
    } else {
      assert chosen[..k] == chosen;
    }
  }

  /** Everything the base `get_optional_parameters` appends; a tool without categories asks nothing. */
  function OptionalParameters(categories: Entries<Category>, input: seq<string>, pos: nat): (r: Reply<seq<Option<string>>>)
    requires pos <= |input|
    ensures categories == [] ==> r == Got([], pos)
    ensures r.Got? ==> pos <= r.next <= |input|
  {
    if categories == [] then Got([], pos)
    else
      match ReadChoice(Keys(categories), input, pos)
      case Eof => Eof
      case Got(chosen, p) => ConfigureCategories(categories, chosen, input, p)
  }

  // The command line

  function Texts(parts: seq<Option<string>>): (r: seq<string>)
    requires forall i :: 0 <= i < |parts| ==> parts[i].Some?
    ensures |r| == |parts| && forall i :: 0 <= i < |parts| ==> r[i] == parts[i].value
  {
    seq(|parts|, i requires 0 <= i < |parts| => parts[i].value)
  }

  function AsParts(values: seq<string>): (r: seq<Option<string>>)
    ensures |r| == |values| && forall i :: 0 <= i < |values| ==> r[i] == Some(values[i])
  {
    seq(|values|, i requires 0 <= i < |values| => Some(values[i]))
  }

  /** `' '.join(parts)`, which raises a `TypeError`, here `None`, when a part is `None`. */
  function JoinParts(parts: seq<Option<string>>): (r: Option<string>)
    ensures r.Some? <==> forall i :: 0 <= i < |parts| ==> parts[i].Some?
  {
    if forall i :: 0 <= i < |parts| ==> parts[i].Some? then Some(Join(Texts(parts), " ")) else None
  }

  /** `' '.join([self.command] + self.selected_flags + self._add_required_values())`. */
  function Assemble(command: Option<string>, flags: seq<Option<string>>, values: seq<string>): (r: Option<string>)
    ensures r.Some? <==> command.Some? && forall i :: 0 <= i < |flags| ==> flags[i].Some?
  {
    var parts := [command] + flags + AsParts(values);
    assert forall i :: 0 <= i < |flags| ==> parts[1 + i] == flags[i];
    JoinParts(parts)
  }

  /** The words `xs`, each preceded by a blank. */
  function Tail(xs: seq<string>): string {
    if xs == [] then "" else " " + Join(xs, " ")
  }

  lemma JoinFirst(x: string, xs: seq<string>)
    ensures Join([x] + xs, " ") == x + Tail(xs)
  {
    if xs != [] {
      JoinAppend([x], xs, " ");
    }
  }

  lemma TailAppend(a: seq<string>, b: seq<string>)
    ensures Tail(a + b) == Tail(a) + Tail(b)
  {
    if a == [] {
      assert a + b == b;
    } else if b == [] {
      assert a + b == a;
    } else {
      var ja, jb := Join(a, " "), Join(b, " ");
      JoinAppend(a, b, " ");
      assert Tail(a + b) == " " + (ja + " " + jb);
      AppendAssoc(" " + ja, " ", jb);
    }
  }

  /** The command line is the base command, then the flags in the order added, then the tool's values. */
  lemma AssembledLayout(command: string, flags: seq<string>, values: seq<string>)
    ensures Assemble(Some(command), AsParts(flags), values) == Some(command + Tail(flags) + Tail(values))
  {
    var parts := [Some(command)] + AsParts(flags) + AsParts(values);
    assert forall i :: 0 <= i < |parts| ==> parts[i].Some?;
    assert Assemble(Some(command), AsParts(flags), values) == Some(Join(Texts(parts), " "));
    assert Texts(parts) == [command] + (flags + values);
    JoinFirst(command, flags + values);
    TailAppend(flags, values);
    assert command + (Tail(flags) + Tail(values)) == command + Tail(flags) + Tail(values);
  }
}
