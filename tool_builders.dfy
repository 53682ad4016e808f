/**
 * The tool-specific builders. Five of them only choose the values that follow the flags; Gobuster
 * also asks its optional flags differently. A builder is the base class plus one of these kinds.
 */
module ToolBuilders {
  import opened Wrappers
  import opened Strings
  import opened ConfigLoader
  import opened Display
  import opened CommandBuilder

  datatype ToolKind = Base | Nmap | Hydra | SQLMap | WPScan | Gobuster | Aircrack

  /** `self.required_params.get(key, '')`. */
  function Param(params: map<string, string>, key: string): string {
    if key in params then params[key] else ""
  }

  /** `[value] if value else []`. */
  function IfGiven(value: string): seq<string> {
    if value != "" then [value] else []
  }

  /** Each builder's `_add_required_values`: the words that follow the flags. */
  function RequiredValues(kind: ToolKind, params: map<string, string>): (r: seq<string>)
    ensures forall i :: 0 <= i < |r| ==> r[i] != ""
    ensures kind == Base || kind == Gobuster ==> r == []
    ensures |r| <= |Slots(kind)|
  {
    match kind
    case Base => []
    case Nmap => IfGiven(Param(params, "target"))
    case Hydra => IfGiven(Param(params, "service")) + IfGiven(Param(params, "target"))
    case SQLMap =>
      var url := Param(params, "url");
      if url != "" then ["-u " + Quoted(url)] else []
    case WPScan =>
      var url := Param(params, "url");
      if url != "" then ["--url " + Quoted(url)] else []
    case Gobuster => []
    case Aircrack => IfGiven(Param(params, "capture"))
  }

  // The same rules as one table: which parameters a builder reads, in which order, and the flag, if
  // any, that introduces each.

  datatype Slot = Slot(key: string, flag: Option<string>)

  function Slots(kind: ToolKind): seq<Slot> {
    match kind
    case Base => []
    case Nmap => [Slot("target", None)]
    case Hydra => [Slot("service", None), Slot("target", None)]
    case SQLMap => [Slot("url", Some("-u"))]
    case WPScan => [Slot("url", Some("--url"))]
    case Gobuster => []
    case Aircrack => [Slot("capture", None)]
  }

  /** The word a slot adds for a given value: the value itself, or `flag "value"`. */
  function Word(slot: Slot, value: string): string {
    match slot.flag
    case None => value
    case Some(f) => f + " " + Quoted(value)
  }

  /** The words of the slots whose parameter is non-empty, in table order. */
  function Render(slots: seq<Slot>, params: map<string, string>): (r: seq<string>)
    ensures |r| <= |slots|
  {
    if slots == [] then []
    else
      var value := Param(params, slots[0].key);
      (if value == "" then [] else [Word(slots[0], value)]) + Render(slots[1..], params)
  }

  /** Every builder follows the table: one word per non-empty parameter it reads, in order, nothing else. */
  lemma RequiredValuesFollowTable(kind: ToolKind, params: map<string, string>)
    ensures RequiredValues(kind, params) == Render(Slots(kind), params)
  {
    var s := Slots(kind);
    if |s| == 2 {
      assert s[1..][1..] == [];
      assert Render(s[1..][1..], params) == [];
    } else if |s| == 1 {
      assert s[1..] == [];
      assert Render(s[1..], params) == [];
      var value := Param(params, s[0].key);
      assert Render(s, params) == (if value == "" then [] else [Word(s[0], value)]) + [];
      match kind
      case SQLMap => assert "-u " + Quoted(value) == "-u" + " " + Quoted(value);
      case WPScan => assert "--url " + Quoted(value) == "--url" + " " + Quoted(value);
      case _ =>
    }
  }

  /** What is rendered depends only on the parameters the table names. */
  lemma {:induction false} RenderReadsOnlySlotKeys(slots: seq<Slot>, a: map<string, string>, b: map<string, string>)
    requires forall i :: 0 <= i < |slots| ==> Param(a, slots[i].key) == Param(b, slots[i].key)
    ensures Render(slots, a) == Render(slots, b)
  {
    if slots != [] {
      RenderReadsOnlySlotKeys(slots[1..], a, b);
    }
  }

  /** A builder's values ignore every parameter it does not read (a `port`, say, never reaches an Nmap command). */
  lemma ValuesIgnoreOtherParameters(kind: ToolKind, a: map<string, string>, b: map<string, string>)
    requires forall i :: 0 <= i < |Slots(kind)| ==> Param(a, Slots(kind)[i].key) == Param(b, Slots(kind)[i].key)
    ensures RequiredValues(kind, a) == RequiredValues(kind, b)
  {
    RequiredValuesFollowTable(kind, a);
    RequiredValuesFollowTable(kind, b);
    RenderReadsOnlySlotKeys(Slots(kind), a, b);
  }

  /** The target given for an Nmap scan ends its command line. */
  lemma NmapTargetLast(command: string, flags: seq<string>, params: map<string, string>)
    requires Param(params, "target") != ""
    ensures Assemble(Some(command), AsParts(flags), RequiredValues(Nmap, params))
      == Some(command + Tail(flags) + " " + Param(params, "target"))
  {
    var target := Param(params, "target");
    assert RequiredValues(Nmap, params) == [target];
    AssembledLayout(command, flags, [target]);
    assert Tail([target]) == " " + target;
    assert command + Tail(flags) + Tail([target]) == command + Tail(flags) + " " + target;
  }

  lemma TwoWords(a: string, b: string)
    ensures Tail([a, b]) == " " + a + " " + b
  {
    assert [a, b][1..] == [b];
    assert Join([b], " ") == b;
  }

  /** A Hydra command line ends with the service, then the target. */
  lemma HydraServiceThenTarget(command: string, flags: seq<string>, params: map<string, string>)
    requires Param(params, "service") != "" && Param(params, "target") != ""
    ensures Assemble(Some(command), AsParts(flags), RequiredValues(Hydra, params))
      == Some(command + Tail(flags) + " " + Param(params, "service") + " " + Param(params, "target"))
  {
    var service, target := Param(params, "service"), Param(params, "target");
    assert RequiredValues(Hydra, params) == [service, target];
    AssembledLayout(command, flags, [service, target]);
    TwoWords(service, target);
    var head := command + Tail(flags);
    assert head + (" " + service + " " + target) == head + " " + service + " " + target;
  }

  // Gobuster's optional flags

  const MODE := "Mode"

  /** `self.categories.get('Mode', {}).get('options', [])`. */
  function ModeOptions(categories: Entries<Category>): seq<FlagOption> {
    if MODE in Keys(categories) then Lookup(categories, MODE).options else []
  }

  /** `[cat for cat in keys if cat != 'Mode']`. */
  function OtherCategories(keys: seq<string>): (r: seq<string>)
    ensures forall k :: k in r <==> k in keys && k != MODE
    ensures |r| <= |keys|
  {
    if keys == [] then []
    else (if keys[0] == MODE then [] else [keys[0]]) + OtherCategories(keys[1..])
  }

  /** One `confirm` per category, in order: the categories answered yes. */
  function ConfirmEach(keys: seq<string>, input: seq<string>, pos: nat): (r: Reply<seq<string>>)
    requires pos <= |input|
    ensures r.Eof? <==> pos + |keys| > |input|
    ensures r.Got? ==> r.next == pos + |keys| && forall k :: k in r.value ==> k in keys
  {
    if keys == [] then Got([], pos)
    else
      var init := keys[..|keys| - 1];
      match ConfirmEach(init, input, pos)
      case Eof => Eof
      case Got(chosen, p) =>
        match ReadConfirm(input, p)
        case Eof => Eof
        case Got(yes, q) =>
          assert forall k :: k in init ==> k in keys;
          Got(chosen + (if yes then [keys[|keys| - 1]] else []), q)
  }

  /** One more question appends the last key exactly when it was answered yes. */
  lemma ConfirmEachLast(keys: seq<string>, input: seq<string>, pos: nat)
    requires pos <= |input| && keys != []
    requires ConfirmEach(keys, input, pos).Got?
    ensures var n := |keys|;
      && ConfirmEach(keys[..n - 1], input, pos).Got?
      && pos + n - 1 < |input|
      && ConfirmEach(keys, input, pos).value
         == ConfirmEach(keys[..n - 1], input, pos).value
            + (if ReadConfirm(input, pos + n - 1).value then [keys[n - 1]] else [])
  {
  }

  /** The last key is chosen exactly when the last question was answered yes. */
  lemma ConfirmEachLastChosen(keys: seq<string>, input: seq<string>, pos: nat)
    requires pos <= |input| && keys != []
    requires forall a, b :: 0 <= a < b < |keys| ==> keys[a] != keys[b]
    requires ConfirmEach(keys, input, pos).Got?
    ensures pos + |keys| - 1 < |input|
    ensures keys[|keys| - 1] in ConfirmEach(keys, input, pos).value
            <==> ReadConfirm(input, pos + |keys| - 1).value
  {
    var n := |keys|;
    var init := keys[..n - 1];
    ConfirmEachLast(keys, input, pos);
    assert keys[n - 1] !in init by {
      forall j | 0 <= j < n - 1 ensures init[j] != keys[n - 1] {
        assert init[j] == keys[j];
      }
    }
  }

  /** An earlier key is chosen exactly when it was chosen before the last question. */
  lemma ConfirmEachEarlierChosen(keys: seq<string>, input: seq<string>, pos: nat, i: nat)
    requires pos <= |input| && i < |keys| - 1
    requires forall a, b :: 0 <= a < b < |keys| ==> keys[a] != keys[b]
    requires ConfirmEach(keys, input, pos).Got?
    ensures ConfirmEach(keys[..|keys| - 1], input, pos).Got?
    ensures keys[i] in ConfirmEach(keys, input, pos).value
            <==> keys[i] in ConfirmEach(keys[..|keys| - 1], input, pos).value
  {
    ConfirmEachLast(keys, input, pos);
  }

  /** A category is configured exactly when its own question, the `i`-th, was answered yes. */
  lemma {:induction false} ConfirmEachChoosesConfirmed(keys: seq<string>, input: seq<string>, pos: nat, i: nat)
    requires pos <= |input| && i < |keys|
    requires forall a, b :: 0 <= a < b < |keys| ==> keys[a] != keys[b]
    requires ConfirmEach(keys, input, pos).Got?
    ensures pos + i < |input|
    ensures keys[i] in ConfirmEach(keys, input, pos).value <==> ReadConfirm(input, pos + i).value
  {
    if i == |keys| - 1 {
      ConfirmEachLastChosen(keys, input, pos);
    } else {
      var init := keys[..|keys| - 1];
      ConfirmEachEarlierChosen(keys, input, pos, i);
      assert forall a, b :: 0 <= a < b < |init| ==> init[a] != init[b] by {
        forall a, b | 0 <= a < b < |init| ensures init[a] != init[b] {
          assert init[a] == keys[a] && init[b] == keys[b];
        }
      }
      ConfirmEachChoosesConfirmed(init, input, pos, i);
      assert init[i] == keys[i];
    }
  }

  /** The flags of the selected modes; a mode option never asks for a value. */
  function ModeSelection(modeOptions: seq<FlagOption>, input: seq<string>, pos: nat): (r: Reply<seq<Option<string>>>)
    requires pos <= |input|
    ensures r.Got? ==> pos <= r.next <= |input|
    ensures modeOptions == [] ==> r == Got([], pos)
  {
    if modeOptions == [] then Got([], pos)
    else
      match ReadChoice(modeOptions, input, pos)
      case Eof => Eof
      case Got(selected, p) => Got(FlagsOf(selected), p)
  }

  /** `s` back to front. */
  function Reverse<T>(s: seq<T>): (r: seq<T>)
    ensures |r| == |s| && forall i :: 0 <= i < |s| ==> r[i] == s[|s| - 1 - i]
  {
    if s == [] then [] else [s[|s| - 1]] + Reverse(s[..|s| - 1])
  }

  /**
   * `GobusterBuilder.get_optional_parameters`: the flag list after it runs, starting from `before`.
   * Each selected mode goes to the front (`insert(0, ...)`), the other categories are offered one by
   * one and configured as the base class does.
   */
  function GobusterOptional(categories: Entries<Category>, before: seq<Option<string>>, input: seq<string>, pos: nat): (r: Reply<seq<Option<string>>>)
    requires pos <= |input|
    ensures r.Got? ==> pos <= r.next <= |input|
    ensures categories == [] ==> r == Got(before, pos)
  {
    if categories == [] then Got(before, pos)
    else
      match ModeSelection(ModeOptions(categories), input, pos)
      case Eof => Eof
      case Got(modes, p) =>
        var front := Reverse(modes) + before;
        var others := OtherCategories(Keys(categories));
        if others == [] then Got(front, p)
        else
          match ConfirmEach(others, input, p)
          case Eof => Eof
          case Got(chosen, q) =>
            match ConfigureCategories(categories, chosen, input, q)
            case Eof => Eof
            case Got(rest, e) => Got(front + rest, e)
  }

  /** The selected modes lead the flag list, the last one selected first; the earlier flags follow unchanged. */
  lemma GobusterModesLead(categories: Entries<Category>, before: seq<Option<string>>, input: seq<string>, pos: nat)
    requires pos <= |input| && categories != []
    requires GobusterOptional(categories, before, input, pos).Got?
    ensures var modes := ModeSelection(ModeOptions(categories), input, pos).value;
      var flags := GobusterOptional(categories, before, input, pos).value;
      && |flags| >= |modes| + |before|
      && (forall i :: 0 <= i < |modes| ==> flags[i] == modes[|modes| - 1 - i])
      && flags[|modes|..|modes| + |before|] == before
  {
    var modes := ModeSelection(ModeOptions(categories), input, pos).value;
    var p := ModeSelection(ModeOptions(categories), input, pos).next;
    var flags := GobusterOptional(categories, before, input, pos).value;
    var front := Reverse(modes) + before;
    assert front <= flags by {
      var others := OtherCategories(Keys(categories));
      if others != [] {
        var chosen := ConfirmEach(others, input, p);
        var rest := ConfigureCategories(categories, chosen.value, input, chosen.next);
        assert flags == front + rest.value;
      }
    }
    assert flags[..|front|] == front;
    assert front[|modes|..] == before;
  }

  /** `self.get_optional_parameters()`, dispatched on the builder: the flag list after it runs. */
  function CollectOptional(kind: ToolKind, categories: Entries<Category>, before: seq<Option<string>>, input: seq<string>, pos: nat): (r: Reply<seq<Option<string>>>)
    requires pos <= |input|
    ensures r.Got? ==> pos <= r.next <= |input|
  {
    if kind == Gobuster then GobusterOptional(categories, before, input, pos)
    else
      match OptionalParameters(categories, input, pos)
      case Eof => Eof
      case Got(added, p) => Got(before + added, p)
  }

  /** Every builder but Gobuster only appends: the flags chosen earlier stay where they were. */
  lemma BaseOnlyAppends(kind: ToolKind, categories: Entries<Category>, before: seq<Option<string>>, input: seq<string>, pos: nat)
    requires pos <= |input| && kind != Gobuster
    requires CollectOptional(kind, categories, before, input, pos).Got?
    ensures before <= CollectOptional(kind, categories, before, input, pos).value
  {
  }
}
