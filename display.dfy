/**
 * The menus of the wizard. A session's keyboard input is a script of lines, `input`, read from a
 * cursor `pos`; every prompt consumes lines from the cursor on and says where the next one starts.
 */
module Display {
  import opened Wrappers
  import opened Strings
  import opened ConfigLoader

  /** What one prompt yields: the answer and the next unread line, or `Eof` when the lines ran out (`EOFError`). */
  datatype Reply<+T> = Eof | Got(value: T, next: nat)

  predicate IsDigit(c: char) {
    '0' <= c <= '9'
  }

  function DigitValue(c: char): nat
    requires IsDigit(c)
  {
    c as int - '0' as int
  }

  /** The value of a non-empty run of decimal digits, or `None` when `s` is empty or holds anything else. */
  function Digits(s: string): Option<nat>
    decreases |s|
  {
    if s == [] || !IsDigit(s[|s| - 1]) then None
    else if |s| == 1 then Some(DigitValue(s[0]))
    else
      match Digits(s[..|s| - 1])
      case None => None
      case Some(v) => Some(v * 10 + DigitValue(s[|s| - 1]))
  }

  /** `int(s)` on an optional sign followed by decimal digits; anything else is a `ValueError`, here `None`. */
  function ParseInt(s: string): Option<int> {
    if s != [] && (s[0] == '+' || s[0] == '-') then
      match Digits(s[1..])
      case None => None
      case Some(v) => Some(if s[0] == '-' then 0 - v else v)
    else
      match Digits(s)
      case None => None
      case Some(v) => Some(v)
  }

  function DigitChar(d: nat): (c: char)
    requires d < 10
    ensures IsDigit(c) && DigitValue(c) == d
  {
    ('0' as int + d) as char
  }

  /** How a user types the number `n`: its decimal digits. */
  function ShowNat(n: nat): (r: string)
    ensures r != [] && forall i :: 0 <= i < |r| ==> IsDigit(r[i])
    decreases n
  {
    if n < 10 then [DigitChar(n)] else ShowNat(n / 10) + [DigitChar(n % 10)]
  }

  lemma {:induction false} DigitsShowNat(n: nat)
    ensures Digits(ShowNat(n)) == Some(n)
  {
    if n >= 10 {
      DigitsShowNat(n / 10);
      var s := ShowNat(n);
      assert s[..|s| - 1] == ShowNat(n / 10);
    }
  }

  /** `int` reads back the number as typed. */
  lemma ParseShowNat(n: nat)
    ensures ParseInt(ShowNat(n)) == Some(n)
  {
    DigitsShowNat(n);
  }

  /** `[int(x.strip()) - 1 for x in pieces]`, or `None` when one piece is not a number. */
  function ParsePieces(pieces: seq<string>): (r: Option<seq<int>>)
    ensures r.Some? ==> |r.value| == |pieces|
  {
    if pieces == [] then Some([])
    else
      match (ParseInt(Strip(pieces[0])), ParsePieces(pieces[1..]))
      case (Some(k), Some(ks)) => Some([k - 1] + ks)
      case _ => None
  }

  /** The pieces parse exactly when each is a number, and then each index is its piece's number less one. */
  lemma {:induction false} ParsePiecesEach(pieces: seq<string>)
    ensures ParsePieces(pieces).Some? <==> forall i :: 0 <= i < |pieces| ==> ParseInt(Strip(pieces[i])).Some?
    ensures ParsePieces(pieces).Some? ==>
      forall i :: 0 <= i < |pieces| ==> ParseInt(Strip(pieces[i])) == Some(ParsePieces(pieces).value[i] + 1)
  {
    if pieces != [] {
      var rest := pieces[1..];
      ParsePiecesEach(rest);
      forall i | 1 <= i < |pieces| ensures pieces[i] == rest[i - 1] {}
      if ParsePieces(pieces).None? && ParseInt(Strip(pieces[0])).Some? {
        var i :| 0 <= i < |rest| && ParseInt(Strip(rest[i])).None?;
        assert pieces[i + 1] == rest[i];
      }
    }
  }

  /** A piece of an answer that names one of `n` menu entries, counted from 1. */
  predicate NamesEntry(piece: string, n: nat) {
    var k := ParseInt(Strip(piece));
    k.Some? && 1 <= k.value <= n
  }

  /** Indices that all fall among `n` entries. */
  predicate AllBelow(ix: seq<int>, n: nat) {
    forall i :: 0 <= i < |ix| ==> 0 <= ix[i] < n
  }

  function AsNats(ix: seq<int>): (r: seq<nat>)
    requires forall i :: 0 <= i < |ix| ==> 0 <= ix[i]
    ensures |r| == |ix| && forall i :: 0 <= i < |ix| ==> r[i] == ix[i]
  {
    seq(|ix|, i requires 0 <= i < |ix| => ix[i] as nat)
  }

  /** The comma-separated pieces of an answer. */
  function Pieces(line: string): seq<string> {
    Split(Strip(line), ',')
  }

  /** A comma-separated answer: every piece must name an entry. */
  function SelectMany(line: string, n: nat): (r: Option<seq<nat>>)
    ensures r.Some? ==> forall i :: 0 <= i < |r.value| ==> r.value[i] < n
  {
    match ParsePieces(Pieces(line))
    case None => None
    case Some(ix) => if AllBelow(ix, n) then Some(AsNats(ix)) else None
  }

  /** A single answer: it must name an entry. */
  function SelectOne(line: string, n: nat): (r: Option<seq<nat>>)
    ensures r.Some? ==> |r.value| == 1 && r.value[0] < n
  {
    match ParseInt(Strip(line))
    case None => None
    case Some(k) => if 0 <= k - 1 < n then Some([(k - 1) as nat]) else None
  }

  /**
   * One answer to `display_menu` over `n` entries: the 0-based indices it selects (comma-separated when
   * `multiple`, duplicates kept), or `None` when the menu asks again.
   */
  function ParseSelection(line: string, n: nat, multiple: bool): (r: Option<seq<nat>>)
    ensures r.Some? ==> forall i :: 0 <= i < |r.value| ==> r.value[i] < n
    ensures r.Some? && !multiple ==> |r.value| == 1
  {
    if multiple then SelectMany(line, n) else SelectOne(line, n)
  }

  /** A single-choice answer is accepted exactly when it names an entry, and selects that entry. */
  lemma SingleSelection(line: string, n: nat)
    ensures ParseSelection(line, n, false).Some? <==> NamesEntry(line, n)
    ensures NamesEntry(line, n) ==> ParseSelection(line, n, false) == Some([ParseInt(Strip(line)).value - 1])
  {
  }

  /** Pieces that parse into indices below `n` are exactly pieces that each name an entry. */
  lemma PiecesNameEntries(pieces: seq<string>, n: nat)
    ensures (ParsePieces(pieces).Some? && AllBelow(ParsePieces(pieces).value, n))
            <==> forall i :: 0 <= i < |pieces| ==> NamesEntry(pieces[i], n)
  {
    ParsePiecesEach(pieces);
    if forall i :: 0 <= i < |pieces| ==> NamesEntry(pieces[i], n) {
      var ix := ParsePieces(pieces).value;
      forall i | 0 <= i < |ix| ensures 0 <= ix[i] < n {
        assert NamesEntry(pieces[i], n);
      }
    } else if ParsePieces(pieces).Some? {
      var ix := ParsePieces(pieces).value;
      var i :| 0 <= i < |pieces| && !NamesEntry(pieces[i], n);
      assert !(0 <= ix[i] < n);
    }
  }

  /** A multiple-choice answer is accepted exactly when every comma-separated piece names an entry. */
  lemma MultipleSelection(line: string, n: nat)
    ensures ParseSelection(line, n, true).Some? <==> forall i :: 0 <= i < |Pieces(line)| ==> NamesEntry(Pieces(line)[i], n)
  {
    var pieces := Pieces(line);
    assert ParseSelection(line, n, true).Some? <==> ParsePieces(pieces).Some? && AllBelow(ParsePieces(pieces).value, n);
    PiecesNameEntries(pieces, n);
  }

  /** Accepted pieces select, piece by piece, the entry each piece names. */
  lemma PiecesSelect(pieces: seq<string>, n: nat)
    requires ParsePieces(pieces).Some? && AllBelow(ParsePieces(pieces).value, n)
    ensures var r := AsNats(ParsePieces(pieces).value);
      |r| == |pieces| && forall i :: 0 <= i < |r| ==> ParseInt(Strip(pieces[i])) == Some(r[i] + 1)
  {
    ParsePiecesEach(pieces);
  }

  /** An accepted multiple-choice answer selects, piece by piece, the entry each piece names. */
  lemma MultipleSelectionEntries(line: string, n: nat)
    requires ParseSelection(line, n, true).Some?
    ensures var r := ParseSelection(line, n, true).value;
      |r| == |Pieces(line)| && forall i :: 0 <= i < |r| ==> ParseInt(Strip(Pieces(line)[i])) == Some(r[i] + 1)
  {
    var pieces := Pieces(line);
    assert ParseSelection(line, n, true) == SelectMany(line, n);
    assert ParsePieces(pieces).Some? && AllBelow(ParsePieces(pieces).value, n);
    PiecesSelect(pieces, n);
  }

  /** The 1-based numbers `ks`, typed as the comma-separated list a multiple-choice menu expects. */
  function Numbers(ks: seq<nat>): (r: seq<string>)
    ensures |r| == |ks| && forall i :: 0 <= i < |ks| ==> r[i] == ShowNat(ks[i])
  {
    seq(|ks|, i requires 0 <= i < |ks| => ShowNat(ks[i]))
  }

  lemma NumeralHasNoSpace(s: string)
    requires forall i :: 0 <= i < |s| ==> IsDigit(s[i])
    ensures forall i :: 0 <= i < |s| ==> !IsSpace(s[i]) && s[i] != ','
  {
  }

  /** The typed list splits back into the typed numbers. */
  lemma NumbersSplitBack(ks: seq<nat>)
    requires ks != []
    ensures Pieces(Join(Numbers(ks), ",")) == Numbers(ks)
  {
    var pieces := Numbers(ks);
    var line := Join(pieces, ",");
    forall i | 0 <= i < |pieces|
      ensures ',' !in pieces[i] && forall j :: 0 <= j < |pieces[i]| ==> !IsSpace(pieces[i][j])
    {
      NumeralHasNoSpace(pieces[i]);
    }
    JoinNoSpace(pieces, ",");
    StripUnchanged(line);
    assert [','] == ",";
    SplitJoin(pieces, ',');
  }

  /** Each typed number reads back as itself. */
  lemma {:induction false} NumbersParseBack(ks: seq<nat>)
    ensures ParsePieces(Numbers(ks)) == Some(seq(|ks|, i requires 0 <= i < |ks| => ks[i] as int - 1))
  {
    if ks != [] {
      NumbersParseBack(ks[1..]);
      NumeralHasNoSpace(ShowNat(ks[0]));
      StripUnchanged(ShowNat(ks[0]));
      ParseShowNat(ks[0]);
      assert Numbers(ks)[1..] == Numbers(ks[1..]);
      var rest := seq(|ks| - 1, i requires 0 <= i < |ks| - 1 => ks[1..][i] as int - 1);
      assert ParsePieces(Numbers(ks)) == Some([ks[0] as int - 1] + rest);
      assert [ks[0] as int - 1] + rest == seq(|ks|, i requires 0 <= i < |ks| => ks[i] as int - 1);
    } else {
      assert Numbers(ks) == [];
      assert ParsePieces([]) == Some([]);
      assert seq(|ks|, i requires 0 <= i < |ks| => ks[i] as int - 1) == [];
    }
  }

  /** Typing the entry numbers `ks` (each between 1 and `n`) selects entries `ks[i] - 1`, in that order. */
  lemma SelectionRoundTrip(ks: seq<nat>, n: nat)
    requires ks != [] && forall i :: 0 <= i < |ks| ==> 1 <= ks[i] <= n
    ensures ParseSelection(Join(Numbers(ks), ","), n, true) == Some(seq(|ks|, i requires 0 <= i < |ks| => (ks[i] - 1) as nat))
  {
    NumbersSplitBack(ks);
    NumbersParseBack(ks);
    var ix := seq(|ks|, i requires 0 <= i < |ks| => ks[i] as int - 1);
    assert AllBelow(ix, n);
    assert AsNats(ix) == seq(|ks|, i requires 0 <= i < |ks| => (ks[i] - 1) as nat);
  }

  /** Typing the entry number `k` in a single-choice menu selects entry `k - 1`. */
  lemma SingleSelectionRoundTrip(k: nat, n: nat)
    requires 1 <= k <= n
    ensures ParseSelection(ShowNat(k), n, false) == Some([k - 1])
  {
    NumeralHasNoSpace(ShowNat(k));
    StripUnchanged(ShowNat(k));
    ParseShowNat(k);
  }

  /** `display_menu`'s loop: the first line that parses as a valid selection. */
  function ReadSelection(input: seq<string>, pos: nat, n: nat, multiple: bool): (r: Reply<seq<nat>>)
    requires pos <= |input|
    decreases |input| - pos
    ensures r.Got? ==> pos < r.next <= |input| && ParseSelection(input[r.next - 1], n, multiple) == Some(r.value)
    ensures r.Got? ==> (forall i :: 0 <= i < |r.value| ==> r.value[i] < n) && (!multiple ==> |r.value| == 1)
  {
    if pos == |input| then Eof
    else
      match ParseSelection(input[pos], n, multiple)
      case Some(v) => Got(v, pos + 1)
      case None => ReadSelection(input, pos + 1, n, multiple)
  }

  /** The menu answers with the first valid line, after rejecting every line before it; it runs out only when no line is valid. */
  lemma {:induction false} ReadSelectionSkipsInvalid(input: seq<string>, pos: nat, n: nat, multiple: bool)
    requires pos <= |input|
    decreases |input| - pos
    ensures var r := ReadSelection(input, pos, n, multiple);
      && (r.Got? ==> forall k :: pos <= k < r.next - 1 ==> ParseSelection(input[k], n, multiple).None?)
      && (r.Eof? <==> forall k :: pos <= k < |input| ==> ParseSelection(input[k], n, multiple).None?)
  {
    if pos < |input| {
      var first := ParseSelection(input[pos], n, multiple);
      if first.None? {
        var r := ReadSelection(input, pos + 1, n, multiple);
        assert ReadSelection(input, pos, n, multiple) == r;
        ReadSelectionSkipsInvalid(input, pos + 1, n, multiple);
        if r.Got? {
          forall k | pos <= k < r.next - 1 ensures ParseSelection(input[k], n, multiple).None? {
            if k == pos {
              assert first.None?;
            }
          }
        }
      }
    }
  }

  /** Typing entry number `k` answers a single-choice menu at once, selecting entry `k - 1`. */
  lemma TypedChoice(input: seq<string>, pos: nat, n: nat, k: nat)
    requires 1 <= k <= n && pos < |input| && input[pos] == ShowNat(k)
    ensures ReadSelection(input, pos, n, false) == Got([k - 1], pos + 1)
  {
    SingleSelectionRoundTrip(k, n);
  }

  /** `display_menu`: asks until an answer selects entries among `n`. */
  method DisplayMenu(input: seq<string>, pos: nat, n: nat, multiple: bool) returns (r: Reply<seq<nat>>)
    requires pos <= |input|
    ensures r == ReadSelection(input, pos, n, multiple)
  {
    var i := pos;
    while i < |input|
      invariant pos <= i <= |input|
      invariant ReadSelection(input, i, n, multiple) == ReadSelection(input, pos, n, multiple)
      decreases |input| - i
    {
      var selection := ParseSelection(input[i], n, multiple);
      if selection.Some? {
        return Got(selection.value, i + 1);
      }
      i := i + 1;
    }
    return Eof;
  }

  /** `[items[i] for i in indices]`. */
  function Pick<T>(items: seq<T>, indices: seq<nat>): (r: seq<T>)
    requires forall i :: 0 <= i < |indices| ==> indices[i] < |items|
    ensures |r| == |indices| && forall i :: 0 <= i < |indices| ==> r[i] == items[indices[i]]
  {
    seq(|indices|, i requires 0 <= i < |indices| => items[indices[i]])
  }

  /** A multiple-choice menu over `items`: the items selected, in the order typed. */
  function ReadChoice<T>(items: seq<T>, input: seq<string>, pos: nat): (r: Reply<seq<T>>)
    requires pos <= |input|
    ensures r.Got? ==> pos < r.next <= |input| && forall i :: 0 <= i < |r.value| ==> r.value[i] in items
  {
    match ReadSelection(input, pos, |items|, true)
    case Eof => Eof
    case Got(indices, next) => Got(Pick(items, indices), next)
  }

  /** `display_tools`: the index of the tool chosen. */
  method DisplayTools(tools: seq<ToolEntry>, input: seq<string>, pos: nat) returns (r: Reply<nat>)
    requires pos <= |input|
    ensures r.Got? ==> r.value < |tools| && pos < r.next <= |input|
    ensures match ReadSelection(input, pos, |tools|, false)
      case Eof => r.Eof?
      case Got(indices, next) => r == Got(indices[0], next)
  {
    var indices := DisplayMenu(input, pos, |tools|, false);
    if indices.Eof? {
      return Eof;
    }
    return Got(indices.value[0], indices.next);
  }

  /** `display_categories`: the names of the categories chosen, in the order typed. */
  method DisplayCategories(categories: Entries<Category>, input: seq<string>, pos: nat) returns (r: Reply<seq<string>>)
    requires pos <= |input|
    ensures r == ReadChoice(Keys(categories), input, pos)
  {
    var indices := DisplayMenu(input, pos, |categories|, true);
    if indices.Eof? {
      return Eof;
    }
    var keys := Keys(categories);
    return Got(Pick(keys, indices.value), indices.next);
  }

  /** `display_options`: the options chosen, in the order typed. */
  method DisplayOptions(options: seq<FlagOption>, input: seq<string>, pos: nat) returns (r: Reply<seq<FlagOption>>)
    requires pos <= |input|
    ensures r == ReadChoice(options, input, pos)
  {
    var indices := DisplayMenu(input, pos, |options|, true);
    if indices.Eof? {
      return Eof;
    }
    return Got(Pick(options, indices.value), indices.next);
  }

  /** One answer to `get_text_input`: the stripped line, unless it is blank and an answer is `required`. */
  function TextAnswer(line: string, required: bool): (r: Option<string>)
    ensures r.Some? <==> !(required && Strip(line) == "")
    ensures r.Some? ==> r.value == Strip(line)
  {
    if required && Strip(line) == "" then None else Some(Strip(line))
  }

  /** `get_text_input`'s loop: the first stripped line, skipping blank ones when the answer is `required`. */
  function ReadText(input: seq<string>, pos: nat, required: bool): (r: Reply<string>)
    requires pos <= |input|
    decreases |input| - pos
    ensures r.Got? ==> pos < r.next <= |input| && r.value == Strip(input[r.next - 1])
    ensures r.Got? && required ==> r.value != ""
    ensures r.Got? && !required ==> r.next == pos + 1
    ensures r.Eof? && !required ==> pos == |input|
  {
    if pos == |input| then Eof
    else
      match TextAnswer(input[pos], required)
      case Some(v) => Got(v, pos + 1)
      case None => ReadText(input, pos + 1, required)
  }

  /** A required answer is the first non-blank line, after every blank one before it; it runs out only when every line left is blank. */
  lemma {:induction false} ReadTextSkipsBlank(input: seq<string>, pos: nat)
    requires pos <= |input|
    decreases |input| - pos
    ensures var r := ReadText(input, pos, true);
      && (r.Got? ==> forall k :: pos <= k < r.next - 1 ==> Strip(input[k]) == "")
      && (r.Eof? <==> forall k :: pos <= k < |input| ==> Strip(input[k]) == "")
  {
    if pos < |input| {
      if Strip(input[pos]) == "" {
        var r := ReadText(input, pos + 1, true);
        assert ReadText(input, pos, true) == r;
        ReadTextSkipsBlank(input, pos + 1);
        if r.Got? {
          forall k | pos <= k < r.next - 1 ensures Strip(input[k]) == "" {
            if k == pos {
              assert Strip(input[pos]) == "";
            }
          }
        }
      }
    }
  }

  /** `get_text_input`: asks until the answer is acceptable. */
  method GetTextInput(input: seq<string>, pos: nat, required: bool) returns (r: Reply<string>)
    requires pos <= |input|
    ensures r == ReadText(input, pos, required)
  {
    var i := pos;
    while i < |input|
      invariant pos <= i <= |input|
      invariant ReadText(input, i, required) == ReadText(input, pos, required)
      decreases |input| - i
    {
      var value := Strip(input[i]);
      if !(value == "" && required) {
        return Got(value, i + 1);
      }
      i := i + 1;
    }
    return Eof;
  }

  /** `confirm`'s test: the answer, stripped and lower-cased, is `y` or `yes`. */
  predicate Confirmed(reply: string) {
    Lower(Strip(reply)) in {"y", "yes"}
  }

  /** `confirm`: one line, read as yes or no. */
  function ReadConfirm(input: seq<string>, pos: nat): (r: Reply<bool>)
    requires pos <= |input|
    ensures r.Eof? <==> pos == |input|
    ensures r.Got? ==> r == Got(Confirmed(input[pos]), pos + 1)
  {
    if pos == |input| then Eof else Got(Confirmed(input[pos]), pos + 1)
  }

  /** The answers `confirm` accepts are `y` and `yes` in any mix of cases, with surrounding blanks; nothing else. */
  lemma ConfirmedAnswers(reply: string)
    ensures Confirmed(reply) <==>
      var t := Strip(reply);
      || (|t| == 1 && t[0] in "yY")
      || (|t| == 3 && t[0] in "yY" && t[1] in "eE" && t[2] in "sS")
  {
    var t := Strip(reply);
    var l := Lower(t);
    if |t| == 1 {
      assert l == "y" <==> l[0] == 'y';
    } else if |t| == 3 {
      assert l == "yes" <==> l[0] == 'y' && l[1] == 'e' && l[2] == 's';
    }
  }
}
