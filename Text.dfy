/**
 * The string operations the weather tools are built from: JavaScript's
 * `||` on an optional string, `Array.prototype.join`, `String.prototype.split`
 * (as the partner that recovers the lines of a joined text), `toUpperCase`
 * on ASCII letters, and the decimal rendering of an integer in a template literal.
 */
module Text {
  import opened Wrappers

  /** JavaScript `value || fallback` on an optional string field: a missing
      value and the empty string are both falsy and give `fallback`. */
  function Or(value: Option<string>, fallback: string): (r: string)
    ensures value.Some? && value.value != "" ==> r == value.value
    ensures value.None? || value.value == "" ==> r == fallback
    ensures fallback != "" ==> r != ""
  {
    match value
    case Some(s) => if s != "" then s else fallback
    case None => fallback
  }

  // ---------------------------------------------------------------- join / split

  /** `parts.join(sep)`: the parts with `sep` between neighbours, "" for none. */
  function Join(parts: seq<string>, sep: string): (r: string)
    ensures |parts| == 0 ==> r == ""
    ensures |parts| == 1 ==> r == parts[0]
    decreases |parts|
  {
    if |parts| == 0 then ""
    else if |parts| == 1 then parts[0]
    else parts[0] + sep + Join(parts[1..], sep)
  }

  /** `t` is the tail end of `s`. */
  predicate EndsWith(s: string, t: string) {
    |t| <= |s| && s[|s| - |t|..] == t
  }

  /** A join of two or more parts starts with the first part and `sep`, and
      ends with `sep` and the last part. */
  lemma {:induction false} JoinEnds(parts: seq<string>, sep: string)
    requires |parts| >= 2
    ensures parts[0] + sep <= Join(parts, sep)
    ensures EndsWith(Join(parts, sep), sep + parts[|parts| - 1])
    decreases |parts|
  {
    var rest := Join(parts[1..], sep);
    assert Join(parts, sep) == parts[0] + sep + rest;
    if |parts| > 2 {
      JoinEnds(parts[1..], sep);
    }
  }

  /** `s.split(sep)` for a one-character separator: the maximal pieces between
      separators, so always at least one piece (`"".split(sep)` is `[""]`). */
  function Split(s: string, sep: char): (r: seq<string>)
    ensures |r| >= 1
    ensures forall i :: 0 <= i < |r| ==> sep !in r[i]
    decreases |s|
  {
    if s == [] then [""]
    else
      var rest := Split(s[1..], sep);
      if s[0] == sep then [""] + rest
      else [[s[0]] + rest[0]] + rest[1..]
  }

  /** The lines of a text, as `text.split("\n")` gives them. */
  function Lines(text: string): seq<string> {
    Split(text, '\n')
  }

  predicate SingleLine(s: string) {
    '\n' !in s
  }

  /** An optional field that, when present, holds no line break. */
  predicate OptionSingleLine(value: Option<string>) {
    value.Some? ==> SingleLine(value.value)
  }

  predicate AllSingleLine(lines: seq<string>) {
    forall i :: 0 <= i < |lines| ==> SingleLine(lines[i])
  }

  /** All the lines of a list of blocks, block after block. */
  function Flatten(blocks: seq<seq<string>>): seq<string>
    decreases |blocks|
  {
    if blocks == [] then [] else blocks[0] + Flatten(blocks[1..])
  }

  /** A piece free of the separator is glued to the first piece of what follows it. */
  lemma {:induction false} SplitPrefix(p: string, t: string, sep: char)
    requires sep !in p
    ensures Split(p + t, sep) == [p + Split(t, sep)[0]] + Split(t, sep)[1..]
    decreases |p|
  {
    var rest := Split(t, sep);
    if p == [] {
      assert p + t == t;
      assert p + rest[0] == rest[0];
      assert rest == [rest[0]] + rest[1..];
    } else {
      assert (p + t)[1..] == p[1..] + t;
      SplitPrefix(p[1..], t, sep);
      assert [p[0]] + (p[1..] + Split(t, sep)[0]) == p + Split(t, sep)[0];
    }
  }

  /** Splitting a join on its separator gives the parts back, provided no part
      holds the separator. */
  lemma {:induction false} SplitJoin(parts: seq<string>, sep: char)
    requires |parts| >= 1
    requires forall i :: 0 <= i < |parts| ==> sep !in parts[i]
    ensures Split(Join(parts, [sep]), sep) == parts
    decreases |parts|
  {
    if |parts| == 1 {
      SplitPrefix(parts[0], "", sep);
      assert parts[0] + "" == parts[0];
    } else {
      var rest := Join(parts[1..], [sep]);
      assert Join(parts, [sep]) == parts[0] + ([sep] + rest);
      SplitPrefix(parts[0], [sep] + rest, sep);
      assert ([sep] + rest)[1..] == rest;
      SplitJoin(parts[1..], sep);
      assert Split([sep] + rest, sep) == [""] + parts[1..];
      assert parts[0] + "" == parts[0];
      assert parts == [parts[0]] + parts[1..];
    }
  }

  /** Joining two non-empty lists is joining each and putting `sep` between. */
  lemma {:induction false} JoinAppend(a: seq<string>, b: seq<string>, sep: string)
    requires |a| >= 1 && |b| >= 1
    ensures Join(a + b, sep) == Join(a, sep) + sep + Join(b, sep)
    decreases |a|
  {
    if |a| == 1 {
      assert (a + b)[1..] == b;
    } else {
      assert (a + b)[1..] == a[1..] + b;
      JoinAppend(a[1..], b, sep);
    }
  }

  /** Joining blocks that are each a join of lines is joining all the lines. */
  lemma {:induction false} JoinOfJoins(blocks: seq<string>, lines: seq<seq<string>>, sep: string)
    requires |blocks| == |lines|
    requires forall i :: 0 <= i < |lines| ==> |lines[i]| >= 1 && blocks[i] == Join(lines[i], sep)
    ensures Join(blocks, sep) == Join(Flatten(lines), sep)
    decreases |blocks|
  {
    if |blocks| == 1 {
      assert Flatten(lines) == lines[0] + Flatten(lines[1..]);
      assert lines[1..] == [];
      assert Flatten(lines) == lines[0];
    } else if |blocks| > 1 {
      JoinOfJoins(blocks[1..], lines[1..], sep);
      FlattenNonEmpty(lines[1..]);
      JoinAppend(lines[0], Flatten(lines[1..]), sep);
    }
  }

  lemma {:induction false} FlattenNonEmpty(lines: seq<seq<string>>)
    requires |lines| >= 1 && |lines[0]| >= 1
    ensures |Flatten(lines)| >= 1
  {
  }

  /** Blocks of `w` lines each flatten to `w * |blocks|` lines. */
  lemma {:induction false} FlattenLength(blocks: seq<seq<string>>, w: nat)
    requires forall i :: 0 <= i < |blocks| ==> |blocks[i]| == w
    ensures |Flatten(blocks)| == w * |blocks|
    decreases |blocks|
  {
    if blocks != [] {
      FlattenLength(blocks[1..], w);
      MulStep(w, |blocks|);
    }
  }

  lemma MulStep(w: nat, i: nat)
    requires i > 0
    ensures w * i == w + w * (i - 1)
  {
  }

  /** In blocks of `w` lines each, line `k` of block `i` stands at `w * i + k`. */
  lemma {:induction false} FlattenAt(blocks: seq<seq<string>>, w: nat, i: nat, k: nat)
    requires forall j :: 0 <= j < |blocks| ==> |blocks[j]| == w
    requires i < |blocks| && k < w
    ensures w * i + k < |Flatten(blocks)| && Flatten(blocks)[w * i + k] == blocks[i][k]
    decreases i
  {
    assert Flatten(blocks) == blocks[0] + Flatten(blocks[1..]);
    if i > 0 {
      FlattenAt(blocks[1..], w, i - 1, k);
      MulStep(w, i);
    }
  }

  /** The lines of `"header:\n\n" + blocks.join("\n")`: the header, one empty
      line, then every line of every block in order. */
  lemma {:induction false} LinesOfListing(header: string, blocks: seq<string>, lines: seq<seq<string>>)
    requires SingleLine(header)
    requires |blocks| == |lines| >= 1
    requires forall i :: 0 <= i < |lines| ==> |lines[i]| >= 1 && blocks[i] == Join(lines[i], "\n")
    requires forall i :: 0 <= i < |lines| ==> AllSingleLine(lines[i])
    ensures Lines(header + "\n\n" + Join(blocks, "\n")) == [header, ""] + Flatten(lines)
  {
    JoinOfJoins(blocks, lines, "\n");
    FlattenNonEmpty(lines);
    FlattenSingleLine(lines);
    var all := [header, ""] + Flatten(lines);
    JoinAppend([header, ""], Flatten(lines), "\n");
    assert Join([header, ""], "\n") == header + "\n" + "";
    assert header + "\n\n" + Join(blocks, "\n") == Join(all, "\n");
    forall i | 0 <= i < |all| ensures '\n' !in all[i] {
      if i >= 2 { assert all[i] == Flatten(lines)[i - 2]; }
    }
    SplitJoin(all, '\n');
  }

  /** Where line `k` of block `i` stands in a listing of blocks of `w` lines
      behind a two-line head. */
  function ListingIndex(w: nat, i: nat, k: nat): nat {
    2 + w * i + k
  }

  /** The listing of blocks of `w` lines each: the header, an empty line, then
      line `k` of block `i` at `ListingIndex(w, i, k)`, and nothing else. */
  lemma {:induction false} ListingLines(header: string, blocks: seq<string>, lines: seq<seq<string>>, w: nat)
    requires SingleLine(header) && w >= 1
    requires |blocks| == |lines| >= 1
    requires forall i :: 0 <= i < |lines| ==> |lines[i]| == w && blocks[i] == Join(lines[i], "\n")
    requires forall i :: 0 <= i < |lines| ==> AllSingleLine(lines[i])
    ensures var all := Lines(header + "\n\n" + Join(blocks, "\n"));
      && |all| == 2 + w * |lines|
      && all[0] == header && all[1] == ""
      && forall i, k :: 0 <= i < |lines| && 0 <= k < w ==>
           ListingIndex(w, i, k) < |all| && all[ListingIndex(w, i, k)] == lines[i][k]
  {
    LinesOfListing(header, blocks, lines);
    FlattenLength(lines, w);
    var all := Lines(header + "\n\n" + Join(blocks, "\n"));
    assert all[2..] == Flatten(lines);
    ShiftedAt(all, lines, w);
  }

  /** Behind a two-line head, line `k` of block `i` stands at `ListingIndex(w, i, k)`. */
  lemma {:induction false} ShiftedAt(all: seq<string>, lines: seq<seq<string>>, w: nat)
    requires |all| >= 2 && all[2..] == Flatten(lines)
    requires forall i :: 0 <= i < |lines| ==> |lines[i]| == w
    ensures forall i, k :: 0 <= i < |lines| && 0 <= k < w ==>
      ListingIndex(w, i, k) < |all| && all[ListingIndex(w, i, k)] == lines[i][k]
  {
    forall i, k | 0 <= i < |lines| && 0 <= k < w
      ensures ListingIndex(w, i, k) < |all| && all[ListingIndex(w, i, k)] == lines[i][k]
    {
      FlattenAt(lines, w, i, k);
      assert all[ListingIndex(w, i, k)] == all[2..][w * i + k];
    }
  }

  lemma {:induction false} FlattenSingleLine(lines: seq<seq<string>>)
    requires forall i :: 0 <= i < |lines| ==> AllSingleLine(lines[i])
    ensures AllSingleLine(Flatten(lines))
    decreases |lines|
  {
    if lines != [] {
      FlattenSingleLine(lines[1..]);
      var f := Flatten(lines);
      assert f == lines[0] + Flatten(lines[1..]);
      forall j | 0 <= j < |f| ensures SingleLine(f[j]) {
        if j >= |lines[0]| { assert f[j] == Flatten(lines[1..])[j - |lines[0]|]; }
      }
    }
  }

  // ---------------------------------------------------------------- upper case

  predicate IsLowerAscii(c: char) {
    'a' <= c <= 'z'
  }

  /** `toUpperCase` on one character, for the ASCII letters. */
  function UpperChar(c: char): (u: char)
    ensures !IsLowerAscii(u)
    ensures IsLowerAscii(c) ==> u as int == c as int - 32
    ensures !IsLowerAscii(c) ==> u == c
  {
    if IsLowerAscii(c) then (c as int - 32) as char else c
  }

  /** `s.toUpperCase()`: every ASCII lower-case letter replaced by its capital,
      every other character kept, the length unchanged. */
  function ToUpper(s: string): (r: string)
    ensures |r| == |s|
    ensures forall i :: 0 <= i < |s| ==> r[i] == UpperChar(s[i])
    decreases |s|
  {
    if s == [] then [] else [UpperChar(s[0])] + ToUpper(s[1..])
  }

  /** Upper-casing introduces no line break. */
  lemma ToUpperSingleLine(s: string)
    requires SingleLine(s)
    ensures SingleLine(ToUpper(s))
  {
  }

  /** Upper-casing twice is upper-casing once, and leaves no lower-case letter. */
  lemma ToUpperIdempotent(s: string)
    ensures ToUpper(ToUpper(s)) == ToUpper(s)
    ensures forall i :: 0 <= i < |s| ==> !IsLowerAscii(ToUpper(s)[i])
  {
  }

  // ---------------------------------------------------------------- numbers

  predicate IsDigit(c: char) {
    '0' <= c <= '9'
  }

  predicate AllDigits(s: string) {
    forall i :: 0 <= i < |s| ==> IsDigit(s[i])
  }

  function DigitChar(d: nat): (c: char)
    requires d < 10
    ensures IsDigit(c)
  {
    ('0' as int + d) as char
  }

  function DigitValue(c: char): (d: nat)
    requires IsDigit(c)
    ensures d < 10 && DigitChar(d) == c
  {
    c as int - '0' as int
  }

  /** The decimal digits of `n`, without leading zeros. */
  function NatToString(n: nat): (r: string)
    ensures |r| >= 1 && AllDigits(r)
    ensures r[0] == '0' ==> n == 0 && r == "0"
    decreases n
  {
    if n < 10 then [DigitChar(n)] else NatToString(n / 10) + [DigitChar(n % 10)]
  }

  /** An optional minus sign followed by at least one decimal digit. */
  predicate IsIntText(s: string) {
    && |s| >= 1
    && (s[0] == '-' ==> |s| >= 2 && AllDigits(s[1..]))
    && (s[0] != '-' ==> AllDigits(s))
  }

  /** `${n}` for an integer number: an optional minus sign, then the digits. */
  function IntToString(n: int): (r: string)
    ensures IsIntText(r) && SingleLine(r)
    ensures r[0] == '-' <==> n < 0
    ensures var digits := if n < 0 then r[1..] else r; digits[0] == '0' ==> digits == "0"
  {
    if n < 0 then
      var digits := NatToString(-n);
      assert ("-" + digits)[1..] == digits;
      "-" + digits
    else NatToString(n)
  }

  /** The number a string of decimal digits denotes. */
  function ParseNat(s: string): nat
    requires AllDigits(s)
    decreases |s|
  {
    if s == [] then 0 else 10 * ParseNat(s[..|s| - 1]) + DigitValue(s[|s| - 1])
  }

  /** The reading of an optional minus sign followed by decimal digits. */
  function ParseInt(s: string): int
    requires IsIntText(s)
  {
    if s[0] == '-' then 0 - ParseNat(s[1..]) as int else ParseNat(s)
  }

  lemma {:induction false} ParseNatToString(n: nat)
    ensures ParseNat(NatToString(n)) == n
    decreases n
  {
    if n >= 10 {
      var s := NatToString(n);
      assert s[..|s| - 1] == NatToString(n / 10);
      ParseNatToString(n / 10);
    }
  }

  /** Reading back the rendering of an integer gives the integer: the rendering
      loses nothing, so distinct temperatures render distinctly. */
  lemma {:induction false} ParseIntToString(n: int)
    ensures ParseInt(IntToString(n)) == n
  {
    if n < 0 {
      assert IntToString(n)[1..] == NatToString(-n);
      ParseNatToString(-n);
    } else {
      ParseNatToString(n);
    }
  }
}
