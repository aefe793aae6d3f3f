/**
 * The Java string operations the ore configuration goes through: `split(",")`,
 * `trim()`, `toUpperCase()` (ASCII letters only), `Integer.parseInt` (ASCII
 * digits) and `contains`.
 */
module JavaStrings {
  import opened Biomes

  // ~~~~~~~~~ split(",") ~~~~~~~~~

  /** The pieces between commas, empty ones included: one more piece than there are commas. */
  function Pieces(s: string): (parts: seq<string>)
    ensures |parts| >= 1
    ensures forall i :: 0 <= i < |parts| ==> ',' !in parts[i]
  {
    if s == [] then [""]
    else if s[0] == ',' then [""] + Pieces(s[1..])
    else
      var rest := Pieces(s[1..]);
      [[s[0]] + rest[0]] + rest[1..]
  }

  /** The inverse of `Pieces`: the parts separated by commas. */
  function Join(parts: seq<string>): (s: string)
    requires |parts| >= 1
  {
    if |parts| == 1 then parts[0] else parts[0] + "," + Join(parts[1..])
  }

  /** Joining a piece in front of a joined list puts one comma between them. */
  lemma JoinCons(p: string, rest: seq<string>, joined: string)
    requires |rest| >= 1 && Join(rest) == joined
    ensures Join([p] + rest) == p + "," + joined
  {
    assert ([p] + rest)[1..] == rest;
  }

  /** `split` drops the empty strings at the end of the piece list. */
  function DropTrailingEmpty(parts: seq<string>): (r: seq<string>)
    ensures |r| <= |parts| && r == parts[..|r|]
    ensures r == [] || r[|r| - 1] != ""
    ensures forall i :: |r| <= i < |parts| ==> parts[i] == ""
  {
    if parts == [] then []
    else if parts[|parts| - 1] == "" then DropTrailingEmpty(parts[..|parts| - 1])
    else parts
  }

  /**
   * `s.split(",")`: the whole string when it holds no comma, otherwise the pieces
   * between commas with the trailing empty ones removed.
   */
  function JavaSplit(s: string): (parts: seq<string>)
    ensures forall i :: 0 <= i < |parts| ==> ',' !in parts[i]
  {
    if ',' !in s then [s] else DropTrailingEmpty(Pieces(s))
  }

  /** Splitting a comma-free piece followed by a comma and more text. */
  lemma {:induction false} PiecesOfJoin(p: string, rest: string)
    requires ',' !in p
    ensures Pieces(p + "," + rest) == [p] + Pieces(rest)
  {
    if p == [] {
      assert p + "," + rest == [','] + rest;
      assert (p + "," + rest)[1..] == rest;
    } else {
      assert (p + "," + rest)[0] == p[0];
      assert (p + "," + rest)[1..] == p[1..] + "," + rest;
      PiecesOfJoin(p[1..], rest);
      assert [p[0]] + p[1..] == p;
    }
  }

  /** A comma-free string is a single piece. */
  lemma {:induction false} PiecesOfPlain(p: string)
    requires ',' !in p
    ensures Pieces(p) == [p]
  {
    if p != [] {
      PiecesOfPlain(p[1..]);
      assert [p[0]] + p[1..] == p;
    }
  }

  /** Splitting the joined comma-free parts gives the parts back (before trailing empties are dropped). */
  lemma {:induction false} PiecesJoin(parts: seq<string>)
    requires |parts| >= 1 && forall i :: 0 <= i < |parts| ==> ',' !in parts[i]
    ensures Pieces(Join(parts)) == parts
  {
    if |parts| == 1 {
      PiecesOfPlain(parts[0]);
    } else {
      PiecesJoin(parts[1..]);
      PiecesOfJoin(parts[0], Join(parts[1..]));
      assert [parts[0]] + parts[1..] == parts;
    }
  }

  lemma {:induction false} JoinHasComma(parts: seq<string>)
    requires |parts| >= 2
    ensures ',' in Join(parts)
  {
    var s := Join(parts);
    assert s == parts[0] + "," + Join(parts[1..]);
    assert s[|parts[0]|] == ',';
  }

  /**
   * The `split` round trip: at least two comma-free parts whose last part is not
   * empty come back unchanged from splitting their comma-joined text.
   */
  lemma SplitJoin(parts: seq<string>)
    requires |parts| >= 2 && parts[|parts| - 1] != ""
    requires forall i :: 0 <= i < |parts| ==> ',' !in parts[i]
    ensures JavaSplit(Join(parts)) == parts
  {
    PiecesJoin(parts);
    JoinHasComma(parts);
  }

  // ~~~~~~~~~ trim() ~~~~~~~~~

  /** `trim` removes every leading and trailing character at or below the space character. */
  function TrimStart(s: string): (r: string)
    ensures |r| <= |s|
    ensures r == [] || r[0] > ' '
  {
    if s != [] && s[0] <= ' ' then TrimStart(s[1..]) else s
  }

  function TrimEnd(s: string): (r: string)
    ensures |r| <= |s|
    ensures r == [] || r[|r| - 1] > ' '
  {
    if s != [] && s[|s| - 1] <= ' ' then TrimEnd(s[..|s| - 1]) else s
  }

  /** `TrimStart` keeps a suffix of its argument. */
  lemma {:induction false} TrimStartIsSuffix(s: string)
    ensures TrimStart(s) == s[|s| - |TrimStart(s)|..]
  {
    if s != [] && s[0] <= ' ' {
      TrimStartIsSuffix(s[1..]);
    }
  }

  /** `TrimEnd` keeps a prefix of its argument. */
  lemma {:induction false} TrimEndIsPrefix(s: string)
    ensures TrimEnd(s) == s[..|TrimEnd(s)|]
  {
    if s != [] && s[|s| - 1] <= ' ' {
      TrimEndIsPrefix(s[..|s| - 1]);
    }
  }

  function Trim(s: string): (r: string)
    ensures |r| <= |s|
    ensures r == [] || (r[0] > ' ' && r[|r| - 1] > ' ')
  {
    var t := TrimStart(s);
    TrimEndIsPrefix(t);
    TrimEnd(t)
  }

  /** Text with no character at or below the space is left as it is by `trim`. */
  lemma TrimPlain(s: string)
    requires forall i :: 0 <= i < |s| ==> s[i] > ' '
    ensures Trim(s) == s
  {
  }

  // ~~~~~~~~~ toUpperCase() ~~~~~~~~~

  function UpperChar(c: char): (u: char)
    ensures 'a' <= c <= 'z' ==> 'A' <= u <= 'Z'
    ensures !('a' <= c <= 'z') ==> u == c
  {
    if 'a' <= c <= 'z' then (c as int - 32) as char else c
  }

  function ToUpper(s: string): (r: string)
    ensures |r| == |s| && forall i :: 0 <= i < |s| ==> r[i] == UpperChar(s[i])
  {
    if s == [] then [] else [UpperChar(s[0])] + ToUpper(s[1..])
  }

  /** Upper-casing gives a capital letter exactly from that letter and its lower-case form. */
  lemma UpperCharIsCapital(c: char, capital: char)
    requires 'A' <= capital <= 'Z'
    ensures UpperChar(c) == capital <==> c == capital || c as int == capital as int + 32
  {
  }

  /** A string is "ANY" exactly when it has those three characters. */
  lemma IsAnyByChars(u: string)
    ensures u == "ANY" <==> |u| == 3 && u[0] == 'A' && u[1] == 'N' && u[2] == 'Y'
  {
    if |u| == 3 && u[0] == 'A' && u[1] == 'N' && u[2] == 'Y' {
      assert u == [u[0], u[1], u[2]];
    }
  }

  /** Upper-casing gives "ANY" exactly for the eight letter-case spellings of "any". */
  lemma UpperIsAny(s: string)
    ensures ToUpper(s) == "ANY" <==>
      |s| == 3 && (s[0] == 'a' || s[0] == 'A') && (s[1] == 'n' || s[1] == 'N') && (s[2] == 'y' || s[2] == 'Y')
  {
    IsAnyByChars(ToUpper(s));
    if |s| == 3 {
      UpperCharIsCapital(s[0], 'A');
      UpperCharIsCapital(s[1], 'N');
      UpperCharIsCapital(s[2], 'Y');
    }
  }

  // ~~~~~~~~~ Integer.parseInt ~~~~~~~~~

  const INT_MIN: int := -0x8000_0000
  const INT_MAX: int := 0x7fff_ffff

  predicate IsDigit(c: char)
  {
    '0' <= c <= '9'
  }

  /** Every character is an ASCII decimal digit. */
  predicate AllDigits(d: string)
  {
    forall i :: 0 <= i < |d| ==> IsDigit(d[i])
  }

  function DigitValue(c: char): (v: nat)
    requires IsDigit(c)
    ensures v <= 9
  {
    c as int - '0' as int
  }

  /** The value of a string of decimal digits, most significant first. */
  function DigitsValue(d: string): (v: nat)
    requires AllDigits(d)
  {
    if d == [] then 0 else DigitsValue(d[..|d| - 1]) * 10 + DigitValue(d[|d| - 1])
  }

  /** The syntax `Integer.parseInt` accepts: an optional sign, then one or more decimal digits. */
  predicate IntLiteral(s: string)
  {
    (|s| >= 1 && AllDigits(s)) || (|s| >= 2 && (s[0] == '+' || s[0] == '-') && AllDigits(s[1..]))
  }

  /** The value a literal denotes: its digits' value, negated after a minus sign. */
  function LiteralValue(s: string): int
    requires IntLiteral(s)
  {
    if s[0] == '-' then -(DigitsValue(s[1..]) as int)
    else if s[0] == '+' then DigitsValue(s[1..])
    else DigitsValue(s)
  }

  /**
   * `Integer.parseInt(s)`: an optional sign and at least one digit, with a value
   * that fits in 32 bits; anything else is a number format error (None).
   */
  function ParseInt(s: string): (r: Option<int>)
    ensures r.Some? <==> IntLiteral(s) && INT_MIN <= LiteralValue(s) <= INT_MAX
    ensures r.Some? ==> r.value == LiteralValue(s)
    ensures s == [] ==> r.None?
  {
    if s == [] then None
    else
      var negative := s[0] == '-';
      var digits := if s[0] == '-' || s[0] == '+' then s[1..] else s;
      if digits == [] || !AllDigits(digits) then None
      else
        var magnitude: int := DigitsValue(digits);
        var v: int := if negative then -magnitude else magnitude;
        if INT_MIN <= v <= INT_MAX then Some(v) else None
  }

  // ~~~~~~~~~ Integer.toString ~~~~~~~~~

  /** The ASCII digit of a value from 0 to 9. */
  function DigitChar(k: nat): (c: char)
    requires k <= 9
    ensures IsDigit(c) && DigitValue(c) == k
  {
    ('0' as int + k) as char
  }

  /** The decimal digits of a non-negative value, with no leading zero. */
  function Decimal(n: nat): (d: string)
    ensures |d| >= 1 && AllDigits(d)
    ensures n > 0 ==> d[0] != '0'
  {
    if n < 10 then [DigitChar(n)] else Decimal(n / 10) + [DigitChar(n % 10)]
  }

  /** `Integer.toString(n)`: a minus sign before a negative value's digits. */
  function IntToString(n: int): (s: string)
    ensures |s| >= 1
  {
    if n < 0 then "-" + Decimal(-n) else Decimal(n)
  }

  /** Reading the printed digits back gives the value. */
  lemma {:induction false} DecimalValue(n: nat)
    ensures DigitsValue(Decimal(n)) == n
  {
    var d := Decimal(n);
    if n >= 10 {
      assert d[..|d| - 1] == Decimal(n / 10);
      DecimalValue(n / 10);
    }
  }

  /** `Integer.parseInt` reads back every 32-bit value that `Integer.toString` prints. */
  lemma ParseIntToString(n: int)
    requires INT_MIN <= n <= INT_MAX
    ensures ParseInt(IntToString(n)) == Some(n)
  {
    var s := IntToString(n);
    if n < 0 {
      assert s[1..] == Decimal(-n);
      DecimalValue(-n);
    } else {
      DecimalValue(n);
    }
  }

  /** The three integer fields of the default ore entry parse to their values. */
  lemma DefaultIntegers()
    ensures ParseInt("30") == Some(30) && ParseInt("5") == Some(5) && ParseInt("60") == Some(60)
  {
    assert "30"[..1] == "3" && "3"[..0] == "";
    assert "60"[..1] == "6" && "6"[..0] == "";
    assert "5"[..0] == "";
  }

  // ~~~~~~~~~ contains ~~~~~~~~~

  /** `t` occurs in `s` starting at index i. */
  predicate OccursAt(s: string, t: string, i: int)
  {
    0 <= i && i + |t| <= |s| && s[i..i + |t|] == t
  }

  /** `s.contains(t)`. */
  function Contains(s: string, t: string): (b: bool)
    ensures b <==> exists i :: OccursAt(s, t, i)
  {
    if |s| < |t| then false
    else if s[..|t|] == t then
      assert OccursAt(s, t, 0);
      true
    else
      var rest := Contains(s[1..], t);
      ContainsShift(s, t);
      rest
  }

  /** Occurrences in the tail of s are occurrences in s one position further. */
  lemma ContainsShift(s: string, t: string)
    requires |s| >= |t| && s[..|t|] != t
    ensures (exists i :: OccursAt(s[1..], t, i)) <==> (exists i :: OccursAt(s, t, i))
  {
    if exists i :: OccursAt(s[1..], t, i) {
      var i :| OccursAt(s[1..], t, i);
      assert s[i + 1..i + 1 + |t|] == s[1..][i..i + |t|];
      assert OccursAt(s, t, i + 1);
    }
    if exists i :: OccursAt(s, t, i) {
      var i :| OccursAt(s, t, i);
      assert i != 0;
      assert s[1..][i - 1..i - 1 + |t|] == s[i..i + |t|];
      assert OccursAt(s[1..], t, i - 1);
    }
  }
}
