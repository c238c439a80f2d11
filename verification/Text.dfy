/** The parts of Go's `strings` and `strconv` that the parser and the query builders use. */
module Text {

  datatype Option<+T> = None | Some(value: T)

  const MAX_INT64: int := 0x7FFF_FFFF_FFFF_FFFF
  const MIN_INT64: int := -0x8000_0000_0000_0000

  /******* Decimal numbers *******/

  predicate IsDigit(c: char) {
    '0' <= c <= '9'
  }

  predicate AllDigits(s: string) {
    forall i :: 0 <= i < |s| ==> IsDigit(s[i])
  }

  function DigitsValue(s: string): (n: nat)
    requires AllDigits(s)
  {
    if s == [] then 0 else DigitsValue(s[..|s| - 1]) * 10 + (s[|s| - 1] as int - '0' as int)
  }

  /** `strconv.Itoa` on a natural number. */
  function Itoa(n: nat): (s: string)
    ensures s != [] && AllDigits(s) && DigitsValue(s) == n
  {
    var last := ['0' + (n % 10) as char];
    if n < 10 then
      assert last[..0] == [];
      last
    else
      var s := Itoa(n / 10) + last;
      assert s[..|s| - 1] == Itoa(n / 10);
      s
  }

  /** `strconv.Atoi`: an optional sign, then decimal digits, within 64 bits. */
  function Atoi(s: string): Option<int> {
    var signed := s != [] && s[0] in {'+', '-'};
    var digits := if signed then s[1..] else s;
    if digits == [] || !AllDigits(digits) then None
    else
      var n: int := if signed && s[0] == '-' then 0 - DigitsValue(digits) else DigitsValue(digits);
      if MIN_INT64 <= n <= MAX_INT64 then Some(n) else None
  }

  /** Parsing inverts printing on every natural number that fits in 64 bits. */
  lemma AtoiOfItoa(n: nat)
    requires n <= MAX_INT64
    ensures Atoi(Itoa(n)) == Some(n)
  {
    assert IsDigit(Itoa(n)[0]);
  }

  /** A sign, which may be missing, and digits of a value within 64 bits. */
  predicate Spells(sign: string, digits: string, n: int) {
    && (sign == "" || sign == "+" || sign == "-") && digits != [] && AllDigits(digits)
    && n == (if sign == "-" then 0 - DigitsValue(digits) else DigitsValue(digits))
    && -0x8000_0000_0000_0000 <= n <= 0x7FFF_FFFF_FFFF_FFFF
  }

  /** A numeral of 64 bits. */
  ghost predicate Numeral(s: string, n: int) {
    exists sign, digits :: s == sign + digits && Spells(sign, digits, n)
  }

  lemma AtoiOfNumeral(sign: string, digits: string, n: int)
    requires Spells(sign, digits, n)
    ensures Atoi(sign + digits) == Some(n)
  {
    var s := sign + digits;
    if sign == "" {
      assert s == digits && IsDigit(s[0]);
    } else {
      assert s[0] == sign[0] && s[1..] == digits;
    }
  }

  /** `Atoi` accepts exactly the numerals, with their values. */
  lemma AtoiIff(s: string, n: int)
    ensures Atoi(s) == Some(n) <==> Numeral(s, n)
  {
    if Numeral(s, n) {
      var sign, digits :| s == sign + digits && Spells(sign, digits, n);
      AtoiOfNumeral(sign, digits, n);
    } else if Atoi(s) == Some(n) {
      var signed := s[0] in {'+', '-'};
      var sign, digits := if signed then s[..1] else "", if signed then s[1..] else s;
      assert s == sign + digits && Spells(sign, digits, n);
    }
  }

  /** The digits of a number have the values of their places. */
  lemma DigitsByPlace(s: string, c: char)
    requires AllDigits(s) && IsDigit(c)
    ensures AllDigits(s + [c]) && DigitsValue(s + [c]) == 10 * DigitsValue(s) + (c as int - '0' as int)
    ensures DigitsValue([]) == 0
  {
    assert (s + [c])[..|s|] == s;
  }

  /******* Splitting and joining *******/

  function IndexOf(s: string, c: char): (i: nat)
    requires c in s
    ensures i < |s| && s[i] == c && c !in s[..i]
  {
    if s[0] == c then 0 else 1 + IndexOf(s[1..], c)
  }

  /** `strings.Split` with a separator of one character. */
  function Split(s: string, c: char): (parts: seq<string>)
    ensures parts != []
    ensures forall p :: p in parts ==> c !in p
  {
    if c !in s then [s]
    else
      var i := IndexOf(s, c);
      [s[..i]] + Split(s[i + 1..], c)
  }

  /** `strings.Join` with a separator of one character. */
  function Join(parts: seq<string>, c: char): string
    requires parts != []
  {
    if |parts| == 1 then parts[0] else parts[0] + [c] + Join(parts[1..], c)
  }

  lemma IndexOfFirst(a: string, c: char, b: string)
    requires c !in a
    ensures IndexOf(a + [c] + b, c) == |a|
  {
    var s := a + [c] + b;
    var i := IndexOf(s, c);
    assert s[|a|] == c;
    assert forall k :: 0 <= k < |a| ==> s[k] == a[k];
    assert forall k :: 0 <= k < i ==> s[..i][k] == s[k] != c;
  }

  lemma SplitFirst(a: string, c: char, b: string)
    requires c !in a
    ensures Split(a + [c] + b, c) == [a] + Split(b, c)
  {
    var s := a + [c] + b;
    assert s[|a|] == c;
    IndexOfFirst(a, c, b);
    assert s[..|a|] == a && s[|a| + 1..] == b;
  }

  /** Splitting inverts joining when no part holds the separator. */
  lemma {:induction false} SplitOfJoin(parts: seq<string>, c: char)
    requires parts != []
    requires forall p :: p in parts ==> c !in p
    ensures Split(Join(parts, c), c) == parts
  {
    if |parts| == 1 {
      assert parts == [parts[0]];
    } else {
      SplitFirst(parts[0], c, Join(parts[1..], c));
      SplitOfJoin(parts[1..], c);
    }
  }

  lemma JoinFirst(a: string, rest: seq<string>, c: char)
    requires rest != []
    ensures Join([a] + rest, c) == a + [c] + Join(rest, c)
  {
    assert ([a] + rest)[1..] == rest;
  }

  /** Joining inverts splitting on every text. */
  lemma {:induction false} JoinOfSplit(s: string, c: char)
    ensures Join(Split(s, c), c) == s
    decreases |s|
  {
    if c in s {
      var i := IndexOf(s, c);
      var rest := Split(s[i + 1..], c);
      JoinOfSplit(s[i + 1..], c);
      JoinFirst(s[..i], rest, c);
      assert s == s[..i] + [c] + s[i + 1..];
    }
  }

  /** White space as `unicode.IsSpace` has it. */
  predicate IsSpace(c: char) {
    c in {'\t', '\n', '\U{000B}', '\U{000C}', '\r', ' ', '\U{0085}', '\U{00A0}', '\U{1680}',
          '\U{2028}', '\U{2029}', '\U{202F}', '\U{205F}', '\U{3000}'}
    || '\U{2000}' <= c <= '\U{200A}'
  }

  /** The code points of white space. */
  lemma SpaceIff(c: char)
    ensures var n := c as int;
            IsSpace(c) <==> || 9 <= n <= 13 || n == 32 || n == 133 || n == 160 || n == 5760 || 8192 <= n <= 8202
                            || n == 8232 || n == 8233 || n == 8239 || n == 8287 || n == 12288
  {
  }

  predicate NoSpace(s: string) {
    forall i :: 0 <= i < |s| ==> !IsSpace(s[i])
  }

  /** The length of the longest prefix without white space. */
  function WordLength(s: string): (n: nat)
    ensures n <= |s| && NoSpace(s[..n])
    ensures n < |s| ==> IsSpace(s[n])
  {
    if s == [] || IsSpace(s[0]) then 0
    else
      var n := WordLength(s[1..]);
      assert forall i :: 0 < i < n + 1 ==> s[i] == s[1..][i - 1];
      1 + n
  }

  /** `strings.Fields`: the non-empty stretches between white space. */
  function Fields(s: string): (parts: seq<string>)
    ensures forall p :: p in parts ==> p != [] && NoSpace(p)
    decreases |s|
  {
    if s == [] then []
    else if IsSpace(s[0]) then Fields(s[1..])
    else
      var n := WordLength(s);
      [s[..n]] + Fields(s[n..])
  }

  lemma {:induction false} WordLengthOf(a: string, b: string)
    requires NoSpace(a)
    requires b == [] || IsSpace(b[0])
    ensures WordLength(a + b) == |a|
  {
    if a == [] {
      assert a + b == b;
    } else {
      assert (a + b)[1..] == a[1..] + b;
      WordLengthOf(a[1..], b);
    }
  }

  predicate AllSpace(s: string) {
    forall i :: 0 <= i < |s| ==> IsSpace(s[i])
  }

  /** Parts with a gap before each of them and one at the end. */
  function Spaced(parts: seq<string>, gaps: seq<string>): string
    requires |gaps| == |parts| + 1
  {
    if parts == [] then gaps[0] else gaps[0] + (parts[0] + Spaced(parts[1..], gaps[1..]))
  }

  /** The gaps are white space, and only the first and the last may be empty. */
  predicate GapsOk(gaps: seq<string>) {
    forall i :: 0 <= i < |gaps| ==> AllSpace(gaps[i]) && (0 < i < |gaps| - 1 ==> gaps[i] != [])
  }

  lemma {:induction false} FieldsSkip(gap: string, s: string)
    requires AllSpace(gap)
    ensures Fields(gap + s) == Fields(s)
  {
    if gap == [] {
      assert gap + s == s;
    } else {
      assert (gap + s)[1..] == gap[1..] + s;
      FieldsSkip(gap[1..], s);
    }
  }

  lemma FieldsWord(a: string, rest: string)
    requires a != [] && NoSpace(a)
    requires rest == [] || IsSpace(rest[0])
    ensures Fields(a + rest) == [a] + Fields(rest)
  {
    WordLengthOf(a, rest);
    assert (a + rest)[..|a|] == a && (a + rest)[|a|..] == rest;
  }

  /** Fields recovers words from any white space around and between them. */
  lemma {:induction false} FieldsOfSpaced(parts: seq<string>, gaps: seq<string>)
    requires |gaps| == |parts| + 1 && GapsOk(gaps)
    requires forall i :: 0 <= i < |parts| ==> parts[i] != [] && NoSpace(parts[i])
    ensures Fields(Spaced(parts, gaps)) == parts
    decreases |parts|
  {
    if parts == [] {
      FieldsSkip(gaps[0], []);
      assert gaps[0] + [] == gaps[0];
    } else {
      var rest := Spaced(parts[1..], gaps[1..]);
      FieldsSkip(gaps[0], parts[0] + rest);
      assert AllSpace(gaps[1]) && (|parts| > 1 ==> gaps[1] != []);
      assert forall i :: 0 <= i < |gaps[1..]| ==> gaps[1..][i] == gaps[i + 1];
      FieldsWord(parts[0], rest);
      FieldsOfSpaced(parts[1..], gaps[1..]);
      assert parts == [parts[0]] + parts[1..];
    }
  }
}
