/**
 * Shared vocabulary for the pipeline scripts: optional values, Python-style
 * dictionary lookups on OSM tag maps, ASCII lower-casing, substring search,
 * Python's `int(str)` parser and `str(int)` printer.
 */
module Common {

  datatype Option<T> = None | Some(value: T) {
    function GetOr(default: T): T {
      match this
      case Some(v) => v
      case None => default
    }
  }

  datatype Result<T, E> = Ok(value: T) | Err(error: E)

  /** Python truthiness of an optional string: present and non-empty. */
  predicate Truthy(o: Option<string>) {
    o.Some? && o.value != ""
  }

  /** `d.get(k)` on a string dictionary. */
  function Lookup(d: map<string, string>, k: string): Option<string> {
    if k in d then Some(d[k]) else None
  }

  /** `d.get(k, default)` on a string dictionary. */
  function GetOr(d: map<string, string>, k: string, default: string): string {
    if k in d then d[k] else default
  }

  /**
   * Nested `d.get(k0, d.get(k1, ... default))`: the value of the first listed
   * key that `d` has, or `default` when it has none of them.
   */
  function FirstPresent(d: map<string, string>, keys: seq<string>, default: string): (r: string)
    ensures (forall j :: 0 <= j < |keys| ==> keys[j] !in d) ==> r == default
    ensures forall j :: 0 <= j < |keys| && keys[j] in d && (forall i :: 0 <= i < j ==> keys[i] !in d) ==> r == d[keys[j]]
  {
    if keys == [] then default
    else if keys[0] in d then d[keys[0]]
    else
      var r := FirstPresent(d, keys[1..], default);
      assert forall j :: 1 <= j < |keys| ==> keys[j] == keys[1..][j - 1];
      r
  }

  function Min(a: int, b: int): int {
    if a <= b then a else b
  }

  function Max(a: int, b: int): int {
    if a <= b then b else a
  }

  // ---------------------------------------------------------------------
  // Characters and strings (ASCII only; Python's Unicode tables are not modelled)
  // ---------------------------------------------------------------------

  function LowerChar(c: char): char {
    if 'A' <= c <= 'Z' then (c as int + 32) as char else c
  }

  /** `s.lower()` restricted to ASCII letters. */
  function Lower(s: string): (r: string)
    ensures |r| == |s|
    ensures forall i :: 0 <= i < |s| ==> r[i] == LowerChar(s[i])
  {
    if s == [] then [] else [LowerChar(s[0])] + Lower(s[1..])
  }

  /** Python's `sub in s` for strings. */
  predicate Contains(s: string, sub: string) {
    exists i | 0 <= i <= |s| :: OccursAt(s, sub, i)
  }

  /** `sub` occurs in `s` starting at position `i`. */
  predicate OccursAt(s: string, sub: string, i: int) {
    0 <= i && i + |sub| <= |s| && s[i..i + |sub|] == sub
  }

  predicate IsDigit(c: char) {
    '0' <= c <= '9'
  }

  function DigitValue(c: char): nat
    requires IsDigit(c)
  {
    c as int - '0' as int
  }

  function DigitChar(d: nat): (c: char)
    requires d < 10
    ensures IsDigit(c) && DigitValue(c) == d
  {
    ('0' as int + d) as char
  }

  /** The ASCII characters Python's `str.strip()` removes. */
  predicate IsSpace(c: char) {
    c == ' ' || 9 <= c as int <= 13 || 28 <= c as int <= 31
  }

  function StripLeft(s: string): (r: string)
    ensures |r| <= |s| && r == s[|s| - |r|..]
    ensures r == [] || !IsSpace(r[0])
  {
    if s != [] && IsSpace(s[0]) then StripLeft(s[1..]) else s
  }

  function StripRight(s: string): (r: string)
    ensures |r| <= |s| && r == s[..|r|]
    ensures r == [] || !IsSpace(r[|r| - 1])
  {
    if s != [] && IsSpace(s[|s| - 1]) then StripRight(s[..|s| - 1]) else s
  }

  /** `s.strip()`. */
  function Strip(s: string): string {
    StripRight(StripLeft(s))
  }

  // ---------------------------------------------------------------------
  // Python int(str)
  // ---------------------------------------------------------------------

  /**
   * Digit groups as Python's `int()` accepts them: at least one digit,
   * single underscores allowed only between two digits.
   */
  predicate WellFormedDigits(d: string) {
    && |d| >= 1
    && IsDigit(d[0])
    && IsDigit(d[|d| - 1])
    && (forall i :: 0 <= i < |d| ==> IsDigit(d[i]) || d[i] == '_')
    && (forall i :: 0 <= i < |d| - 1 ==> IsDigit(d[i]) || IsDigit(d[i + 1]))
  }

  /** Decimal value of a digit string, skipping underscores (most significant digit first). */
  function DigitsValue(d: string): nat
    requires forall i :: 0 <= i < |d| ==> IsDigit(d[i]) || d[i] == '_'
  {
    if d == [] then 0
    else if d[|d| - 1] == '_' then DigitsValue(d[..|d| - 1])
    else 10 * DigitsValue(d[..|d| - 1]) + DigitValue(d[|d| - 1])
  }

  /** The digits after an optional leading '+' or '-'. */
  function Unsigned(t: string): string {
    if t != [] && (t[0] == '-' || t[0] == '+') then t[1..] else t
  }

  /** Sign handling after stripping: an optional leading '+' or '-'. */
  function ParseSigned(t: string): Option<int> {
    var body := Unsigned(t);
    if WellFormedDigits(body) then
      var v := DigitsValue(body) as int;
      Some(if t != [] && t[0] == '-' then -v else v)
    else None
  }

  /**
   * Python's `int(s)` for a string: surrounding whitespace is ignored, an
   * optional sign is accepted, anything else raises ValueError (here: None).
   */
  function ParseInt(s: string): Option<int> {
    ParseSigned(Strip(s))
  }

  /** `int(x)` inside `try: ... except (ValueError, TypeError): x = 0`. */
  function ParseIntOrZero(s: string): int {
    ParseInt(s).GetOr(0)
  }

  // ---------------------------------------------------------------------
  // Python str(int) / f"{n}"
  // ---------------------------------------------------------------------

  function NatToString(n: nat): (r: string)
    ensures |r| >= 1
    ensures forall i :: 0 <= i < |r| ==> IsDigit(r[i])
  {
    if n < 10 then [DigitChar(n)] else NatToString(n / 10) + [DigitChar(n % 10)]
  }

  function IntToString(n: int): (r: string)
    ensures r != []
    ensures forall i :: 0 <= i < |r| ==> IsDigit(r[i]) || (i == 0 && r[i] == '-')
  {
    if n < 0 then ['-'] + NatToString(-n) else NatToString(n)
  }

  lemma {:induction false} NatToStringValue(n: nat)
    ensures WellFormedDigits(NatToString(n))
    ensures DigitsValue(NatToString(n)) == n
  {
    if n >= 10 {
      NatToStringValue(n / 10);
      var p := NatToString(n / 10);
      var r := NatToString(n);
      assert r == p + [DigitChar(n % 10)];
      assert r[..|r| - 1] == p;
    }
  }

  lemma NoSpaceStrips(s: string)
    requires s != [] && !IsSpace(s[0]) && !IsSpace(s[|s| - 1])
    ensures Strip(s) == s
  {
  }

  lemma NonNegativeRoundTrip(n: nat)
    ensures ParseInt(NatToString(n)) == Some(n)
  {
    var s := NatToString(n);
    NatToStringValue(n);
    assert IsDigit(s[0]) && IsDigit(s[|s| - 1]);
    NoSpaceStrips(s);
    assert !(s[0] == '-' || s[0] == '+');
  }

  lemma ParseNegative(d: string)
    requires WellFormedDigits(d)
    ensures ParseInt(['-'] + d) == Some(-(DigitsValue(d) as int))
  {
    var s := ['-'] + d;
    assert s[1..] == d;
    NoSpaceStrips(s);
    assert Unsigned(s) == d;
  }

  lemma NegativeRoundTrip(n: nat)
    requires n > 0
    ensures ParseInt(['-'] + NatToString(n)) == Some(-(n as int))
  {
    NatToStringValue(n);
    ParseNegative(NatToString(n));
  }

  /** Printing an integer and parsing it back with `int()` gives the integer again. */
  lemma ParseIntToString(n: int)
    ensures ParseInt(IntToString(n)) == Some(n)
  {
    var s := IntToString(n);
    if n < 0 {
      var m: nat := -n;
      assert s == ['-'] + NatToString(m);
      NegativeRoundTrip(m);
      assert ParseInt(s) == Some(-(m as int));
    } else {
      assert s == NatToString(n);
      NonNegativeRoundTrip(n);
    }
  }

  /** Distinct integers print differently. */
  lemma IntToStringInjective(a: int, b: int)
    requires IntToString(a) == IntToString(b)
    ensures a == b
  {
    ParseIntToString(a);
    ParseIntToString(b);
  }

  // ---------------------------------------------------------------------
  // Order-preserving selection: `[x for x in xs if p(x)]`
  // ---------------------------------------------------------------------

  function Filter<T>(xs: seq<T>, p: T -> bool): (r: seq<T>)
    ensures |r| <= |xs|
  {
    if xs == [] then [] else Filter(xs[..|xs| - 1], p) + (if p(xs[|xs| - 1]) then [xs[|xs| - 1]] else [])
  }

  lemma TakeSnoc<T>(s: seq<T>, i: nat)
    requires i < |s|
    ensures s[..i + 1] == s[..i] + [s[i]]
  {
  }

  lemma FilterSnoc<T>(xs: seq<T>, x: T, p: T -> bool)
    ensures Filter(xs + [x], p) == Filter(xs, p) + (if p(x) then [x] else [])
  {
    assert (xs + [x])[..|xs|] == xs;
  }

  /** An element is selected exactly when it occurs in the input and satisfies the predicate. */
  lemma {:induction false} FilterMember<T>(xs: seq<T>, p: T -> bool, x: T)
    ensures x in Filter(xs, p) <==> x in xs && p(x)
  {
    if xs != [] {
      var init := xs[..|xs| - 1];
      FilterMember(init, p, x);
      assert xs == init + [xs[|xs| - 1]];
    }
  }

  /** Selection distributes over concatenation, so the selected elements keep their input order. */
  lemma {:induction false} FilterAppend<T>(xs: seq<T>, ys: seq<T>, p: T -> bool)
    ensures Filter(xs + ys, p) == Filter(xs, p) + Filter(ys, p)
    decreases |ys|
  {
    if ys == [] {
      assert xs + ys == xs;
    } else {
      var init := ys[..|ys| - 1];
      var y := ys[|ys| - 1];
      var tail := if p(y) then [y] else [];
      FilterAppend(xs, init, p);
      assert xs + ys == (xs + init) + [y];
      FilterSnoc(xs + init, y, p);
      assert ys == init + [y];
      FilterSnoc(init, y, p);
      calc {
        Filter(xs + ys, p);
        Filter(xs + init, p) + tail;
        (Filter(xs, p) + Filter(init, p)) + tail;
        Filter(xs, p) + (Filter(init, p) + tail);
        Filter(xs, p) + Filter(ys, p);
      }
    }
  }

  /** When every element satisfies the predicate nothing is dropped, and when none does nothing is kept. */
  lemma {:induction false} FilterExtremes<T>(xs: seq<T>, p: T -> bool)
    ensures (forall x :: x in xs ==> p(x)) ==> Filter(xs, p) == xs
    ensures (forall x :: x in xs ==> !p(x)) ==> Filter(xs, p) == []
  {
    if xs != [] {
      var init := xs[..|xs| - 1];
      assert forall x :: x in init ==> x in xs;
      FilterExtremes(init, p);
      assert xs == init + [xs[|xs| - 1]];
    }
  }

  /** `[f(x) for x in xs if p(x)]`, where `f` need only be defined on what `p` selects. */
  function MapFilter<T(!new), U>(xs: seq<T>, p: T -> bool, f: T --> U): (r: seq<U>)
    requires forall x :: p(x) ==> f.requires(x)
    ensures |r| <= |xs|
  {
    if xs == [] then []
    else MapFilter(xs[..|xs| - 1], p, f) + (if p(xs[|xs| - 1]) then [f(xs[|xs| - 1])] else [])
  }

  lemma MapFilterSnoc<T(!new), U>(xs: seq<T>, x: T, p: T -> bool, f: T --> U)
    requires forall x :: p(x) ==> f.requires(x)
    ensures MapFilter(xs + [x], p, f) == MapFilter(xs, p, f) + (if p(x) then [f(x)] else [])
  {
    assert (xs + [x])[..|xs|] == xs;
  }

  /** The mapped selection is the selection, in order, with `f` applied to each element. */
  lemma {:induction false} MapFilterMeaning<T(!new), U>(xs: seq<T>, p: T -> bool, f: T --> U)
    requires forall x :: p(x) ==> f.requires(x)
    ensures |MapFilter(xs, p, f)| == |Filter(xs, p)|
    ensures forall i :: 0 <= i < |Filter(xs, p)| ==>
              p(Filter(xs, p)[i]) && MapFilter(xs, p, f)[i] == f(Filter(xs, p)[i])
  {
    if xs != [] {
      var init := xs[..|xs| - 1];
      MapFilterMeaning(init, p, f);
      FilterMember(xs, p, xs[|xs| - 1]);
      forall i | 0 <= i < |Filter(xs, p)|
        ensures p(Filter(xs, p)[i])
      {
        FilterMember(xs, p, Filter(xs, p)[i]);
      }
    }
  }
}
