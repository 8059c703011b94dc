/**
 * The string primitives of JavaScript that the booking dialogue relies on:
 * `String.prototype.trim`, `String.prototype.toLowerCase`,
 * `String.prototype.includes`, the `Number(t)` conversion used to read a
 * slot index, and the rendering of a small number inside a template literal.
 */
module Text {
  import opened Wrappers

  /** The characters ECMAScript counts as WhiteSpace or LineTerminator, which `trim` removes. */
  predicate IsJsSpace(c: char) {
    || c == ' ' || c == '\t' || c == '\n' || c == '\r'
    || c == '\U{000B}' || c == '\U{000C}' || c == '\U{00A0}' || c == '\U{1680}'
    || ('\U{2000}' <= c <= '\U{200A}')
    || c == '\U{2028}' || c == '\U{2029}' || c == '\U{202F}' || c == '\U{205F}'
    || c == '\U{3000}' || c == '\U{FEFF}'
  }

  /** `s` without its leading white space. */
  function TrimStart(s: string): string {
    if s != [] && IsJsSpace(s[0]) then TrimStart(s[1..]) else s
  }

  /** `s` without its trailing white space. */
  function TrimEnd(s: string): string {
    if s != [] && IsJsSpace(s[|s| - 1]) then TrimEnd(s[..|s| - 1]) else s
  }

  /** `r` is `s[i..j]` and everything of `s` outside that slice is white space. */
  predicate SpaceAround(s: string, r: string, i: int, j: int) {
    0 <= i <= j <= |s| && r == s[i..j]
    && (forall k :: 0 <= k < i ==> IsJsSpace(s[k]))
    && (forall k :: j <= k < |s| ==> IsJsSpace(s[k]))
  }

  /** `TrimStart` drops a run of white space and stops at the first other character. */
  lemma {:induction false} TrimStartDrops(s: string)
    ensures SpaceAround(s, TrimStart(s), |s| - |TrimStart(s)|, |s|)
    ensures TrimStart(s) != [] ==> !IsJsSpace(TrimStart(s)[0])
    decreases |s|
  {
    if s != [] && IsJsSpace(s[0]) {
      TrimStartDrops(s[1..]);
    }
  }

  /** `TrimEnd` drops a run of white space and stops at the last other character. */
  lemma {:induction false} TrimEndDrops(s: string)
    ensures SpaceAround(s, TrimEnd(s), 0, |TrimEnd(s)|)
    ensures TrimEnd(s) != [] ==> !IsJsSpace(TrimEnd(s)[|TrimEnd(s)| - 1])
    decreases |s|
  {
    if s != [] && IsJsSpace(s[|s| - 1]) {
      TrimEndDrops(s[..|s| - 1]);
    }
  }

  /**
   * JavaScript's `s.trim()`: the slice of `s` left after dropping white
   * space on both ends, which neither starts nor ends with white space.
   */
  function Trim(s: string): (r: string)
    ensures exists i, j :: SpaceAround(s, r, i, j)
    ensures r != [] ==> !IsJsSpace(r[0]) && !IsJsSpace(r[|r| - 1])
  {
    TrimBounds(s);
    TrimEnd(TrimStart(s))
  }

  lemma TrimBounds(s: string)
    ensures exists i, j :: SpaceAround(s, TrimEnd(TrimStart(s)), i, j)
    ensures var r := TrimEnd(TrimStart(s)); r != [] ==> !IsJsSpace(r[0]) && !IsJsSpace(r[|r| - 1])
  {
    var a := TrimStart(s);
    var i := |s| - |a|;
    var r := TrimEnd(a);
    TrimStartDrops(s);
    TrimEndDrops(a);
    assert r == s[i..i + |r|];
    assert forall k :: i + |r| <= k < |s| ==> s[k] == a[k - i];
    assert SpaceAround(s, r, i, i + |r|);
  }

  lemma TrimIdempotent(s: string)
    ensures Trim(Trim(s)) == Trim(s)
  {
    var r := Trim(s);
    if r != [] {
      assert TrimStart(r) == r;
      assert TrimEnd(r) == r;
    }
  }

  /**
   * The capitals whose JavaScript lower-case form is one character of ASCII
   * or Latin-1: A..Z, U+00C0..U+00DE except U+00D7 (the multiplication
   * sign), and four letters outside Latin-1 that lower into it, U+0178 (to
   * U+00FF), U+1E9E (to U+00DF), U+212A, the Kelvin sign (to 'k'), and
   * U+212B, the Angstrom sign (to U+00E5).
   */
  predicate HasLowerForm(c: char) {
    || 'A' <= c <= 'Z'
    || ('\U{00C0}' <= c <= '\U{00DE}' && c != '\U{00D7}')
    || c == '\U{0178}' || c == '\U{1E9E}' || c == '\U{212A}' || c == '\U{212B}'
  }

  /**
   * `toLowerCase` on one character, for the capitals of `HasLowerForm`;
   * every other character is kept. The capitals left out lower, in
   * JavaScript, to characters outside ASCII and Latin-1, except U+0130,
   * which lowers to 'i' followed by U+0307 (a combining dot); none of these
   * can make a text equal to, or contain, one of the dialogue's words.
   */
  function LowerChar(c: char): (d: char)
    ensures d != c <==> HasLowerForm(c)
    ensures !HasLowerForm(d)
    ensures ('A' <= c <= 'Z' || '\U{00C0}' <= c <= '\U{00DE}') && HasLowerForm(c) ==> d as int == c as int + 32
    ensures c == '\U{212A}' ==> d == 'k'
  {
    if 'A' <= c <= 'Z' || ('\U{00C0}' <= c <= '\U{00DE}' && c != '\U{00D7}') then
      (c as int + 32) as char
    else if c == '\U{0178}' then
      '\U{00FF}'
    else if c == '\U{1E9E}' then
      '\U{00DF}'
    else if c == '\U{212A}' then
      'k'
    else if c == '\U{212B}' then
      '\U{00E5}'
    else
      c
  }

  /** JavaScript's `s.toLowerCase()`: each character lowered on its own, no capital left. */
  function ToLower(s: string): (r: string)
    ensures |r| == |s|
    ensures forall k :: 0 <= k < |s| ==> r[k] == LowerChar(s[k])
    ensures forall k :: 0 <= k < |s| ==> !HasLowerForm(r[k]) && (r[k] == s[k] <==> !HasLowerForm(s[k]))
  {
    seq(|s|, k requires 0 <= k < |s| => LowerChar(s[k]))
  }

  lemma LowerCharIdempotent(c: char)
    ensures LowerChar(LowerChar(c)) == LowerChar(c)
  {
  }

  /** Lower-casing twice is lower-casing once. */
  lemma ToLowerIdempotent(s: string)
    ensures ToLower(ToLower(s)) == ToLower(s)
  {
    forall k | 0 <= k < |s|
      ensures ToLower(ToLower(s))[k] == ToLower(s)[k]
    {
      LowerCharIdempotent(s[k]);
    }
  }

  /** `w` occurs in `s` starting at position `i`. */
  predicate OccursAt(s: string, w: string, i: int) {
    0 <= i && i + |w| <= |s| && s[i..i + |w|] == w
  }

  /** JavaScript's `s.includes(w)`: `w` occurs somewhere in `s`. */
  function Contains(s: string, w: string): (b: bool)
    ensures b <==> exists i :: OccursAt(s, w, i)
    decreases |s|
  {
    if |s| < |w| then
      false
    else if s[..|w|] == w then
      assert OccursAt(s, w, 0);
      true
    else
      var b := Contains(s[1..], w);
      if b then
        var i :| OccursAt(s[1..], w, i);
        assert s[i + 1..i + 1 + |w|] == s[1..][i..i + |w|];
        assert OccursAt(s, w, i + 1);
        true
      else
        assert forall i :: OccursAt(s, w, i) ==> i == 0 || OccursAt(s[1..], w, i - 1);
        false
  }

  /** Every character of a word that `s` contains occurs in `s`. */
  lemma ContainedCharsOccur(s: string, w: string)
    requires Contains(s, w)
    ensures forall k :: 0 <= k < |w| ==> w[k] in s
  {
    var i :| OccursAt(s, w, i);
    forall k | 0 <= k < |w|
      ensures w[k] in s
    {
      assert s[i + k] == s[i..i + |w|][k];
    }
  }

  /** A string that lacks one of the characters of `w` does not contain `w`. */
  lemma MissingCharExcludes(s: string, w: string, k: nat)
    requires k < |w| && w[k] !in s
    ensures !Contains(s, w)
  {
    if Contains(s, w) {
      ContainedCharsOccur(s, w);
      assert false;
    }
  }

  predicate IsDigit(c: char) {
    '0' <= c <= '9'
  }

  predicate AllDigits(s: string) {
    forall k :: 0 <= k < |s| ==> IsDigit(s[k])
  }

  /** The value of a string of decimal digits, most significant digit first. */
  function DigitsValue(s: string): nat
    requires AllDigits(s)
  {
    if s == [] then 0 else 10 * DigitsValue(s[..|s| - 1]) + (s[|s| - 1] as int - '0' as int)
  }

  /**
   * How `Number(t)` reads a slot choice, for the inputs that can select a
   * slot: an optional sign followed by one or more decimal digits, leading
   * zeros allowed. JavaScript's `Number` also accepts further forms, such as
   * "2.0", "2e0", "0x2" or "Infinity", which this model reads as no number.
   */
  function ParseIndex(t: string): (r: Option<int>)
    ensures r.Some? <==> |t| > 0 && (IsDigit(t[0]) || (|t| > 1 && (t[0] == '+' || t[0] == '-')))
                                  && (forall k :: 0 < k < |t| ==> IsDigit(t[k]))
    ensures r.Some? && IsDigit(t[0]) ==> r.value == DigitsValue(t)
    ensures r.Some? && t[0] == '+' ==> r.value == DigitsValue(t[1..])
    ensures r.Some? && t[0] == '-' ==> r.value == -(DigitsValue(t[1..]) as int)
  {
    if |t| > 1 && (t[0] == '+' || t[0] == '-') && AllDigits(t[1..]) then
      var n: int := DigitsValue(t[1..]);
      Some(if t[0] == '-' then -n else n)
    else if t != [] && AllDigits(t) then
      Some(DigitsValue(t))
    else
      None
  }

  /**
   * How a template literal renders a natural number: its decimal digits,
   * with no leading zero (the first digit is 0 only for the number 0).
   */
  function Decimal(n: nat): (r: string)
    ensures r != [] && AllDigits(r)
    ensures r[0] == '0' <==> n == 0
  {
    if n < 10 then [('0' as int + n) as char] else Decimal(n / 10) + [('0' as int + n % 10) as char]
  }

  /** Reading back a rendered number gives the number. */
  lemma {:induction false} DecimalValue(n: nat)
    ensures DigitsValue(Decimal(n)) == n
  {
    var r := Decimal(n);
    if n >= 10 {
      assert r[..|r| - 1] == Decimal(n / 10);
      DecimalValue(n / 10);
    }
  }

  /** The number a user types after reading it in the bot's menu parses back to that number. */
  lemma ParseDecimal(n: nat)
    ensures ParseIndex(Decimal(n)) == Some(n)
    ensures ParseIndex("+" + Decimal(n)) == Some(n)
  {
    DecimalValue(n);
    assert ("+" + Decimal(n))[1..] == Decimal(n);
  }
}
