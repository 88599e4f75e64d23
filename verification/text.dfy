/** String helpers shared by the server handlers and the client components:
    JavaScript's `startsWith`, `includes`, `some(w => s.includes(w))`,
    `toLowerCase`, `trim() === ''` and number-to-string rendering, restricted
    to what the modelled code needs. */
module Text {

  /** `s.startsWith(p)` */
  predicate HasPrefix(s: string, p: string) {
    |p| <= |s| && s[..|p|] == p
  }

  /** `s.includes(w)`: `w` occurs somewhere in `s` (the empty word occurs everywhere). */
  predicate Contains(s: string, w: string)
    decreases |s|
  {
    HasPrefix(s, w) || (|s| > 0 && Contains(s[1..], w))
  }

  /** `words.some(w => s.includes(w))` */
  predicate ContainsAny(s: string, words: seq<string>) {
    exists i :: 0 <= i < |words| && Contains(s, words[i])
  }

  /** A user id usable as one segment of a `confession:<uid>:<ts>` key. */
  predicate NoColon(s: string) {
    forall i :: 0 <= i < |s| ==> s[i] != ':'
  }

  /** `toLowerCase` on one character, for ASCII A-Z and the Cyrillic capitals
      U+0400-U+042F (Ѐ-Џ, which holds Ё, and А-Я); every other character is
      left as it is. */
  function LowerChar(c: char): (r: char)
    ensures 'A' <= c <= 'Z' ==> r as int == c as int + 32
    ensures 'А' <= c <= 'Я' ==> r as int == c as int + 0x20
    ensures 'Ѐ' <= c <= 'Џ' ==> r as int == c as int + 0x50
    ensures !('A' <= c <= 'Z' || 'Ѐ' <= c <= 'Я') ==> r == c
  {
    if 'A' <= c <= 'Z' then (c as int + 32) as char
    else if 'А' <= c <= 'Я' then (c as int + 0x20) as char
    else if 'Ѐ' <= c <= 'Џ' then (c as int + 0x50) as char
    else c
  }

  /** `s.toLowerCase()`, character by character. */
  function Lower(s: string): (r: string)
    ensures |r| == |s|
    ensures forall i :: 0 <= i < |s| ==> r[i] == LowerChar(s[i])
  {
    if s == [] then [] else [LowerChar(s[0])] + Lower(s[1..])
  }

  /** Lowering is idempotent: a lower-cased string has no upper-case letters left. */
  lemma LowerIdempotent(s: string)
    ensures Lower(Lower(s)) == Lower(s)
  {
    forall i | 0 <= i < |s|
      ensures LowerChar(LowerChar(s[i])) == LowerChar(s[i])
    {
    }
  }

  /** A word found in `a` is still found once `b` is appended. */
  lemma {:induction false} ContainsAppendLeft(a: string, b: string, w: string)
    requires Contains(a, w)
    ensures Contains(a + b, w)
    decreases |a|
  {
    if HasPrefix(a, w) {
      assert (a + b)[..|w|] == a[..|w|];
    } else {
      assert (a + b)[1..] == a[1..] + b;
      ContainsAppendLeft(a[1..], b, w);
    }
  }

  /** A word found in `b` is still found once `a` is put in front. */
  lemma {:induction false} ContainsAppendRight(a: string, b: string, w: string)
    requires Contains(b, w)
    ensures Contains(a + b, w)
    decreases |a|
  {
    if a == [] {
      assert a + b == b;
    } else {
      assert (a + b)[1..] == a[1..] + b;
      ContainsAppendRight(a[1..], b, w);
    }
  }

  /** Lower-casing works character by character, so it distributes over `+`. */
  lemma LowerAppend(a: string, b: string)
    ensures Lower(a + b) == Lower(a) + Lower(b)
  {
    assert forall i :: 0 <= i < |a + b| ==> Lower(a + b)[i] == (Lower(a) + Lower(b))[i];
  }

  /** A word inside a part of `s` is inside `s`. */
  lemma {:induction false} ContainsTrans(s: string, v: string, w: string)
    requires Contains(s, v) && Contains(v, w)
    ensures Contains(s, w)
    decreases |s|
  {
    if HasPrefix(s, v) {
      assert s == v + s[|v|..];
      ContainsAppendLeft(v, s[|v|..], w);
    } else {
      ContainsTrans(s[1..], v, w);
    }
  }

  /** Lower-casing keeps an occurrence: the lowered part occurs in the lowered whole. */
  lemma {:induction false} ContainsLower(s: string, v: string)
    requires Contains(s, v)
    ensures Contains(Lower(s), Lower(v))
    decreases |s|
  {
    if HasPrefix(s, v) {
      assert s == v + s[|v|..];
      LowerAppend(v, s[|v|..]);
      assert Lower(s)[..|v|] == Lower(v);
    } else {
      ContainsLower(s[1..], v);
      assert Lower(s)[1..] == Lower(s[1..]);
    }
  }

  /** The characters JavaScript's `trim` removes: WhiteSpace and LineTerminator. */
  predicate IsSpace(c: char) {
    c == ' ' || c == '\t' || c == '\n' || c == '\r' || c == '\U{000B}' || c == '\U{000C}'
    || c == '\U{00A0}' || c == '\U{1680}' || ('\U{2000}' <= c <= '\U{200A}')
    || c == '\U{2028}' || c == '\U{2029}' || c == '\U{202F}' || c == '\U{205F}'
    || c == '\U{3000}' || c == '\U{FEFF}'
  }

  /** `!s.trim()`: the string is empty once surrounding white space is removed. */
  predicate IsBlank(s: string) {
    forall i :: 0 <= i < |s| ==> IsSpace(s[i])
  }

  function DigitChar(d: nat): (c: char)
    requires d < 10
    ensures '0' <= c <= '9'
  {
    ('0' as int + d) as char
  }

  /** Decimal rendering of a natural number, as `${n}` prints it. */
  function NatToString(n: nat): (r: string)
    ensures |r| >= 1
    ensures forall i :: 0 <= i < |r| ==> '0' <= r[i] <= '9'
    ensures r[0] == '0' <==> n == 0
    decreases n
  {
    if n < 10 then [DigitChar(n)]
    else NatToString(n / 10) + [DigitChar(n % 10)]
  }

  /** Decimal rendering of an integer, with a leading '-' for negatives. */
  function IntToString(i: int): (r: string)
    ensures |r| >= 1
    ensures r[0] == '-' <==> i < 0
    ensures i >= 0 ==> forall j :: 0 <= j < |r| ==> '0' <= r[j] <= '9'
  {
    if i < 0 then "-" + NatToString(-i) else NatToString(i)
  }
}
