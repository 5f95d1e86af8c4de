/**
 * The JavaScript string and number conversions the source relies on, over `seq<char>`:
 * `n.toString()`, `Number(s)`, `parseInt(s)`, `padStart(2, "0")`, `join`, ASCII case
 * mapping and the ordinal string order standing in for `localeCompare`.
 */
module Strings {
  import opened Wrappers

  predicate IsDigit(c: char) { '0' <= c <= '9' }

  predicate AllDigits(s: string) { forall i :: 0 <= i < |s| ==> IsDigit(s[i]) }

  function DigitChar(d: nat): (c: char)
    requires d < 10
    ensures IsDigit(c) && c as int - '0' as int == d
  {
    ('0' as int + d) as char
  }

  function DigitValue(c: char): nat
    requires IsDigit(c)
  {
    c as int - '0' as int
  }

  /** `n.toString()` for a non-negative integer: its decimal digits, most significant first. */
  function NatToString(n: nat): (s: string)
    ensures |s| >= 1 && AllDigits(s)
    ensures n < 10 <==> |s| == 1
  {
    if n < 10 then [DigitChar(n)] else NatToString(n / 10) + [DigitChar(n % 10)]
  }

  /** `i.toString()` for any integer. */
  function IntToString(i: int): (s: string)
    ensures |s| >= 1
    ensures i < 0 <==> s[0] == '-'
    ensures i >= 0 ==> AllDigits(s)
  {
    if i < 0 then "-" + NatToString(-i) else NatToString(i)
  }

  /** The value of a string of decimal digits. */
  function DigitsValue(s: string): nat
    requires AllDigits(s)
  {
    if s == [] then 0 else DigitsValue(s[..|s| - 1]) * 10 + DigitValue(s[|s| - 1])
  }

  lemma {:induction false} DigitsValueOfNatToString(n: nat)
    ensures DigitsValue(NatToString(n)) == n
  {
    if n >= 10 {
      var s := NatToString(n);
      DigitsValueOfNatToString(n / 10);
      assert s[..|s| - 1] == NatToString(n / 10);
    }
  }

  /**
   * JavaScript `Number(s)`: the empty string is 0 and a string of decimal digits is its value;
   * anything else is NaN, written `None`.
   */
  function NumberOf(s: string): (r: Option<nat>)
    ensures r.None? <==> s != "" && !AllDigits(s)
  {
    if s == "" then Some(0) else if AllDigits(s) then Some(DigitsValue(s)) else None
  }

  lemma NumberOfNatToString(n: nat)
    ensures NumberOf(NatToString(n)) == Some(n)
  {
    DigitsValueOfNatToString(n);
  }

  /** Length of the leading run of decimal digits. */
  function LeadingDigits(s: string): (k: nat)
    ensures k <= |s| && AllDigits(s[..k])
    ensures k < |s| ==> !IsDigit(s[k])
  {
    if s == [] || !IsDigit(s[0]) then 0
    else
      var k := 1 + LeadingDigits(s[1..]);
      assert s[..k] == [s[0]] + s[1..][..k - 1];
      k
  }

  /** JavaScript `parseInt(s)`: the value of the leading digits, NaN (`None`) when there are none. */
  function ParseInt(s: string): (r: Option<nat>)
    ensures r.None? <==> s == [] || !IsDigit(s[0])
  {
    var k := LeadingDigits(s);
    if k == 0 then None else Some(DigitsValue(s[..k]))
  }

  lemma {:induction false} LeadingDigitsOfDigits(s: string)
    requires AllDigits(s)
    ensures LeadingDigits(s) == |s|
  {
    if s != [] {
      LeadingDigitsOfDigits(s[1..]);
    }
  }

  /** What the retry counters store (`String(n)`) reads back with `parseInt`. */
  lemma ParseIntNatToString(n: nat)
    ensures ParseInt(NatToString(n)) == Some(n)
  {
    var s := NatToString(n);
    LeadingDigitsOfDigits(s);
    assert s[..|s|] == s;
    DigitsValueOfNatToString(n);
  }

  /** `s.padStart(2, "0")`. */
  function PadStart2(s: string): (r: string)
    ensures |r| == if |s| >= 2 then |s| else 2
    ensures r[|r| - |s|..] == s
    ensures forall i :: 0 <= i < |r| - |s| ==> r[i] == '0'
  {
    if |s| == 0 then "00" else if |s| == 1 then "0" + s else s
  }

  /** A number below 100, padded, is two digits that read back as the number. */
  lemma PadStart2Digits(n: nat)
    requires n < 100
    ensures var s := PadStart2(NatToString(n)); |s| == 2 && AllDigits(s) && DigitsValue(s) == n
    ensures n < 10 ==> PadStart2(NatToString(n))[0] == '0'
  {
    var t := NatToString(n);
    DigitsValueOfNatToString(n);
    if n < 10 {
      var s := PadStart2(t);
      assert s == "0" + t;
      assert s[..1] == "0";
    } else {
      assert t == NatToString(n / 10) + [DigitChar(n % 10)];
      assert |t| == 2;
    }
  }

  /** `parts.join(sep)`. */
  function Join(parts: seq<string>, sep: string): string
  {
    if |parts| == 0 then "" else if |parts| == 1 then parts[0] else parts[0] + sep + Join(parts[1..], sep)
  }

  /** Joining two non-empty lists is joining each and putting `sep` between them. */
  lemma {:induction false} JoinAppend(a: seq<string>, b: seq<string>, sep: string)
    requires |a| > 0 && |b| > 0
    ensures Join(a + b, sep) == Join(a, sep) + sep + Join(b, sep)
    decreases |a|
  {
    assert (a + b)[0] == a[0] && (a + b)[1..] == a[1..] + b;
    if |a| == 1 {
      assert a[1..] + b == b;
    } else {
      JoinAppend(a[1..], b, sep);
    }
  }

  /** Seven parts joined by `sep`, written out. */
  lemma JoinSeven(a: string, b: string, c: string, d: string, e: string, f: string, g: string, sep: string)
    ensures Join([a, b, c, d, e, f, g], sep) == a + sep + b + sep + c + sep + d + sep + e + sep + f + sep + g
  {
    var parts := [a, b, c, d, e, f, g];
    assert parts[1..] == [b, c, d, e, f, g] && [b, c, d, e, f, g][1..] == [c, d, e, f, g];
    assert [c, d, e, f, g][1..] == [d, e, f, g] && [d, e, f, g][1..] == [e, f, g];
    assert [e, f, g][1..] == [f, g] && [f, g][1..] == [g];
    var j5 := f + sep + g;
    assert Join([f, g], sep) == j5;
    var j4 := e + sep + j5;
    assert Join([e, f, g], sep) == j4;
    var j3 := d + sep + j4;
    assert Join([d, e, f, g], sep) == j3;
    var j2 := c + sep + j3;
    assert Join([c, d, e, f, g], sep) == j2;
    var j1 := b + sep + j2;
    assert Join([b, c, d, e, f, g], sep) == j1;
    assert Join(parts, sep) == a + sep + j1;
    NestedConcat(a, b, c, d, e, f, g, sep);
  }

  /** Seven parts with separators, nested to the right, are the same seven parts in one chain. */
  lemma NestedConcat(a: string, b: string, c: string, d: string, e: string, f: string, g: string, sep: string)
    ensures a + sep + (b + sep + (c + sep + (d + sep + (e + sep + (f + sep + g))))) ==
      a + sep + b + sep + c + sep + d + sep + e + sep + f + sep + g
  {
  }

  /** `n` copies of `s`. */
  function Repeat(s: string, n: nat): (r: seq<string>)
    ensures |r| == n && forall i :: 0 <= i < n ==> r[i] == s
  {
    if n == 0 then [] else [s] + Repeat(s, n - 1)
  }

  function CountChar(s: string, c: char): nat
  {
    if s == [] then 0 else (if s[0] == c then 1 else 0) + CountChar(s[1..], c)
  }

  lemma {:induction false} CountCharAppend(a: string, b: string, c: char)
    ensures CountChar(a + b, c) == CountChar(a, c) + CountChar(b, c)
  {
    if a == [] {
      assert a + b == b;
    } else {
      assert (a + b)[0] == a[0] && (a + b)[1..] == a[1..] + b;
      CountCharAppend(a[1..], b, c);
    }
  }

  /** A string without `c` counts no `c`. */
  lemma {:induction false} CountCharNone(s: string, c: char)
    requires forall k :: 0 <= k < |s| ==> s[k] != c
    ensures CountChar(s, c) == 0
  {
    if s != [] {
      assert forall k :: 0 <= k < |s[1..]| ==> s[1..][k] == s[k + 1];
      CountCharNone(s[1..], c);
    }
  }

  /** Joining parts that hold no `c` counts the `c`s of the separator once per gap. */
  lemma {:induction false} CountCharJoin(parts: seq<string>, sep: string, c: char)
    requires |parts| >= 1
    requires forall i :: 0 <= i < |parts| ==> CountChar(parts[i], c) == 0
    ensures CountChar(Join(parts, sep), c) == (|parts| - 1) * CountChar(sep, c)
  {
    if |parts| > 1 {
      CountCharJoin(parts[1..], sep, c);
      CountCharAppend(parts[0] + sep, Join(parts[1..], sep), c);
      CountCharAppend(parts[0], sep, c);
    }
  }

  predicate ContainsChar(s: string, c: char) { exists i :: 0 <= i < |s| && s[i] == c }

  function LowerChar(c: char): char { if 'A' <= c <= 'Z' then (c as int + 32) as char else c }

  function UpperChar(c: char): char { if 'a' <= c <= 'z' then (c as int - 32) as char else c }

  /** `s.toLowerCase()` on ASCII letters. */
  function Lower(s: string): (r: string)
    ensures |r| == |s| && forall i :: 0 <= i < |s| ==> r[i] == LowerChar(s[i])
  {
    if s == [] then [] else [LowerChar(s[0])] + Lower(s[1..])
  }

  /** Lower-casing twice is lower-casing once. */
  lemma {:induction false} LowerIdempotent(s: string)
    ensures Lower(Lower(s)) == Lower(s)
  {
    if s != [] {
      LowerIdempotent(s[1..]);
      assert Lower(s)[1..] == Lower(s[1..]);
    }
  }

  /** `s.toUpperCase()` on ASCII letters. */
  function Upper(s: string): (r: string)
    ensures |r| == |s| && forall i :: 0 <= i < |s| ==> r[i] == UpperChar(s[i])
  {
    if s == [] then [] else [UpperChar(s[0])] + Upper(s[1..])
  }

  /** `s.charAt(0).toUpperCase() + s.slice(1)` on ASCII letters. */
  function CapitalizeFirst(s: string): (r: string)
    ensures |r| == |s|
    ensures s != [] ==> r[0] == UpperChar(s[0]) && r[1..] == s[1..]
  {
    if s == [] then [] else [UpperChar(s[0])] + s[1..]
  }

  /** A character of the regular-expression class `\w`. */
  predicate IsWordChar(c: char) { 'a' <= c <= 'z' || 'A' <= c <= 'Z' || IsDigit(c) || c == '_' }

  /**
   * `s.replace(/\b\w/g, c => c.toUpperCase())` on ASCII text: every word character that starts a
   * word (the first character, or one after a non-word character) is upper-cased.
   * `afterWord` says whether the character before `s` was a word character.
   */
  function TitleCaseFrom(s: string, afterWord: bool): (r: string)
    ensures |r| == |s|
    ensures s != [] ==> r[0] == if IsWordChar(s[0]) && !afterWord then UpperChar(s[0]) else s[0]
  {
    if s == [] then []
    else
      var c := if IsWordChar(s[0]) && !afterWord then UpperChar(s[0]) else s[0];
      [c] + TitleCaseFrom(s[1..], IsWordChar(s[0]))
  }

  function TitleCase(s: string): string { TitleCaseFrom(s, false) }

  /**
   * Ordinal (code-unit) order of strings, standing in for `a.localeCompare(b) <= 0`.
   */
  predicate StrLe(a: string, b: string)
  {
    a == [] || (b != [] && (a[0] < b[0] || (a[0] == b[0] && StrLe(a[1..], b[1..]))))
  }

  lemma {:induction false} StrLeReflexive(a: string)
    ensures StrLe(a, a)
    decreases |a|
  {
    if a != [] {
      StrLeReflexive(a[1..]);
    }
  }

  lemma {:induction false} StrLeTotal(a: string, b: string)
    ensures StrLe(a, b) || StrLe(b, a)
  {
    if a != [] && b != [] && a[0] == b[0] {
      StrLeTotal(a[1..], b[1..]);
    }
  }

  lemma {:induction false} StrLeTransitive(a: string, b: string, c: string)
    requires StrLe(a, b) && StrLe(b, c)
    ensures StrLe(a, c)
  {
    if a != [] && b != [] && c != [] && a[0] == b[0] && b[0] == c[0] {
      StrLeTransitive(a[1..], b[1..], c[1..]);
    }
  }

  lemma AppendAssoc(a: string, b: string, c: string)
    ensures (a + b) + c == a + (b + c)
  {
  }

  /** Whether `a` occurs in `b` as a contiguous piece. */
  ghost predicate Within(a: string, b: string)
  {
    exists i :: OccursAt(a, b, i)
  }

  predicate OccursAt(a: string, b: string, i: int)
  {
    0 <= i <= |b| - |a| && b[i..i + |a|] == a
  }

  lemma WithinSelf(a: string)
    ensures Within(a, a)
  {
    assert OccursAt(a, a, 0);
  }

  /** A piece of `b` is a piece of anything `b` is extended to on either side. */
  lemma WithinExtend(a: string, pre: string, b: string, post: string)
    requires Within(a, b)
    ensures Within(a, pre + b + post)
    ensures Within(a, pre + b)
    ensures Within(a, b + post)
  {
    var i :| OccursAt(a, b, i);
    Shifted(a, pre, b + post, i);
    Shifted(a, pre, b, i);
    Shifted(a, [], b + post, i);
    assert [] + (b + post) == b + post;
    assert pre + (b + post) == pre + b + post;
  }

  lemma Shifted(a: string, pre: string, c: string, i: int)
    requires 0 <= i <= |c| - |a| && c[i..i + |a|] == a
    ensures OccursAt(a, pre + c, |pre| + i)
  {
    var d := pre + c;
    forall k | 0 <= k < |a| ensures d[|pre| + i + k] == a[k] {
      assert d[|pre| + i + k] == c[i + k];
    }
  }

  /** A piece of a piece is a piece. */
  lemma WithinTrans(a: string, b: string, c: string)
    requires Within(a, b) && Within(b, c)
    ensures Within(a, c)
  {
    var i :| OccursAt(a, b, i);
    var j :| OccursAt(b, c, j);
    forall k | 0 <= k < |a| ensures c[j + i + k] == a[k] {
      assert c[j + i + k] == b[i + k];
    }
    assert OccursAt(a, c, j + i);
  }

  /** A piece placed between two others occurs in the whole right after the first. */
  lemma InMiddle(pre: string, a: string, post: string)
    ensures OccursAt(a, pre + a + post, |pre|) && Within(a, pre + a + post)
  {
    var d := pre + a + post;
    assert d[|pre|..|pre| + |a|] == a;
    assert OccursAt(a, d, |pre|);
  }

  /**
   * Four pieces written one after another: the whole starts with the first, the second sits
   * right after it, and the third and everything inside the fourth are pieces of the whole.
   */
  lemma Pieces(p1: string, p2: string, p3: string, p4: string, x: string)
    requires Within(x, p4)
    ensures var r := p1 + p2 + p3 + p4; |p1| <= |r| && r[..|p1|] == p1
    ensures OccursAt(p2, p1 + p2 + p3 + p4, |p1|)
    ensures Within(p3, p1 + p2 + p3 + p4) && Within(x, p1 + p2 + p3 + p4)
  {
    var r := p1 + p2 + p3 + p4;
    assert r[..|p1|] == p1;
    InMiddle(p1, p2, p3 + p4);
    assert r == p1 + p2 + (p3 + p4);
    InMiddle(p1 + p2, p3, p4);
    WithinExtend(x, p1 + p2 + p3, p4, "");
    assert p1 + p2 + p3 + p4 + "" == r;
  }

  /** A slice inside the first of two joined strings is that slice of the first. */
  lemma SliceLeft(a: string, b: string, i: nat, j: nat)
    requires i <= j <= |a|
    ensures (a + b)[i..j] == a[i..j]
  {
  }

  /** A slice inside the second of two joined strings is the matching slice of the second. */
  lemma SliceRight(a: string, b: string, i: nat, j: nat)
    requires |a| <= i <= j <= |a| + |b|
    ensures (a + b)[i..j] == b[i - |a|..j - |a|]
  {
  }

  /** Every part of a joined string is a piece of it. */
  lemma {:induction false} WithinJoin(parts: seq<string>, sep: string, i: nat)
    requires i < |parts|
    ensures Within(parts[i], Join(parts, sep))
    decreases |parts|
  {
    if |parts| == 1 {
      WithinSelf(parts[0]);
    } else if i == 0 {
      WithinSelf(parts[0]);
      WithinExtend(parts[0], "", parts[0], sep + Join(parts[1..], sep));
      assert "" + parts[0] + (sep + Join(parts[1..], sep)) == Join(parts, sep);
    } else {
      WithinJoin(parts[1..], sep, i - 1);
      WithinExtend(parts[i], parts[0] + sep, Join(parts[1..], sep), "");
    }
  }
}
