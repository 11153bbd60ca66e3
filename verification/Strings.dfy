/** The string helpers the program relies on: trimming, byte order, and the "::" composite keys. */
module Strings {

  /** White space as Go's unicode.IsSpace defines it. */
  predicate IsSpace(c: char) {
    var u := c as int;
    || 0x09 <= u <= 0x0D || u == 0x20 || u == 0x85 || u == 0xA0 || u == 0x1680
    || 0x2000 <= u <= 0x200A || u == 0x2028 || u == 0x2029 || u == 0x202F || u == 0x205F || u == 0x3000
  }

  function TrimSpace(s: string): (r: string)
    ensures r != "" ==> !IsSpace(r[0]) && !IsSpace(r[|r| - 1])
    ensures s != "" && !IsSpace(s[0]) && !IsSpace(s[|s| - 1]) ==> r == s
    ensures |r| <= |s|
  {
    if s == "" then s
    else if IsSpace(s[0]) then TrimSpace(s[1..])
    else if IsSpace(s[|s| - 1]) then TrimSpace(s[..|s| - 1])
    else s
  }

  /** ASCII lower-casing, enough for the fixed vocabularies it is compared with. */
  function ToLower(s: string): (r: string)
    ensures |r| == |s|
  {
    if s == "" then ""
    else [if 'A' <= s[0] <= 'Z' then (s[0] as int + 32) as char else s[0]] + ToLower(s[1..])
  }

  predicate AllSpace(s: string) {
    forall c <- s :: IsSpace(c)
  }

  /** s is t with white space at both ends. */
  predicate IsPadded(s: string, a: string, t: string, b: string) {
    s == a + t + b && AllSpace(a) && AllSpace(b)
  }

  lemma PaddedInFront(s: string, a: string, t: string, b: string)
    requires s != "" && IsSpace(s[0]) && IsPadded(s[1..], a, t, b)
    ensures IsPadded(s, [s[0]] + a, t, b)
  {
    assert s == [s[0]] + s[1..];
  }

  lemma PaddedBehind(s: string, a: string, t: string, b: string)
    requires s != "" && IsSpace(s[|s| - 1]) && IsPadded(s[..|s| - 1], a, t, b)
    ensures IsPadded(s, a, t, b + [s[|s| - 1]])
  {
    assert s == s[..|s| - 1] + [s[|s| - 1]];
  }

  /** Trimming takes white space off both ends, and nothing else. */
  lemma {:induction false} TrimsOnlySpace(s: string) returns (a: string, b: string)
    ensures IsPadded(s, a, TrimSpace(s), b)
  {
    a, b := "", "";
    if s == "" {
    } else if IsSpace(s[0]) {
      var x, y := TrimsOnlySpace(s[1..]);
      PaddedInFront(s, x, TrimSpace(s[1..]), y);
      a, b := [s[0]] + x, y;
    } else if IsSpace(s[|s| - 1]) {
      var x, y := TrimsOnlySpace(s[..|s| - 1]);
      PaddedBehind(s, x, TrimSpace(s[..|s| - 1]), y);
      a, b := x, y + [s[|s| - 1]];
    } else {
      assert s == "" + s + "";
    }
  }

  lemma {:induction false} LowersLetters(s: string, i: nat)
    requires i < |s|
    ensures if 'A' <= s[i] <= 'Z' then ToLower(s)[i] as int == s[i] as int + 32 else ToLower(s)[i] == s[i]
  {
    if i > 0 {
      LowersLetters(s[1..], i - 1);
    }
  }

  /** Go's < on strings. */
  predicate Less(a: string, b: string) {
    b != "" && (a == "" || a[0] < b[0] || (a[0] == b[0] && Less(a[1..], b[1..])))
  }

  /** a comes first where the two first differ, or is a proper prefix of b. */
  lemma {:induction false} LessAtDifference(a: string, b: string, i: nat)
    requires i <= |a| && i <= |b| && a[..i] == b[..i]
    ensures i == |a| < |b| ==> Less(a, b)
    ensures i < |a| && i < |b| && a[i] < b[i] ==> Less(a, b)
    ensures i < |a| && i < |b| && a[i] > b[i] ==> !Less(a, b)
  {
    if i > 0 {
      assert a[0] == a[..i][0] == b[..i][0] == b[0];
      assert a[1..][..i - 1] == a[..i][1..] && b[1..][..i - 1] == b[..i][1..];
      LessAtDifference(a[1..], b[1..], i - 1);
    }
  }

  lemma {:induction false} LessTotal(a: string, b: string)
    ensures a == b || Less(a, b) || Less(b, a)
    ensures !(Less(a, b) && Less(b, a)) && !Less(a, a)
  {
    if a != "" && b != "" && a[0] == b[0] {
      LessTotal(a[1..], b[1..]);
    }
    if a != "" {
      LessTotal(a[1..], a[1..]);
    }
  }

  lemma {:induction false} LessTransitive(a: string, b: string, c: string)
    requires Less(a, b) && Less(b, c)
    ensures Less(a, c)
  {
    if a != "" && a[0] == b[0] == c[0] {
      LessTransitive(a[1..], b[1..], c[1..]);
    }
  }

  predicate ColonFree(s: string) {
    ':' !in s
  }

  function Key2(a: string, b: string): string {
    a + "::" + b
  }

  function Key3(a: string, b: string, c: string): string {
    a + "::" + b + "::" + c
  }

  function ColonIndex(s: string): (i: nat)
    ensures i <= |s| && ColonFree(s[..i]) && (i < |s| ==> s[i] == ':')
  {
    if s == "" || s[0] == ':' then 0 else
      var i := 1 + ColonIndex(s[1..]);
      assert s[..i] == [s[0]] + s[1..][..i - 1];
      i
  }

  lemma ColonIndexOfKey(a: string, b: string)
    requires ColonFree(a)
    ensures ColonIndex(Key2(a, b)) == |a|
    ensures Key2(a, b)[..|a|] == a && Key2(a, b)[|a| + 2..] == b
  {
    var k, i := Key2(a, b), ColonIndex(Key2(a, b));
    assert k[..|a|] == a && k[|a|] == ':' && k[|a| + 2..] == b;
    assert forall j :: 0 <= j < |a| ==> k[j] == a[j] && a[j] in a;
    assert forall j :: 0 <= j < i ==> k[j] == k[..i][j] && k[j] in k[..i];
  }

  /** Composite keys tell their parts apart when the leading parts carry no colon. */
  lemma Key2Injective(a: string, b: string, c: string, d: string)
    requires ColonFree(a) && ColonFree(c)
    ensures Key2(a, b) == Key2(c, d) <==> a == c && b == d
  {
    ColonIndexOfKey(a, b);
    ColonIndexOfKey(c, d);
  }

  lemma Key3Injective(a: string, b: string, c: string, a': string, b': string, c': string)
    requires ColonFree(a) && ColonFree(a') && ColonFree(b) && ColonFree(b')
    ensures Key3(a, b, c) == Key3(a', b', c') <==> a == a' && b == b' && c == c'
  {
    assert Key3(a, b, c) == Key2(a, Key2(b, c));
    assert Key3(a', b', c') == Key2(a', Key2(b', c'));
    Key2Injective(a, Key2(b, c), a', Key2(b', c'));
    Key2Injective(b, c, b', c');
  }

  /** Cut at the right: what follows the last separator is determined, whatever stands before it. */
  lemma LastPartIsDetermined(a: string, b: string, c: string, d: string)
    requires ColonFree(b) && ColonFree(d) && Key2(a, b) == Key2(c, d)
    ensures a == c && b == d
  {
    SeparatorIsLast(a, b, c, d);
    SeparatorIsLast(c, d, a, b);
    assert a == Key2(a, b)[..|a|] == c && b == Key2(a, b)[|a| + 2..] == d;
  }

  lemma SeparatorIsLast(a: string, b: string, c: string, d: string)
    requires ColonFree(b) && Key2(a, b) == Key2(c, d)
    ensures |c| <= |a|
  {
    var k := Key2(a, b);
    assert forall i :: |a| + 2 <= i < |k| ==> k[i] == b[i - |a| - 2] && b[i - |a| - 2] in b;
    assert k[|c| + 1] == Key2(c, d)[|c| + 1] == ':';
  }

  /** Scope types and generated ids carry no colon, so assignment keys tell any provider types apart. */
  lemma Key3InjectiveAnyType(a: string, b: string, c: string, a': string, b': string, c': string)
    requires ColonFree(b) && ColonFree(b') && ColonFree(c) && ColonFree(c')
    ensures Key3(a, b, c) == Key3(a', b', c') <==> a == a' && b == b' && c == c'
  {
    assert Key3(a, b, c) == Key2(Key2(a, b), c);
    assert Key3(a', b', c') == Key2(Key2(a', b'), c');
    if Key3(a, b, c) == Key3(a', b', c') {
      LastPartIsDetermined(Key2(a, b), c, Key2(a', b'), c');
      LastPartIsDetermined(a, b, a', b');
    }
  }

  /** Two leading parts can share a key exactly when one of them, with its separator, begins the other. */
  lemma Key2CollidesIff(a: string, c: string)
    ensures (exists b, d :: (a, b) != (c, d) && Key2(a, b) == Key2(c, d)) <==>
            a != c && (Key2(a, "") <= Key2(c, "") || Key2(c, "") <= Key2(a, ""))
  {
    if b, d :| (a, b) != (c, d) && Key2(a, b) == Key2(c, d) {
      SharedKeyIsPrefix(a, b, c, d);
    }
    if a != c && Key2(a, "") <= Key2(c, "") {
      PrefixSharesKey(a, c);
    } else if a != c && Key2(c, "") <= Key2(a, "") {
      PrefixSharesKey(c, a);
    }
  }

  lemma SharedKeyIsPrefix(a: string, b: string, c: string, d: string)
    requires (a, b) != (c, d) && Key2(a, b) == Key2(c, d)
    ensures a != c && (Key2(a, "") <= Key2(c, "") || Key2(c, "") <= Key2(a, ""))
  {
    var k := Key2(a, b);
    assert k[..|a| + 2] == Key2(a, "") && k[..|c| + 2] == Key2(c, "");
    assert k[|a| + 2..] == b && k[|c| + 2..] == d;
  }

  lemma PrefixSharesKey(a: string, c: string)
    requires a != c && Key2(a, "") <= Key2(c, "")
    ensures exists b :: Key2(a, b) == Key2(c, "")
  {
    var b := Key2(c, "")[|a| + 2..];
    assert Key2(a, b) == Key2(a, "") + b == Key2(c, "");
  }
}
