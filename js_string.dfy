/** The few JavaScript string operations the client's decision core relies on,
    written out as ECMAScript defines them: `trim`, `replace` with a string
    pattern, `toUpperCase` (on ASCII letters), `split(sep)[0]`, and the
    truthiness test a `string | undefined` value undergoes in a condition. */
module JsString {
  import opened Wrappers

  /** The characters `String.prototype.trim` removes: the WhiteSpace and
      LineTerminator code points of ECMA-262. */
  predicate IsSpace(c: char) {
    || c == '\t' || c == '\n' || c == '\U{000B}' || c == '\U{000C}' || c == '\r'
    || c == ' ' || c == '\U{00A0}' || c == '\U{1680}'
    || ('\U{2000}' <= c <= '\U{200A}')
    || c == '\U{2028}' || c == '\U{2029}' || c == '\U{202F}' || c == '\U{205F}'
    || c == '\U{3000}' || c == '\U{FEFF}'
  }

  predicate AllSpace(t: string) {
    forall k :: 0 <= k < |t| ==> IsSpace(t[k])
  }

  /** Neither end of `t` is a white-space character. */
  predicate Unpadded(t: string) {
    t == [] || (!IsSpace(t[0]) && !IsSpace(t[|t| - 1]))
  }

  /** `s` without its leading white space. */
  function TrimStart(s: string): (r: string)
    ensures |r| <= |s| && r == s[|s| - |r|..]
    ensures AllSpace(s[..|s| - |r|])
    ensures r == [] || !IsSpace(r[0])
  {
    if s != [] && IsSpace(s[0]) then
      var r := TrimStart(s[1..]);
      assert r == s[|s| - |r|..] by { SuffixOfTail(s, |s| - |r|); }
      SpaceBefore(s, |s| - |r|);
      r
    else
      s
  }

  /** `s` without its trailing white space. */
  function TrimEnd(s: string): (r: string)
    ensures |r| <= |s| && r == s[..|r|]
    ensures AllSpace(s[|r|..])
    ensures r == [] || !IsSpace(r[|r| - 1])
  {
    if s != [] && IsSpace(s[|s| - 1]) then
      var r := TrimEnd(s[..|s| - 1]);
      SpaceAfter(s, |r|);
      r
    else
      s
  }

  lemma SuffixOfTail(s: string, k: nat)
    requires 0 < k <= |s|
    ensures s[1..][k - 1..] == s[k..]
  {
  }

  lemma SpaceBefore(s: string, k: nat)
    requires 0 < k <= |s| && IsSpace(s[0]) && AllSpace(s[1..][..k - 1])
    ensures AllSpace(s[..k])
  {
    assert forall i :: 1 <= i < k ==> s[..k][i] == s[1..][..k - 1][i - 1];
  }

  lemma SpaceAfter(s: string, k: nat)
    requires k < |s| && IsSpace(s[|s| - 1]) && AllSpace(s[..|s| - 1][k..])
    ensures AllSpace(s[k..])
  {
    assert forall i :: 0 <= i < |s| - 1 - k ==> s[k..][i] == s[..|s| - 1][k..][i];
  }

  /** `String.prototype.trim`. */
  function Trim(s: string): (r: string)
    ensures Unpadded(r)
    ensures |r| <= |s|
  {
    TrimEnd(TrimStart(s))
  }

  /** Every string is its trimmed form with white space on either side. */
  lemma TrimParts(s: string) returns (p: string, q: string)
    ensures AllSpace(p) && AllSpace(q)
    ensures s == p + Trim(s) + q
  {
    var t := TrimStart(s);
    p := s[..|s| - |t|];
    SplitAt(s, |s| - |t|);
    var m := TrimEnd(t);
    q := t[|m|..];
    SplitAt(t, |m|);
    Regroup(p, m, q);
  }

  /** Associativity steps kept as separate lemmas, so that each is proved in a
      small context rather than beside the trimming functions' contracts. */
  lemma SplitAt(s: string, k: nat)
    requires k <= |s|
    ensures s == s[..k] + s[k..]
  {
  }

  lemma Regroup(a: string, b: string, c: string)
    ensures a + (b + c) == a + b + c
  {
  }

  lemma {:induction false} TrimStartOf(p: string, t: string)
    requires AllSpace(p)
    requires t == [] || !IsSpace(t[0])
    ensures TrimStart(p + t) == t
  {
    if p == [] {
      assert p + t == t;
    } else {
      assert (p + t)[0] == p[0];
      assert (p + t)[1..] == p[1..] + t;
      TrimStartOf(p[1..], t);
    }
  }

  lemma {:induction false} TrimEndOf(t: string, q: string)
    requires AllSpace(q)
    requires t == [] || !IsSpace(t[|t| - 1])
    ensures TrimEnd(t + q) == t
  {
    if q == [] {
      assert t + q == t;
    } else {
      var s := t + q;
      assert s[|s| - 1] == q[|q| - 1];
      assert s[..|s| - 1] == t + q[..|q| - 1];
      TrimEndOf(t, q[..|q| - 1]);
    }
  }

  /** Trimming recovers the unpadded core of any padded string: together with
      TrimParts this determines `Trim` completely. */
  lemma TrimUnique(p: string, m: string, q: string)
    requires AllSpace(p) && AllSpace(q) && Unpadded(m)
    ensures Trim(p + m + q) == m
  {
    if m == [] {
      assert p + m + q == p + q;
      assert AllSpace(p + q);
      TrimStartOf(p + q, []);
      assert TrimEnd([]) == [];
    } else {
      assert p + m + q == p + (m + q);
      TrimStartOf(p, m + q);
      TrimEndOf(m, q);
    }
  }

  /** White space added around a string does not change its trimmed form. */
  lemma TrimIgnoresPadding(p: string, v: string, q: string)
    requires AllSpace(p) && AllSpace(q)
    ensures Trim(p + v + q) == Trim(v)
  {
    var p', q' := TrimParts(v);
    var m := Trim(v);
    SeqRegroup(p, p', m, q', q);
    AllSpaceConcat(p, p');
    AllSpaceConcat(q', q);
    TrimUnique(p + p', m, q' + q);
  }

  lemma SeqRegroup(a: string, b: string, c: string, d: string, e: string)
    ensures a + (b + c + d) + e == (a + b) + c + (d + e)
  {
  }

  lemma AllSpaceConcat(a: string, b: string)
    requires AllSpace(a) && AllSpace(b)
    ensures AllSpace(a + b)
  {
    forall k | 0 <= k < |a + b| ensures IsSpace((a + b)[k]) {
      if k < |a| { assert (a + b)[k] == a[k]; } else { assert (a + b)[k] == b[k - |a|]; }
    }
  }

  lemma TrimIdempotent(s: string)
    ensures Trim(Trim(s)) == Trim(s)
  {
    var m := Trim(s);
    assert [] + m + [] == m;
    TrimUnique([], m, []);
  }

  /** `s.replace(c, '')` with a one-character string pattern: only the FIRST
      occurrence of `c` is removed (ReplaceFirstAt, ReplaceFirstAbsent). */
  function ReplaceFirst(s: string, c: char): (r: string)
    ensures |r| == if c in s then |s| - 1 else |s|
  {
    if s == [] then []
    else if s[0] == c then s[1..]
    else [s[0]] + ReplaceFirst(s[1..], c)
  }

  /** The occurrence removed is the first one, and what follows it is kept as
      it is, later occurrences of `c` included. */
  lemma {:induction false} ReplaceFirstAt(p: string, c: char, q: string)
    requires c !in p
    ensures ReplaceFirst(p + [c] + q, c) == p + q
  {
    if p == [] {
      assert p + [c] + q == [c] + q;
    } else {
      var s := p + [c] + q;
      assert s[0] == p[0];
      assert s[1..] == p[1..] + [c] + q;
      ReplaceFirstAt(p[1..], c, q);
      assert [p[0]] + (p[1..] + q) == p + q;
    }
  }

  /** Without an occurrence the string is left as it is. */
  lemma {:induction false} ReplaceFirstAbsent(s: string, c: char)
    requires c !in s
    ensures ReplaceFirst(s, c) == s
  {
    if s != [] {
      assert s[0] in s;
      assert forall k :: 0 <= k < |s| - 1 ==> s[1..][k] == s[k + 1];
      ReplaceFirstAbsent(s[1..], c);
    }
  }

  /** A value wrapped in double quotes keeps its closing quote. */
  lemma QuotedKeepsClosingQuote(t: string)
    ensures ReplaceFirst("\"" + t + "\"", '"') == t + "\""
  {
    assert "\"" + t + "\"" == [] + ['"'] + (t + "\"");
    ReplaceFirstAt([], '"', t + "\"");
  }

  predicate IsLower(c: char) {
    'a' <= c <= 'z'
  }

  /** `toUpperCase` of one character, restricted to the ASCII letters. */
  function UpperChar(c: char): (u: char)
    ensures !IsLower(u)
    ensures IsLower(c) ==> u as int == c as int - 32
    ensures !IsLower(c) ==> u == c
  {
    if IsLower(c) then (c as int - 32) as char else c
  }

  /** `String.prototype.toUpperCase`, character by character. */
  function ToUpper(s: string): (r: string)
    ensures |r| == |s|
    ensures forall i :: 0 <= i < |s| ==> r[i] == UpperChar(s[i])
  {
    if s == [] then [] else [UpperChar(s[0])] + ToUpper(s[1..])
  }

  /** Two strings that differ only in the case of their letters. */
  predicate EqualIgnoringCase(a: string, b: string) {
    |a| == |b| && forall i :: 0 <= i < |a| ==> UpperChar(a[i]) == UpperChar(b[i])
  }

  lemma ToUpperIgnoresCase(a: string, b: string)
    requires EqualIgnoringCase(a, b)
    ensures ToUpper(a) == ToUpper(b)
  {
    assert forall i :: 0 <= i < |a| ==> ToUpper(a)[i] == ToUpper(b)[i];
  }

  /** An upper-cased string holds no lower-case letter. */
  lemma ToUpperHasNoLower(s: string, i: int)
    requires 0 <= i < |ToUpper(s)|
    ensures !IsLower(ToUpper(s)[i])
  {
  }

  /** `s.split(sep)[0]`: the part of `s` before its first `sep`, or all of `s`
      when `sep` does not occur. */
  function PrefixBefore(s: string, sep: char): (r: string)
    ensures |r| <= |s| && r == s[..|r|]
    ensures sep !in r
    ensures |r| == |s| || s[|r|] == sep
  {
    if s == [] || s[0] == sep then []
    else [s[0]] + PrefixBefore(s[1..], sep)
  }

  /** The prefix is exactly the part before the first separator. */
  lemma {:induction false} PrefixBeforeSplit(d: string, sep: char, t: string)
    requires sep !in d
    ensures PrefixBefore(d + [sep] + t, sep) == d
  {
    if d == [] {
      assert d + [sep] + t == [sep] + t;
    } else {
      assert (d + [sep] + t)[0] == d[0];
      assert (d + [sep] + t)[1..] == d[1..] + [sep] + t;
      PrefixBeforeSplit(d[1..], sep, t);
    }
  }

  /** A `string | null | undefined` value in a condition: present and not empty. */
  predicate IsTruthy(s: Option<string>)
    ensures IsTruthy(s) ==> s.Some?
    ensures s.Some? ==> (IsTruthy(s) <==> |s.value| > 0)
  {
    s.Some? && s.value != ""
  }
}
