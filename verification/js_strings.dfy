/**
 * The JavaScript string operations the ERC protest tool relies on, stated over
 * Dafny strings (sequences of Unicode scalar values): the `\s` class and `trim`,
 * `split` on one character and `join`, `includes`, `startsWith`, a literal
 * replace-all, ASCII case mapping and decimal rendering of a counter.
 */
module JsStrings {
  import opened Wrappers

  /** The code points JavaScript classes as WhiteSpace or LineTerminator: the `\s`
      class of a regular expression and what `String.prototype.trim` removes. */
  predicate IsSpace(c: char) {
    || c == '\t' || c == '\n' || c == '\U{000B}' || c == '\U{000C}' || c == '\r'
    || c == ' ' || c == '\U{00A0}' || c == '\U{1680}' || ('\U{2000}' <= c <= '\U{200A}')
    || c == '\U{2028}' || c == '\U{2029}' || c == '\U{202F}' || c == '\U{205F}'
    || c == '\U{3000}' || c == '\U{FEFF}'
  }

  predicate IsDigit(c: char) { '0' <= c <= '9' }

  /** `[a-zA-Z0-9]` */
  predicate IsAsciiAlnum(c: char) { IsDigit(c) || 'a' <= c <= 'z' || 'A' <= c <= 'Z' }

  /** A possibly-undefined string is truthy: present and not empty. */
  predicate Truthy(v: Option<string>) { v.Some? && v.value != "" }

  // ---------------------------------------------------------------------------
  // trim
  // ---------------------------------------------------------------------------

  function TrimStart(s: string): (r: string)
    ensures |r| <= |s| && r == s[|s| - |r|..]
    ensures forall i :: 0 <= i < |s| - |r| ==> IsSpace(s[i])
    ensures r == [] || !IsSpace(r[0])
    ensures s != [] && IsSpace(s[0]) ==> |r| < |s|
  {
    if s != [] && IsSpace(s[0]) then TrimStart(s[1..]) else s
  }

  function TrimEnd(s: string): (r: string)
    ensures |r| <= |s| && r == s[..|r|]
    ensures forall i :: |r| <= i < |s| ==> IsSpace(s[i])
    ensures r == [] || !IsSpace(r[|r| - 1])
  {
    if s != [] && IsSpace(s[|s| - 1]) then TrimEnd(s[..|s| - 1]) else s
  }

  /** `${v}` in a template literal: the text of a string, `undefined` for a
      missing value. */
  function Text(v: Option<string>): string {
    match v
    case Some(t) => t
    case None => "undefined"
  }

  /** `v || d` for a possibly missing string. */
  function OrElse(v: Option<string>, d: string): string {
    if Truthy(v) then v.value else d
  }

  /** Number of whitespace characters `trim` removes at the front. */
  function Leading(s: string): nat { |s| - |TrimStart(s)| }

  /** `String.prototype.trim`: the longest infix of `s` that neither starts nor
      ends with whitespace, obtained by dropping only whitespace. */
  function Trim(s: string): (r: string)
    ensures Leading(s) + |r| <= |s| && r == s[Leading(s)..Leading(s) + |r|]
    ensures forall i :: 0 <= i < Leading(s) ==> IsSpace(s[i])
    ensures forall i :: Leading(s) + |r| <= i < |s| ==> IsSpace(s[i])
    ensures r == [] || (!IsSpace(r[0]) && !IsSpace(r[|r| - 1]))
  {
    var t := TrimStart(s);
    var r := TrimEnd(t);
    TrimComposes(s, t, r);
    r
  }

  /** Dropping leading whitespace and then trailing whitespace leaves an infix
      of `s` that neither starts nor ends with whitespace, with only whitespace
      around it. */
  lemma TrimComposes(s: string, t: string, r: string)
    requires |t| <= |s| && t == s[|s| - |t|..]
    requires forall i :: 0 <= i < |s| - |t| ==> IsSpace(s[i])
    requires t == [] || !IsSpace(t[0])
    requires |r| <= |t| && r == t[..|r|]
    requires forall i :: |r| <= i < |t| ==> IsSpace(t[i])
    requires r == [] || !IsSpace(r[|r| - 1])
    ensures |s| - |t| + |r| <= |s| && r == s[|s| - |t|..|s| - |t| + |r|]
    ensures forall i :: |s| - |t| + |r| <= i < |s| ==> IsSpace(s[i])
    ensures r == [] || (!IsSpace(r[0]) && !IsSpace(r[|r| - 1]))
  {
    var lo := |s| - |t|;
    assert r == s[lo..lo + |r|];
    assert r != [] ==> r[0] == t[0];
    forall i | lo + |r| <= i < |s| ensures IsSpace(s[i]) {
      assert s[i] == t[i - lo];
    }
  }

  /** `trim` only drops characters: every character it keeps is from `s`. */
  lemma TrimKeepsCharacters(s: string)
    ensures forall k :: 0 <= k < |Trim(s)| ==> Trim(s)[k] in s
  {
    var r, lo := Trim(s), Leading(s);
    assert r == s[lo..lo + |r|];
    forall k | 0 <= k < |r| ensures r[k] in s {
      assert r[k] == s[lo..lo + |r|][k] == s[lo + k];
    }
  }

  // ---------------------------------------------------------------------------
  // split and join
  // ---------------------------------------------------------------------------

  /** `s.split(sep)` for a one-character separator: never empty, and no part
      holds the separator. */
  function Split(s: string, sep: char): (parts: seq<string>)
    ensures |parts| >= 1
    ensures forall k :: 0 <= k < |parts| ==> sep !in parts[k]
  {
    if s == [] then [""]
    else
      var rest := Split(s[1..], sep);
      if s[0] == sep then [""] + rest else [[s[0]] + rest[0]] + rest[1..]
  }

  /** `parts.join(sep)` */
  function Join(parts: seq<string>, sep: string): string {
    if |parts| == 0 then ""
    else if |parts| == 1 then parts[0]
    else parts[0] + sep + Join(parts[1..], sep)
  }

  /** Joining the parts of a split with the same separator gives the input back. */
  lemma {:induction false} JoinSplit(s: string, sep: char)
    ensures Join(Split(s, sep), [sep]) == s
  {
    if s != [] {
      var rest := Split(s[1..], sep);
      JoinSplit(s[1..], sep);
      if s[0] == sep {
        assert ([""] + rest)[1..] == rest;
      } else if |rest| > 1 {
        assert ([[s[0]] + rest[0]] + rest[1..])[1..] == rest[1..];
      }
      assert s == [s[0]] + s[1..];
    }
  }

  lemma {:induction false} SplitWithoutSeparator(s: string, sep: char)
    requires sep !in s
    ensures Split(s, sep) == [s]
  {
    if s != [] {
      assert s[1..] == s[|s| - (|s| - 1)..];
      SplitWithoutSeparator(s[1..], sep);
      assert s == [s[0]] + s[1..];
    }
  }

  lemma {:induction false} SplitAfterPart(p: string, sep: char, t: string)
    requires sep !in p
    ensures Split(p + [sep] + t, sep) == [p] + Split(t, sep)
  {
    if p == [] {
      assert ([] + [sep] + t)[1..] == t;
    } else {
      assert (p + [sep] + t)[1..] == p[1..] + [sep] + t;
      assert sep !in p[1..] by { assert forall c :: c in p[1..] ==> c in p; }
      SplitAfterPart(p[1..], sep, t);
      assert [p[0]] + p[1..] == p;
    }
  }

  /** Splitting a join of separator-free parts gives the parts back. */
  lemma {:induction false} SplitJoin(parts: seq<string>, sep: char)
    requires |parts| >= 1
    requires forall k :: 0 <= k < |parts| ==> sep !in parts[k]
    ensures Split(Join(parts, [sep]), sep) == parts
  {
    if |parts| == 1 {
      SplitWithoutSeparator(parts[0], sep);
    } else {
      SplitJoin(parts[1..], sep);
      SplitAfterPart(parts[0], sep, Join(parts[1..], [sep]));
      assert [parts[0]] + parts[1..] == parts;
    }
  }

  /** A join starts with its first part. */
  lemma JoinStartsWithFirst(parts: seq<string>, sep: string)
    requires |parts| >= 1
    ensures parts[0] <= Join(parts, sep)
  {
    if |parts| > 1 {
      assert Join(parts, sep) == parts[0] + (sep + Join(parts[1..], sep));
    }
  }

  /** Every part of a join occurs in it. */
  lemma {:induction false} JoinContainsPart(parts: seq<string>, sep: string, k: nat)
    requires k < |parts|
    ensures Contains(Join(parts, sep), parts[k])
  {
    if |parts| == 1 {
      ContainsInfix([], parts[0], []);
      assert [] + parts[0] + [] == parts[0];
    } else if k == 0 {
      ContainsInfix([], parts[0], sep + Join(parts[1..], sep));
      assert [] + parts[0] + (sep + Join(parts[1..], sep)) == Join(parts, sep);
    } else {
      JoinContainsPart(parts[1..], sep, k - 1);
      assert Join(parts, sep) == (parts[0] + sep) + Join(parts[1..], sep);
      ContainsDrop(Join(parts, sep), |parts[0] + sep|, parts[k]);
    }
  }

  /** Node's `path.join(dir, name)` for a plain directory and file name. */
  function JoinPath(dir: string, name: string): string { dir + "/" + name }

  /** Each string followed by a line feed. */
  function Lines(ps: seq<string>): string {
    if ps == [] then "" else ps[0] + "\n" + Lines(ps[1..])
  }

  /** Text that starts with whole lines splits into those lines first. */
  lemma {:induction false} SplitLinesPrefix(ps: seq<string>, t: string)
    requires forall k :: 0 <= k < |ps| ==> '\n' !in ps[k]
    ensures Split(Lines(ps) + t, '\n') == ps + Split(t, '\n')
  {
    if ps != [] {
      var rest := Lines(ps[1..]) + t;
      assert Lines(ps) + t == ps[0] + ['\n'] + rest;
      SplitAfterPart(ps[0], '\n', rest);
      SplitLinesPrefix(ps[1..], t);
      calc {
        Split(Lines(ps) + t, '\n');
        [ps[0]] + Split(rest, '\n');
        [ps[0]] + (ps[1..] + Split(t, '\n'));
        { assert [ps[0]] + ps[1..] == ps; }
        ps + Split(t, '\n');
      }
    } else {
      assert Lines(ps) + t == t;
    }
  }

  // ---------------------------------------------------------------------------
  // includes and startsWith
  // ---------------------------------------------------------------------------

  /** `s.includes(t)` */
  function Contains(s: string, t: string): bool
    decreases |s|
  {
    t <= s || (s != [] && Contains(s[1..], t))
  }

  /** `s.startsWith(p)` */
  predicate StartsWith(s: string, p: string) { p <= s }

  lemma {:induction false} ContainsInfix(a: string, b: string, c: string)
    ensures Contains(a + b + c, b)
  {
    if a == [] {
      assert a + b + c == b + c;
    } else {
      ContainsInfix(a[1..], b, c);
      assert (a + b + c)[1..] == a[1..] + b + c;
    }
  }

  lemma ContainsSelf(t: string)
    ensures Contains(t, t)
  {
  }

  /** What occurs in `a` occurs in `a + b`. */
  lemma ContainsExtendRight(a: string, b: string, t: string)
    requires Contains(a, t)
    ensures Contains(a + b, t)
  {
    var i := IndexOf(a, t);
    assert (a + b)[i..] == a[i..] + b;
    ContainsAt(a + b, i, t);
  }

  /** What occurs in `b` occurs in `a + b`. */
  lemma ContainsExtendLeft(a: string, b: string, t: string)
    requires Contains(b, t)
    ensures Contains(a + b, t)
  {
    assert (a + b)[|a|..] == b;
    ContainsDrop(a + b, |a|, t);
  }

  lemma {:induction false} ContainsDrop(s: string, k: nat, t: string)
    requires k <= |s|
    ensures Contains(s[k..], t) ==> Contains(s, t)
    decreases k
  {
    if k > 0 {
      ContainsDrop(s[1..], k - 1, t);
      assert s[1..][k - 1..] == s[k..];
    }
  }

  lemma {:induction false} ContainsAt(s: string, k: nat, t: string)
    requires k <= |s| && t <= s[k..]
    ensures Contains(s, t)
  {
    ContainsDrop(s, k, t);
  }

  /** Where `t` first occurs in `s`. */
  function IndexOf(s: string, t: string): (i: nat)
    requires Contains(s, t)
    ensures i <= |s| && t <= s[i..]
    decreases |s|
  {
    if t <= s then 0 else 1 + IndexOf(s[1..], t)
  }

  lemma ContainsTransitive(a: string, b: string, c: string)
    requires Contains(a, b) && Contains(b, c)
    ensures Contains(a, c)
  {
    var i, j := IndexOf(a, b), IndexOf(b, c);
    assert a[i..][j..] == a[i + j..];
    ContainsAt(a, i + j, c);
  }

  // ---------------------------------------------------------------------------
  // literal replace-all
  // ---------------------------------------------------------------------------

  /** Every occurrence of the non-empty `pat`, scanned left to right and without
      overlap, replaced by `rep` (what `replace` with a global pattern does when
      the pattern matches only its own literal text). */
  function ReplaceAll(s: string, pat: string, rep: string): string
    requires pat != []
    decreases |s|
  {
    if s == [] then []
    else if pat <= s then rep + ReplaceAll(s[|pat|..], pat, rep)
    else [s[0]] + ReplaceAll(s[1..], pat, rep)
  }

  /** No suffix of `rep` and `q` can be laid over each other: an occurrence of
      `q` can neither start inside `rep` nor lie within it. */
  predicate NoOverlap(rep: string, q: string) {
    forall i :: 0 <= i < |rep| ==> !(q <= rep[i..]) && !(rep[i..] <= q)
  }

  lemma PrefixOfConcat(q: string, a: string, b: string)
    ensures q <= a + b ==> q <= a || a <= q
  {
    if q <= a + b && |q| > |a| {
      assert q[..|a|] == (a + b)[..|a|] == a;
    }
  }

  lemma HeadOfPrefix(q: string, r: string)
    ensures q != [] && q <= r ==> |r| > 0 && r[0] in q
  {
    if q != [] && q <= r {
      assert q[0] == r[0];
    }
  }

  lemma {:induction false} NotContainsConcat(a: string, b: string, q: string)
    requires NoOverlap(a, q)
    requires !Contains(b, q)
    ensures !Contains(a + b, q)
    decreases |a|
  {
    if a == [] {
      assert a + b == b;
    } else {
      assert a[0..] == a;
      PrefixOfConcat(q, a, b);
      assert forall i :: 0 <= i < |a| - 1 ==> a[1..][i..] == a[i + 1..];
      NotContainsConcat(a[1..], b, q);
      assert (a + b)[1..] == a[1..] + b;
    }
  }

  /** A non-empty prefix of a rewritten text that avoids the replacement's first
      character was already a prefix of the source text, and no match started there. */
  lemma {:induction false} PrefixOfReplaced(s: string, pat: string, rep: string, q: string)
    requires pat != [] && q != [] && rep != [] && rep[0] !in q
    ensures q <= ReplaceAll(s, pat, rep) ==> q <= s && !(pat <= s)
    decreases |s|
  {
    var r := ReplaceAll(s, pat, rep);
    HeadOfPrefix(q, r);
    if s == [] {
    } else if pat <= s {
      assert r[0] == rep[0];
    } else {
      var r1 := ReplaceAll(s[1..], pat, rep);
      assert r == [s[0]] + r1;
      if |q| > 1 {
        assert rep[0] !in q[1..] by { assert forall c :: c in q[1..] ==> c in q; }
        PrefixOfReplaced(s[1..], pat, rep, q[1..]);
        if q <= r {
          assert q[1..] <= r1;
          assert q == [s[0]] + q[1..];
        }
      }
    }
  }

  /** After a replace-all, the pattern no longer occurs, and a text that did not
      occur before does not appear, as long as neither can overlap the
      replacement text. */
  lemma {:induction false} ReplaceAllAvoids(s: string, pat: string, rep: string, q: string)
    requires pat != [] && q != [] && rep != [] && rep[0] !in q && NoOverlap(rep, q)
    requires q == pat || !Contains(s, q)
    ensures !Contains(ReplaceAll(s, pat, rep), q)
    decreases |s|
  {
    if s == [] {
    } else if pat <= s {
      var s1 := s[|pat|..];
      ContainsDrop(s, |pat|, q);
      ReplaceAllAvoids(s1, pat, rep, q);
      NotContainsConcat(rep, ReplaceAll(s1, pat, rep), q);
    } else {
      var r1 := ReplaceAll(s[1..], pat, rep);
      assert ReplaceAll(s, pat, rep) == [s[0]] + r1;
      assert ([s[0]] + r1)[1..] == r1;
      PrefixOfReplaced(s, pat, rep, q);
      ReplaceAllAvoids(s[1..], pat, rep, q);
    }
  }

  /** A replace-all leaves a text in which the pattern does not occur unchanged. */
  lemma {:induction false} ReplaceAllAbsent(s: string, pat: string, rep: string)
    requires pat != [] && !Contains(s, pat)
    ensures ReplaceAll(s, pat, rep) == s
    decreases |s|
  {
    if s != [] {
      ReplaceAllAbsent(s[1..], pat, rep);
      assert s == [s[0]] + s[1..];
    }
  }

  // ---------------------------------------------------------------------------
  // ASCII case mapping and decimal numbers
  // ---------------------------------------------------------------------------

  function LowerChar(c: char): char {
    if 'A' <= c <= 'Z' then (c as int + 32) as char else c
  }

  function UpperChar(c: char): char {
    if 'a' <= c <= 'z' then (c as int - 32) as char else c
  }

  /** `toLowerCase`, restricted to the ASCII letters. */
  function ToLower(s: string): (r: string)
    ensures |r| == |s| && forall i :: 0 <= i < |s| ==> r[i] == LowerChar(s[i])
  {
    seq(|s|, i requires 0 <= i < |s| => LowerChar(s[i]))
  }

  /** `toUpperCase`, restricted to the ASCII letters. */
  function ToUpper(s: string): (r: string)
    ensures |r| == |s| && forall i :: 0 <= i < |s| ==> r[i] == UpperChar(s[i])
  {
    seq(|s|, i requires 0 <= i < |s| => UpperChar(s[i]))
  }

  function DigitChar(d: nat): (c: char)
    requires d < 10
    ensures IsDigit(c)
  {
    "0123456789"[d]
  }

  /** The decimal rendering of a counter in a template literal. */
  function NatToString(n: nat): (r: string)
    ensures |r| >= 1 && forall k :: 0 <= k < |r| ==> IsDigit(r[k])
  {
    if n < 10 then [DigitChar(n)] else NatToString(n / 10) + [DigitChar(n % 10)]
  }
}
