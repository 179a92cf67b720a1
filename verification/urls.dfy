/**
 * Citation URLs in a generated protest letter: the scan with the global pattern
 * `https?:\/\/[^\s\)]+`, the first-occurrence de-duplication of `new Set(...)`,
 * the attachment filename derived from a URL, and the bracketed reference that
 * replaces a captured URL in the letter.
 */
module Urls {
  import opened JsStrings

  /** `[^\s\)]`: a character a URL match may contain. */
  predicate IsUrlChar(c: char) { !IsSpace(c) && c != ')' }

  predicate HasScheme(m: string) { "http://" <= m || "https://" <= m }

  /** `m` is matched in full by `https?:\/\/[^\s\)]+`. */
  predicate IsUrlMatch(m: string) {
    && (("https://" <= m && |m| > 8) || ("http://" <= m && |m| > 7))
    && forall k :: 0 <= k < |m| ==> IsUrlChar(m[k])
  }

  /** Length of the longest run of URL characters at the start of `s`. */
  function RunLength(s: string): (n: nat)
    ensures n <= |s|
    ensures forall k :: 0 <= k < n ==> IsUrlChar(s[k])
    ensures n == |s| || !IsUrlChar(s[n])
  {
    if s != [] && IsUrlChar(s[0]) then 1 + RunLength(s[1..]) else 0
  }

  /** No match of the pattern starts at index `i` of `s`. */
  predicate NoMatchStartsAt(s: string, i: nat)
    requires i <= |s|
  {
    forall m :: i < m <= |s| ==> !IsUrlMatch(s[i..m])
  }

  /** `s[i..]` opens with `https://` and a URL character. */
  predicate HttpsAt(s: string, i: nat)
    requires i <= |s|
  {
    "https://" <= s[i..] && |s[i..]| > 8 && IsUrlChar(s[i..][8])
  }

  /** `s[i..]` opens with `http://` and a URL character. */
  predicate HttpAt(s: string, i: nat)
    requires i <= |s|
  {
    "http://" <= s[i..] && |s[i..]| > 7 && IsUrlChar(s[i..][7])
  }

  /** `s[i..]` opens with a scheme followed by at least one URL character. */
  predicate SchemeAndCharAt(s: string, i: nat)
    requires i <= |s|
  {
    HttpsAt(s, i) || HttpAt(s, i)
  }

  /** Length of the pattern's match anchored at index `i` of `s`, 0 when there is
      none. The optional `s` is tried first; the body is taken greedily. */
  function MatchLengthAt(s: string, i: nat): (n: nat)
    requires i <= |s|
    ensures i + n <= |s|
    ensures n > 0 <==> SchemeAndCharAt(s, i)
    ensures n > 0 ==> IsMatchSpan(s, Span(i, i + n))
    ensures n == 0 ==> NoMatchStartsAt(s, i)
  {
    if HttpsAt(s, i) then
      SchemeRunMatches(s, i, "https://", 8);
      8 + RunLength(s[i..][8..])
    else if HttpAt(s, i) then
      SchemeRunMatches(s, i, "http://", 7);
      7 + RunLength(s[i..][7..])
    else
      NoMatchWithoutScheme(s, i);
      0
  }

  /** A scheme followed by the longest run of URL characters is a match that
      cannot be extended. */
  lemma SchemeRunMatches(s: string, i: nat, scheme: string, w: nat)
    requires i <= |s| && (scheme == "https://" || scheme == "http://") && w == |scheme|
    requires scheme <= s[i..] && |s[i..]| > w && IsUrlChar(s[i..][w])
    ensures IsMatchSpan(s, Span(i, i + w + RunLength(s[i..][w..])))
  {
    var t := s[i..];
    var run := t[w..];
    var n := w + RunLength(run);
    var m := s[i..i + n];
    assert m == t[..n];
    assert scheme <= m by {
      assert forall k :: 0 <= k < w ==> m[k] == t[k] == scheme[k];
    }
    SchemeHasUrlChars(scheme);
    forall k | 0 <= k < |m| ensures IsUrlChar(m[k]) {
      if k < w {
        assert m[k] == scheme[k];
      } else {
        assert m[k] == run[k - w];
      }
    }
    if i + n < |s| {
      assert s[i + n] == run[n - w];
    }
  }

  /** Every character of either scheme may appear in a URL match. */
  lemma SchemeHasUrlChars(scheme: string)
    requires scheme == "https://" || scheme == "http://"
    ensures forall k :: 0 <= k < |scheme| ==> IsUrlChar(scheme[k])
  {
  }

  /** A match opens with a scheme and a URL character. */
  lemma MatchOpensWithScheme(s: string, i: nat, m: nat)
    requires i < m <= |s| && IsUrlMatch(s[i..m])
    ensures SchemeAndCharAt(s, i)
  {
    var t, u := s[i..], s[i..m];
    assert u == t[..m - i];
    if "https://" <= u && |u| > 8 {
      assert "https://" <= t && t[8] == u[8];
      assert HttpsAt(s, i);
    } else {
      assert "http://" <= t && t[7] == u[7];
      assert HttpAt(s, i);
    }
  }

  /** Every match starting at `i` opens with a scheme and a URL character. */
  lemma NoMatchWithoutScheme(s: string, i: nat)
    requires i <= |s| && !SchemeAndCharAt(s, i)
    ensures NoMatchStartsAt(s, i)
  {
    forall m | i < m <= |s| ensures !IsUrlMatch(s[i..m]) {
      NoMatchOfLength(s, i, m);
    }
  }

  lemma NoMatchOfLength(s: string, i: nat, m: nat)
    requires i < m <= |s| && !SchemeAndCharAt(s, i)
    ensures !IsUrlMatch(s[i..m])
  {
    var t, u := s[i..], s[i..m];
    assert u == t[..m - i];
    if "https://" <= u && |u| > 8 {
      assert "https://" <= t && t[8] == u[8];
    }
    if "http://" <= u && |u| > 7 {
      assert "http://" <= t && t[7] == u[7];
    }
  }

  /** Position of one match in the scanned text. */
  datatype Span = Span(start: nat, end: nat)

  /** The span covers a full match of the pattern that cannot be extended. */
  predicate IsMatchSpan(s: string, sp: Span) {
    && sp.start < sp.end <= |s|
    && IsUrlMatch(s[sp.start..sp.end])
    && (sp.end == |s| || !IsUrlChar(s[sp.end]))
  }

  /** Position `p` lies inside one of the spans. */
  predicate Covered(spans: seq<Span>, p: nat) {
    exists k :: 0 <= k < |spans| && spans[k].start <= p < spans[k].end
  }

  /** The successive matches of the global pattern from index `i` on: each match
      is maximal, the scan resumes where the previous match ended, and every
      position from `i` on where a match starts lies inside a span. */
  function ScanFrom(s: string, i: nat): (spans: seq<Span>)
    requires i <= |s|
    ensures forall k :: 0 <= k < |spans| ==> i <= spans[k].start && IsMatchSpan(s, spans[k])
    ensures forall k :: 0 <= k < |spans| - 1 ==> spans[k].end <= spans[k + 1].start
    ensures forall p :: i <= p < |s| && SchemeAndCharAt(s, p) ==> Covered(spans, p)
    decreases |s| - i
  {
    if i == |s| then []
    else
      var n := MatchLengthAt(s, i);
      if n > 0 then
        var rest := ScanFrom(s, i + n);
        var spans := [Span(i, i + n)] + rest;
        ConsScan(s, i, n, rest, spans);
        spans
      else
        var spans := ScanFrom(s, i + 1);
        SkipScan(s, i, spans);
        spans
  }

  /** A maximal match `[i, i + n)` followed by the scan from `i + n` on is a
      scan from `i` on. */
  lemma ConsScan(s: string, i: nat, n: nat, rest: seq<Span>, spans: seq<Span>)
    requires i <= |s| && n == MatchLengthAt(s, i) && 0 < n && spans == [Span(i, i + n)] + rest
    requires forall k :: 0 <= k < |rest| ==> i + n <= rest[k].start && IsMatchSpan(s, rest[k])
    requires forall k :: 0 <= k < |rest| - 1 ==> rest[k].end <= rest[k + 1].start
    requires forall p :: i + n <= p < |s| && SchemeAndCharAt(s, p) ==> Covered(rest, p)
    ensures forall k :: 0 <= k < |spans| ==> i <= spans[k].start && IsMatchSpan(s, spans[k])
    ensures forall k :: 0 <= k < |spans| - 1 ==> spans[k].end <= spans[k + 1].start
    ensures forall p :: i <= p < |s| && SchemeAndCharAt(s, p) ==> Covered(spans, p)
  {
    assert IsMatchSpan(s, Span(i, i + n));
    assert spans[0] == Span(i, i + n);
    assert forall k :: 0 < k < |spans| ==> spans[k] == rest[k - 1];
    forall p | i <= p < i + n ensures Covered(spans, p) {
      assert spans[0].start <= p < spans[0].end;
    }
    forall p | i + n <= p < |s| && SchemeAndCharAt(s, p) ensures Covered(spans, p) {
      CoveredShifts(Span(i, i + n), rest, p);
    }
  }

  /** Where no match starts, the scan from the next index on is a scan from
      `i` on. */
  lemma SkipScan(s: string, i: nat, spans: seq<Span>)
    requires i < |s| && MatchLengthAt(s, i) == 0
    requires forall k :: 0 <= k < |spans| ==> i + 1 <= spans[k].start && IsMatchSpan(s, spans[k])
    requires forall p :: i + 1 <= p < |s| && SchemeAndCharAt(s, p) ==> Covered(spans, p)
    ensures forall k :: 0 <= k < |spans| ==> i <= spans[k].start && IsMatchSpan(s, spans[k])
    ensures forall p :: i <= p < |s| && SchemeAndCharAt(s, p) ==> Covered(spans, p)
  {
  }

  lemma CoveredShifts(first: Span, rest: seq<Span>, p: nat)
    requires Covered(rest, p)
    ensures Covered([first] + rest, p)
  {
    var k :| 0 <= k < |rest| && rest[k].start <= p < rest[k].end;
    assert ([first] + rest)[k + 1] == rest[k];
  }

  /** Some infix of `s` is a full match of the pattern. */
  predicate HasUrl(s: string) {
    exists p, m :: 0 <= p < m <= |s| && IsUrlMatch(s[p..m])
  }

  /** `letter.match(urlRegex) || []`: the matches in order; there is one
      exactly when the text holds a URL. */
  function ExtractUrls(s: string): (urls: seq<string>)
    ensures forall k :: 0 <= k < |urls| ==> IsUrlMatch(urls[k])
    ensures urls != [] <==> HasUrl(s)
  {
    var spans := ScanFrom(s, 0);
    var urls := seq(|spans|, k requires 0 <= k < |spans| => s[spans[k].start..spans[k].end]);
    assert urls != [] <==> HasUrl(s) by {
      if spans != [] {
        assert IsUrlMatch(s[spans[0].start..spans[0].end]);
      }
      if HasUrl(s) {
        var p, m :| 0 <= p < m <= |s| && IsUrlMatch(s[p..m]);
        MatchOpensWithScheme(s, p, m);
      }
    }
    urls
  }

  /** Every URL in the text lies inside the span of an extracted URL: the scan
      misses none. */
  lemma {:induction false} EveryUrlIsExtracted(s: string, p: nat, m: nat)
    requires p < m <= |s| && IsUrlMatch(s[p..m])
    ensures exists k :: (0 <= k < |ScanFrom(s, 0)| &&
                         ScanFrom(s, 0)[k].start <= p < ScanFrom(s, 0)[k].end &&
                         ExtractUrls(s)[k] == s[ScanFrom(s, 0)[k].start..ScanFrom(s, 0)[k].end])
  {
    var spans := ScanFrom(s, 0);
    MatchOpensWithScheme(s, p, m);
    assert Covered(spans, p);
    var k :| 0 <= k < |spans| && spans[k].start <= p < spans[k].end;
    assert ExtractUrls(s)[k] == s[spans[k].start..spans[k].end];
  }

  /** Every extracted URL is a maximal run of `s`: it occurs at a position where
      it is followed by the end of the text, whitespace or `)`. */
  lemma ExtractedUrlsAreMaximalRuns(s: string)
    ensures var spans := ScanFrom(s, 0);
      |ExtractUrls(s)| == |spans| &&
      forall k :: 0 <= k < |spans| ==>
        && ExtractUrls(s)[k] == s[spans[k].start..spans[k].end]
        && Contains(s, ExtractUrls(s)[k])
        && (spans[k].end == |s| || !IsUrlChar(s[spans[k].end]))
  {
    var spans := ScanFrom(s, 0);
    forall k | 0 <= k < |spans| ensures Contains(s, ExtractUrls(s)[k]) {
      ContainsAt(s, spans[k].start, ExtractUrls(s)[k]);
    }
  }

  // ---------------------------------------------------------------------------
  // [...new Set(list)]
  // ---------------------------------------------------------------------------

  predicate NoDuplicates<T(==)>(xs: seq<T>) {
    forall i, j :: 0 <= i < j < |xs| ==> xs[i] != xs[j]
  }

  /** The distinct elements of `xs` in the order a `Set` is iterated. */
  function Dedup<T(==)>(xs: seq<T>): (r: seq<T>)
    ensures NoDuplicates(r)
    ensures forall k :: 0 <= k < |r| ==> r[k] in xs
    ensures forall k :: 0 <= k < |xs| ==> xs[k] in r
    ensures |r| <= |xs|
  {
    if xs == [] then []
    else
      var d := Dedup(xs[..|xs| - 1]);
      var x := xs[|xs| - 1];
      assert xs == xs[..|xs| - 1] + [x];
      if x in d then d else d + [x]
  }

  function FirstIndex<T(==)>(xs: seq<T>, x: T): (i: nat)
    requires x in xs
    ensures i < |xs| && xs[i] == x
    ensures forall k :: 0 <= k < i ==> xs[k] != x
  {
    if xs[0] == x then 0 else 1 + FirstIndex(xs[1..], x)
  }

  lemma FirstIndexOfPrefix<T>(xs: seq<T>, n: nat, y: T)
    requires n <= |xs| && y in xs[..n]
    ensures FirstIndex(xs, y) == FirstIndex(xs[..n], y)
  {
    var f, g := FirstIndex(xs, y), FirstIndex(xs[..n], y);
    assert xs[g] == y;
    assert f <= g;
    assert xs[..n][f] == y;
  }

  /** The de-duplicated list keeps the order in which each element first appears. */
  lemma {:induction false} DedupKeepsFirstOccurrenceOrder<T>(xs: seq<T>)
    ensures forall i, j :: 0 <= i < j < |Dedup(xs)| ==>
      FirstIndex(xs, Dedup(xs)[i]) < FirstIndex(xs, Dedup(xs)[j])
  {
    forall i, j | 0 <= i < j < |Dedup(xs)| ensures FirstIndex(xs, Dedup(xs)[i]) < FirstIndex(xs, Dedup(xs)[j]) {
      DedupPairOrder(xs, i, j);
    }
  }

  /** Two positions of the de-duplicated list, in the order of first occurrence. */
  lemma {:induction false} DedupPairOrder<T>(xs: seq<T>, i: nat, j: nat)
    requires i < j < |Dedup(xs)|
    ensures FirstIndex(xs, Dedup(xs)[i]) < FirstIndex(xs, Dedup(xs)[j])
    decreases |xs|
  {
    var n := |xs|;
    var p := xs[..n - 1];
    var d := Dedup(p);
    var x := xs[n - 1];
    var r := Dedup(xs);
    assert r == if x in d then d else d + [x];
    assert r[i] == d[i] && d[i] in p;
    FirstIndexOfPrefix(xs, n - 1, d[i]);
    if j < |d| {
      assert r[j] == d[j] && d[j] in p;
      FirstIndexOfPrefix(xs, n - 1, d[j]);
      DedupPairOrder(p, i, j);
    } else {
      assert r[j] == x && x !in p;
      assert forall k :: 0 <= k < n - 1 ==> xs[k] == p[k];
      assert FirstIndex(xs, x) == n - 1;
    }
  }

  // ---------------------------------------------------------------------------
  // Filenames and references
  // ---------------------------------------------------------------------------

  /** `url.replace(/[^a-zA-Z0-9]/g, '_').substring(0, 30)`: the first 30
      characters of the URL, with every character outside `[A-Za-z0-9]` replaced
      by `_`. */
  function Stem(url: string): (r: string)
    ensures |r| <= 30 && (|url| <= 30 ==> |r| == |url|) && (|url| >= 30 ==> |r| == 30)
    ensures forall k :: 0 <= k < |r| ==> IsAsciiAlnum(r[k]) || r[k] == '_'
    ensures forall k :: 0 <= k < |r| ==> IsAsciiAlnum(url[k]) ==> r[k] == url[k]
    ensures forall k :: 0 <= k < |r| ==> !IsAsciiAlnum(url[k]) ==> r[k] == '_'
  {
    var n := if |url| < 30 then |url| else 30;
    seq(n, k requires 0 <= k < n => if IsAsciiAlnum(url[k]) then url[k] else '_')
  }

  /** The PDF filename of the URL at (0-based) position `i` of the unique list. */
  function AttachmentFilename(i: nat, url: string): (name: string)
    ensures ':' !in name
  {
    var name := "attachment_" + NatToString(i + 1) + "_" + Stem(url) + ".pdf";
    assert forall c :: c in Stem(url) ==> IsAsciiAlnum(c) || c == '_';
    assert forall c :: c in NatToString(i + 1) ==> IsDigit(c);
    name
  }

  /** `[See Attachment i: filename]`, with `i` 1-based. */
  function Reference(i: nat, filename: string): string {
    "[See Attachment " + NatToString(i + 1) + ": " + filename + "]"
  }

  /** Every colon is preceded by a decimal digit. */
  predicate ColonsFollowDigits(s: string) {
    forall k :: 0 <= k < |s| && s[k] == ':' ==> 0 < k && IsDigit(s[k - 1])
  }

  /** The last character is a decimal digit. */
  predicate EndsWithDigit(s: string) {
    s != [] && IsDigit(s[|s| - 1])
  }

  lemma ColonsFollowDigitsConcat(a: string, b: string)
    requires ColonsFollowDigits(a) && ColonsFollowDigits(b)
    requires b != [] && b[0] == ':' ==> EndsWithDigit(a)
    ensures ColonsFollowDigits(a + b)
  {
    forall k | 0 <= k < |a + b| && (a + b)[k] == ':' ensures 0 < k && IsDigit((a + b)[k - 1]) {
      if k < |a| {
        assert a[k] == ':';
      } else if k > |a| {
        assert b[k - |a|] == ':' && (a + b)[k - 1] == b[k - 1 - |a|];
      }
    }
  }

  lemma ColonAfterDigit(a: string)
    requires ColonsFollowDigits(a) && a != [] && IsDigit(a[|a| - 1])
    ensures ColonsFollowDigits(a + ":")
  {
    forall k | 0 <= k < |a| && (a + ":")[k] == ':' ensures 0 < k && IsDigit((a + ":")[k - 1]) {
      assert a[k] == ':';
    }
  }

  lemma ColonFreeText(s: string)
    requires ':' !in s
    ensures ColonsFollowDigits(s)
  {
  }

  lemma ReferenceColons(i: nat, filename: string)
    requires ':' !in filename
    ensures ColonsFollowDigits(Reference(i, filename))
  {
    var d := NatToString(i + 1);
    assert forall c :: c in d ==> IsDigit(c);
    var head := "[See Attachment " + d;
    var tail := " " + filename + "]";
    assert Reference(i, filename) == head + ":" + tail;
    ColonFreeText(head);
    ColonAfterDigit(head);
    ColonFreeText(tail);
    ColonsFollowDigitsConcat(head + ":", tail);
  }

  /** An attachment reference cannot overlap an `http://` or `https://` URL: no
      suffix of the reference is a prefix of the URL, and the URL never lies
      inside the reference. */
  lemma NoOverlapWithScheme(rep: string, q: string)
    requires ColonsFollowDigits(rep) && |rep| > 0 && rep[|rep| - 1] == ']'
    requires HasScheme(q)
    ensures NoOverlap(rep, q)
  {
    assert "http://" <= q ==> q[0] == 'h' && q[1] == 't' && q[2] == 't' && q[3] == 'p' && q[4] == ':';
    assert "https://" <= q ==>
      q[0] == 'h' && q[1] == 't' && q[2] == 't' && q[3] == 'p' && q[4] == 's' && q[5] == ':';
    forall i | 0 <= i < |rep| ensures !(q <= rep[i..]) && !(rep[i..] <= q) {
      var t := rep[i..];
      assert t[|t| - 1] == ']';
      assert |t| > 4 && t[4] == ':' ==> IsDigit(t[3]) by {
        if |t| > 4 && t[4] == ':' { assert rep[i + 4] == ':'; }
      }
      assert |t| > 5 && t[5] == ':' ==> IsDigit(t[4]) by {
        if |t| > 5 && t[5] == ':' { assert rep[i + 5] == ':'; }
      }
    }
  }

  /** The reference for a captured URL cannot overlap any URL match. */
  lemma ReferenceAvoidsUrls(i: nat, url: string, q: string)
    requires IsUrlMatch(q)
    ensures NoOverlap(Reference(i, AttachmentFilename(i, url)), q)
  {
    var rep := Reference(i, AttachmentFilename(i, url));
    ReferenceColons(i, AttachmentFilename(i, url));
    NoOverlapWithScheme(rep, q);
  }
}
