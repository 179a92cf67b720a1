/**
 * The ChatGPT-conversation route: sanitising the scraped page, resolving the
 * citation URLs of the generated letter into PDF attachments, the package
 * manifest, and the validation of the route's request.
 */
module ChatGptScraper {
  import opened Wrappers
  import opened JsStrings
  import opened Urls

  // ---------------------------------------------------------------------------
  // Attachment resolution and letter rewriting
  // ---------------------------------------------------------------------------

  /** One captured page: `{originalUrl, filename, path}`. */
  datatype Attachment = Attachment(originalUrl: string, filename: string, path: string)

  /** The letter and the attachment list as the capture loop leaves them. */
  datatype Capture = Capture(letter: string, attachments: seq<Attachment>)

  predicate NonEmptyUrls(urls: seq<string>) {
    forall k :: 0 <= k < |urls| ==> urls[k] != []
  }

  /** The state after the capture loop has handled `urls[..n]`: a URL whose page
      is captured (`captureOk`) gets an attachment record and every occurrence of
      it in the letter becomes its reference; a failed URL changes nothing. */
  function CaptureLoop(letter: string, urls: seq<string>, captureOk: string -> bool,
                       outputDir: string, n: nat): Capture
    requires n <= |urls| && NonEmptyUrls(urls)
  {
    if n == 0 then Capture(letter, [])
    else
      var prev := CaptureLoop(letter, urls, captureOk, outputDir, n - 1);
      var i := n - 1;
      var url := urls[i];
      if captureOk(url) then
        var filename := AttachmentFilename(i, url);
        Capture(ReplaceAll(prev.letter, url, Reference(i, filename)),
                prev.attachments + [Attachment(url, filename, JoinPath(outputDir, filename))])
      else prev
  }

  /** The unique URLs of a letter, in order of first appearance. */
  function UniqueUrls(letter: string): (urls: seq<string>)
    ensures NoDuplicates(urls)
    ensures forall k :: 0 <= k < |urls| ==> IsUrlMatch(urls[k])
    ensures forall k :: 0 <= k < |ExtractUrls(letter)| ==> ExtractUrls(letter)[k] in urls
    ensures urls != [] <==> HasUrl(letter)
  {
    Dedup(ExtractUrls(letter))
  }

  /** `extractAndDownloadUrls`: the browser is launched only when the letter has
      a URL; the letter and the attachments are those of the capture loop run
      over every unique URL. */
  method ExtractAndDownloadUrls(letter: string, outputDir: string, captureOk: string -> bool)
    returns (updated: string, attachments: seq<Attachment>, browserLaunched: bool)
    ensures browserLaunched <==> UniqueUrls(letter) != []
    ensures browserLaunched <==> HasUrl(letter)
    ensures Capture(updated, attachments)
         == CaptureLoop(letter, UniqueUrls(letter), captureOk, outputDir, |UniqueUrls(letter)|)
  {
    var urls := UniqueUrls(letter);
    UrlMatchesNonEmpty(urls);
    if |urls| == 0 {
      return letter, [], false;
    }
    browserLaunched := true;
    updated, attachments := CaptureEach(letter, urls, outputDir, captureOk);
  }

  /** The `for` loop over the unique URLs: each page that is captured adds its
      attachment and has its URL replaced by the reference in the letter. */
  method CaptureEach(letter: string, urls: seq<string>, outputDir: string, captureOk: string -> bool)
    returns (updated: string, attachments: seq<Attachment>)
    requires NonEmptyUrls(urls)
    ensures Capture(updated, attachments) == CaptureLoop(letter, urls, captureOk, outputDir, |urls|)
  {
    updated, attachments := letter, [];
    for i := 0 to |urls|
      invariant Capture(updated, attachments) == CaptureLoop(letter, urls, captureOk, outputDir, i)
    {
      var url := urls[i];
      var filename := AttachmentFilename(i, url);
      var pdfPath := JoinPath(outputDir, filename);
      if captureOk(url) {
        attachments := attachments + [Attachment(url, filename, pdfPath)];
        updated := ReplaceAll(updated, url, Reference(i, filename));
      }
    }
  }

  /** A URL match is never empty. */
  lemma UrlMatchesNonEmpty(urls: seq<string>)
    requires forall k :: 0 <= k < |urls| ==> IsUrlMatch(urls[k])
    ensures NonEmptyUrls(urls)
  {
  }

  /** The URLs of `urls` whose capture succeeds, in order. */
  function Captured(urls: seq<string>, captureOk: string -> bool): (r: seq<string>)
    ensures |r| <= |urls|
    ensures forall k :: 0 <= k < |r| ==> r[k] in urls && captureOk(r[k])
  {
    if urls == [] then []
    else
      var rest := Captured(urls[..|urls| - 1], captureOk);
      var last := urls[|urls| - 1];
      if captureOk(last) then rest + [last] else rest
  }

  function Originals(atts: seq<Attachment>): seq<string> {
    seq(|atts|, k requires 0 <= k < |atts| => atts[k].originalUrl)
  }

  /** One attachment per captured URL, in unique-URL order: a failed URL does not
      stop the later ones, and there are never more attachments than URLs. */
  lemma {:induction false} AttachmentsFollowCapturedUrls(letter: string, urls: seq<string>,
      captureOk: string -> bool, outputDir: string, n: nat)
    requires n <= |urls| && NonEmptyUrls(urls)
    ensures var atts := CaptureLoop(letter, urls, captureOk, outputDir, n).attachments;
      Originals(atts) == Captured(urls[..n], captureOk) && |atts| <= n
  {
    if n > 0 {
      AttachmentsFollowCapturedUrls(letter, urls, captureOk, outputDir, n - 1);
      assert urls[..n][..n - 1] == urls[..n - 1];
    }
  }

  /** Every attachment carries a URL of `urls[..n]`, the file name built from
      that URL's position in `urls`, and the path of that name in `outputDir`. */
  predicate NamedByPosition(urls: seq<string>, outputDir: string, atts: seq<Attachment>, n: nat)
    requires n <= |urls|
  {
    forall k :: 0 <= k < |atts| ==>
      && atts[k].originalUrl in urls[..n]
      && atts[k].filename
         == AttachmentFilename(FirstIndex(urls, atts[k].originalUrl), atts[k].originalUrl)
      && atts[k].path == JoinPath(outputDir, atts[k].filename)
  }

  /** Each attachment is named after the position of its URL among all unique
      URLs, failed ones included, so the numbering skips failed URLs. */
  lemma {:induction false} AttachmentNamesUseUrlPosition(letter: string, urls: seq<string>,
      captureOk: string -> bool, outputDir: string, n: nat)
    requires n <= |urls| && NonEmptyUrls(urls) && NoDuplicates(urls)
    ensures NamedByPosition(urls, outputDir, CaptureLoop(letter, urls, captureOk, outputDir, n).attachments, n)
  {
    if n > 0 {
      AttachmentNamesUseUrlPosition(letter, urls, captureOk, outputDir, n - 1);
      var prev := CaptureLoop(letter, urls, captureOk, outputDir, n - 1).attachments;
      var url := urls[n - 1];
      assert FirstIndex(urls, url) == n - 1;
      assert urls[..n] == urls[..n - 1] + [url];
      forall k | 0 <= k < |prev| ensures prev[k].originalUrl in urls[..n] {
        assert prev[k].originalUrl in urls[..n - 1];
      }
    }
  }

  /** When no page is captured the letter comes back unchanged and without
      attachments. */
  lemma {:induction false} NoCaptureKeepsLetter(letter: string, urls: seq<string>,
      captureOk: string -> bool, outputDir: string, n: nat)
    requires n <= |urls| && NonEmptyUrls(urls)
    requires forall k :: 0 <= k < n ==> !captureOk(urls[k])
    ensures CaptureLoop(letter, urls, captureOk, outputDir, n) == Capture(letter, [])
  {
    if n > 0 {
      NoCaptureKeepsLetter(letter, urls, captureOk, outputDir, n - 1);
    }
  }

  /** A letter without URLs is returned as it is, with no attachment, and no
      browser is launched. */
  lemma NoUrlsNoWork(letter: string, outputDir: string, captureOk: string -> bool)
    requires ExtractUrls(letter) == []
    ensures UniqueUrls(letter) == []
    ensures CaptureLoop(letter, UniqueUrls(letter), captureOk, outputDir, 0) == Capture(letter, [])
  {
  }

  /** Characters that `new RegExp(url)` would read as operators rather than
      literally (`.` aside, which only widens the match). */
  predicate NoRegexOperators(url: string) {
    forall k :: 0 <= k < |url| ==> url[k] !in "\\^$|?*+()[]{}"
  }

  /** Once a URL has been captured, its text no longer occurs in the letter:
      neither its own replacement nor any later one brings it back. */
  lemma {:induction false} CapturedUrlsAreReplaced(letter: string, urls: seq<string>,
      captureOk: string -> bool, outputDir: string, n: nat)
    requires n <= |urls| && forall k :: 0 <= k < |urls| ==> IsUrlMatch(urls[k])
    ensures NonEmptyUrls(urls)
    ensures forall k :: 0 <= k < n && captureOk(urls[k]) && NoRegexOperators(urls[k]) ==>
      !Contains(CaptureLoop(letter, urls, captureOk, outputDir, n).letter, urls[k])
  {
    if n > 0 {
      CapturedUrlsAreReplaced(letter, urls, captureOk, outputDir, n - 1);
      var prev := CaptureLoop(letter, urls, captureOk, outputDir, n - 1).letter;
      var i := n - 1;
      var url := urls[i];
      if captureOk(url) {
        var rep := Reference(i, AttachmentFilename(i, url));
        forall k | 0 <= k < n && captureOk(urls[k]) && NoRegexOperators(urls[k])
          ensures !Contains(ReplaceAll(prev, url, rep), urls[k])
        {
          var q := urls[k];
          assert '[' !in q by {
            assert forall j :: 0 <= j < |q| ==> q[j] != '[';
          }
          ReferenceAvoidsUrls(i, url, q);
          ReplaceAllAvoids(prev, url, rep, q);
        }
      }
    }
  }

  // ---------------------------------------------------------------------------
  // Sanitising the scraped conversation
  // ---------------------------------------------------------------------------

  /** Index of the first `>` of `s`, or `|s|` when there is none. */
  function CloseIndex(s: string): (k: nat)
    ensures k <= |s|
    ensures k < |s| ==> s[k] == '>'
    ensures forall j :: 0 <= j < k ==> s[j] != '>'
  {
    if s == [] || s[0] == '>' then 0 else 1 + CloseIndex(s[1..])
  }

  /** `replace(/<[^>]*>/g, ' ')`: every `<` that has a `>` after it starts a tag
      running to that first `>`, and the tag becomes one space. */
  function StripTags(s: string): (r: string)
    ensures forall k :: 0 <= k < |r| ==> r[k] == ' ' || r[k] in s
    ensures '<' !in s ==> r == s
    decreases |s|
  {
    if s == [] then []
    else if s[0] == '<' && CloseIndex(s[1..]) < |s| - 1 then
      " " + StripTags(s[CloseIndex(s[1..]) + 2..])
    else
      [s[0]] + StripTags(s[1..])
  }

  /** A character other than `<` passes through tag stripping unchanged. */
  lemma StripTagsCons(c: char, t: string)
    requires c != '<'
    ensures StripTags([c] + t) == [c] + StripTags(t)
  {
    assert ([c] + t)[1..] == t;
  }

  /** A tag, from `<` to the first `>` after it, becomes a single space. */
  lemma StripTagsReplacesTag(inner: string, b: string)
    requires '>' !in inner
    ensures StripTags("<" + inner + ">" + b) == " " + StripTags(b)
  {
    var s := "<" + inner + ">" + b;
    assert s[1..] == inner + (">" + b);
    CloseIndexSkipsPlain(inner, ">" + b);
    assert s[|inner| + 2..] == b;
  }

  /** The first `>` lies past any text without one. */
  lemma {:induction false} CloseIndexSkipsPlain(a: string, b: string)
    requires '>' !in a
    ensures CloseIndex(a + b) == |a| + CloseIndex(b)
    decreases |a|
  {
    if a == [] {
      assert a + b == b;
    } else {
      assert a[0] in a;
      assert (a + b)[1..] == a[1..] + b;
      CloseIndexSkipsPlain(a[1..], b);
    }
  }

  /** Without any `>`, no tag closes and the text is kept as it is. */
  lemma {:induction false} StripTagsWithoutClose(s: string)
    requires '>' !in s
    ensures StripTags(s) == s
    decreases |s|
  {
    if s != [] {
      assert '>' !in s[1..] by {
        assert forall k :: 0 <= k < |s[1..]| ==> s[1..][k] == s[k + 1];
      }
      CloseIndexSkipsPlain(s[1..], []);
      assert s[1..] + [] == s[1..];
      StripTagsWithoutClose(s[1..]);
      assert s == [s[0]] + s[1..];
    }
  }

  /** No `<` is followed, anywhere later, by a `>`: no tag is left. */
  predicate NoTag(s: string) {
    forall i, j :: 0 <= i < j < |s| && s[i] == '<' ==> s[j] != '>'
  }

  lemma {:induction false} NoTagCons(c: char, t: string)
    requires NoTag(t) && (c == '<' ==> '>' !in t)
    ensures NoTag([c] + t)
  {
    forall i, j | 0 <= i < j < |[c] + t| && ([c] + t)[i] == '<' ensures ([c] + t)[j] != '>' {
      if i > 0 {
        assert t[i - 1] == '<';
      } else {
        assert ([c] + t)[j] == t[j - 1];
      }
    }
  }

  lemma {:induction false} StripTagsLeavesNoTag(s: string)
    ensures NoTag(StripTags(s))
    decreases |s|
  {
    if s != [] {
      if s[0] == '<' && CloseIndex(s[1..]) < |s| - 1 {
        StripTagsLeavesNoTag(s[CloseIndex(s[1..]) + 2..]);
        NoTagCons(' ', StripTags(s[CloseIndex(s[1..]) + 2..]));
      } else {
        StripTagsLeavesNoTag(s[1..]);
        if s[0] == '<' {
          assert '>' !in s[1..] by {
            assert forall j :: 0 <= j < |s[1..]| ==> s[1..][j] != '>';
          }
          assert '>' !in StripTags(s[1..]);
        }
        NoTagCons(s[0], StripTags(s[1..]));
      }
    }
  }

  /** `replace(/\s+/g, ' ')`: each run of whitespace becomes one space. */
  function CollapseSpaces(s: string): (r: string)
    ensures r == [] <==> s == []
    ensures s != [] && !IsSpace(s[0]) ==> r[0] == s[0]
    ensures s != [] && IsSpace(s[0]) ==> r[0] == ' '
    decreases |s|
  {
    if s == [] then []
    else if IsSpace(s[0]) then " " + CollapseSpaces(TrimStart(s))
    else [s[0]] + CollapseSpaces(s[1..])
  }

  /** A character collapsing may write for `s`: a single space, or one of the
      non-whitespace characters of `s`. */
  predicate KeptChar(c: char, s: string) {
    c == ' ' || (c in s && !IsSpace(c))
  }

  /** Collapsing keeps every non-whitespace character of the input and writes
      nothing but those and single spaces. */
  lemma CollapseKeepsCharacters(s: string)
    ensures forall k :: 0 <= k < |CollapseSpaces(s)| ==> KeptChar(CollapseSpaces(s)[k], s)
  {
    forall k | 0 <= k < |CollapseSpaces(s)| ensures KeptChar(CollapseSpaces(s)[k], s) {
      CollapseCharAt(s, k);
    }
  }

  lemma {:induction false} CollapseCharAt(s: string, k: nat)
    requires k < |CollapseSpaces(s)|
    ensures KeptChar(CollapseSpaces(s)[k], s)
    decreases |s|
  {
    var t := if IsSpace(s[0]) then TrimStart(s) else s[1..];
    if k == 0 {
      assert s[0] in s;
    } else {
      assert t == s[|s| - |t|..];
      assert CollapseSpaces(s)[k] == CollapseSpaces(t)[k - 1];
      CollapseCharAt(t, k - 1);
      InSuffix(CollapseSpaces(t)[k - 1], s, |s| - |t|);
    }
  }

  lemma InSuffix(c: char, s: string, j: nat)
    requires j <= |s|
    ensures c in s[j..] ==> c in s
  {
    if c in s[j..] {
      var i :| 0 <= i < |s[j..]| && s[j..][i] == c;
      assert s[j + i] == c;
    }
  }

  /** The only whitespace is single spaces, never two in a row. */
  predicate Collapsed(s: string) {
    && (forall k :: 0 <= k < |s| ==> IsSpace(s[k]) ==> s[k] == ' ')
    && (forall k :: 0 <= k < |s| - 1 ==> !(IsSpace(s[k]) && IsSpace(s[k + 1])))
  }

  /** Collapsed, and neither starting nor ending with whitespace. */
  predicate Clean(s: string) {
    Collapsed(s) && (s != [] ==> !IsSpace(s[0]) && !IsSpace(s[|s| - 1]))
  }

  lemma {:induction false} InfixKeepsShape(s: string, lo: nat, hi: nat)
    requires lo <= hi <= |s| && Collapsed(s) && NoTag(s)
    ensures Collapsed(s[lo..hi]) && NoTag(s[lo..hi])
  {
    var r := s[lo..hi];
    forall k | 0 <= k < |r| - 1 ensures !(IsSpace(r[k]) && IsSpace(r[k + 1])) {
      assert r[k] == s[lo + k] && r[k + 1] == s[lo + k + 1];
    }
    forall i, j | 0 <= i < j < |r| && r[i] == '<' ensures r[j] != '>' {
      assert r[i] == s[lo + i] && r[j] == s[lo + j];
    }
  }

  /** Collapsing leaves only single spaces as whitespace, never two in a row. */
  /** Collapsing leaves text that is already collapsed unchanged. */
  lemma {:induction false} CollapseFixesCollapsed(s: string)
    requires Collapsed(s)
    ensures CollapseSpaces(s) == s
    decreases |s|
  {
    if s != [] {
      var t := s[1..];
      assert Collapsed(t) by {
        forall k | 0 <= k < |t| ensures IsSpace(t[k]) ==> t[k] == ' ' {
          assert t[k] == s[k + 1];
        }
        forall k | 0 <= k < |t| - 1 ensures !(IsSpace(t[k]) && IsSpace(t[k + 1])) {
          assert t[k] == s[k + 1] && t[k + 1] == s[k + 2];
        }
      }
      CollapseFixesCollapsed(t);
      if IsSpace(s[0]) {
        assert s[0] == ' ';
        assert TrimStart(s) == t by {
          assert TrimStart(s) == TrimStart(t);
          if t != [] {
            assert !IsSpace(t[0]) by { assert t[0] == s[1]; }
          }
        }
      }
      assert s == [s[0]] + t;
    }
  }

  /** Collapsing twice is collapsing once. */
  lemma CollapseIdempotent(s: string)
    ensures CollapseSpaces(CollapseSpaces(s)) == CollapseSpaces(s)
  {
    CollapsedText(s);
    CollapseFixesCollapsed(CollapseSpaces(s));
  }

  lemma {:induction false} CollapsedText(s: string)
    ensures Collapsed(CollapseSpaces(s))
    decreases |s|
  {
    CollapseKeepsCharacters(s);
    if s != [] {
      var r := CollapseSpaces(s);
      var t := if IsSpace(s[0]) then TrimStart(s) else s[1..];
      CollapsedText(t);
      var rest := CollapseSpaces(t);
      assert r == [r[0]] + rest;
      assert IsSpace(s[0]) && rest != [] ==> !IsSpace(rest[0]);
      forall k | 0 <= k < |r| - 1 ensures !(IsSpace(r[k]) && IsSpace(r[k + 1])) {
        assert r[k + 1] == rest[k];
        if k > 0 {
          assert r[k] == rest[k - 1];
        }
      }
    }
  }

  lemma {:induction false} TrimKeepsShape(s: string)
    requires Collapsed(s) && NoTag(s)
    ensures Clean(Trim(s)) && NoTag(Trim(s))
  {
    CleanInfix(s, Leading(s), Trim(s));
  }

  /** An infix of collapsed, tag-free text that neither starts nor ends with
      whitespace is clean and tag-free. */
  lemma CleanInfix(s: string, lo: nat, r: string)
    requires Collapsed(s) && NoTag(s)
    requires lo + |r| <= |s| && r == s[lo..lo + |r|]
    requires r == [] || (!IsSpace(r[0]) && !IsSpace(r[|r| - 1]))
    ensures Clean(r) && NoTag(r)
  {
    InfixKeepsShape(s, lo, lo + |r|);
  }

  /** The last-resort text: tags become spaces, whitespace runs collapse, and the
      ends are trimmed. */
  function StripHtml(raw: string): string {
    Trim(CollapseSpaces(StripTags(raw)))
  }

  /** The last-resort text has no tag, no leading or trailing whitespace, no two
      adjacent whitespace characters, and no whitespace other than spaces. */
  lemma {:induction false} StrippedTextIsClean(raw: string)
    ensures Clean(StripHtml(raw)) && NoTag(StripHtml(raw))
  {
    var stripped := StripTags(raw);
    var collapsed := CollapseSpaces(stripped);
    StripTagsLeavesNoTag(raw);
    CollapseKeepsNoTag(stripped);
    CollapsedText(stripped);
    TrimKeepsShape(collapsed);
  }

  lemma {:induction false} CollapseKeepsNoTag(s: string)
    requires NoTag(s)
    ensures NoTag(CollapseSpaces(s))
    decreases |s|
  {
    if s != [] {
      if IsSpace(s[0]) {
        var t := TrimStart(s);
        assert t == s[|s| - |t|..];
        CollapseKeepsNoTag(t);
        NoTagCons(' ', CollapseSpaces(t));
      } else {
        CollapseKeepsNoTag(s[1..]);
        CollapseKeepsCharacters(s[1..]);
        if s[0] == '<' {
          assert '>' !in s[1..] by {
            forall j | 0 <= j < |s[1..]| ensures s[1..][j] != '>' {
              assert s[1..][j] == s[j + 1];
            }
          }
        }
        NoTagCons(s[0], CollapseSpaces(s[1..]));
      }
    }
  }

  /** A `div[data-message]` element: its `data-message-author-role` attribute
      and its text content. */
  datatype MessageElement = MessageElement(role: Option<string>, text: string)

  /** The transcript line of an element, if the element is kept. */
  function MessageLine(el: MessageElement): (line: Option<string>)
    ensures line.Some? <==> Trim(el.text) != [] && (el.role == Some("user") || el.role == Some("assistant"))
    ensures line.Some? && el.role == Some("user") ==> line.value == "User: " + Trim(el.text)
    ensures line.Some? && el.role == Some("assistant") ==> line.value == "ChatGPT: " + Trim(el.text)
  {
    var text := Trim(el.text);
    if text == [] then None
    else if el.role == Some("user") then Some("User: " + text)
    else if el.role == Some("assistant") then Some("ChatGPT: " + text)
    else None
  }

  function MessageLines(els: seq<MessageElement>): (lines: seq<string>)
    ensures |lines| <= |els|
    ensures forall k :: 0 <= k < |lines| ==> lines[k] != []
  {
    if els == [] then []
    else
      var rest := MessageLines(els[1..]);
      match MessageLine(els[0])
      case Some(line) =>
        assert line[0] == (if els[0].role == Some("user") then 'U' else 'C');
        ConsNonEmpty(line, rest);
        [line] + rest
      case None => rest
  }

  lemma ConsNonEmpty(line: string, rest: seq<string>)
    requires line != [] && forall k :: 0 <= k < |rest| ==> rest[k] != []
    ensures forall k :: 0 <= k < |[line] + rest| ==> ([line] + rest)[k] != []
  {
    var lines := [line] + rest;
    assert forall k :: 1 <= k < |lines| ==> lines[k] == rest[k - 1];
  }

  /** The line each element would yield, element by element. */
  function LineOptions(els: seq<MessageElement>): (opts: seq<Option<string>>)
    ensures |opts| == |els|
  {
    seq(|els|, k requires 0 <= k < |els| => MessageLine(els[k]))
  }

  /** The indices from `i` on whose entry is present, in increasing order. */
  function PresentIndices(opts: seq<Option<string>>, i: nat): (idx: seq<nat>)
    requires i <= |opts|
    ensures forall k :: 0 <= k < |idx| ==> i <= idx[k] < |opts| && opts[idx[k]].Some?
    ensures forall k :: 0 <= k < |idx| - 1 ==> idx[k] < idx[k + 1]
    ensures forall j :: i <= j < |opts| && opts[j].Some? ==> j in idx
    decreases |opts| - i
  {
    if i == |opts| then []
    else
      var rest := PresentIndices(opts, i + 1);
      if opts[i].Some? then
        var idx := [i] + rest;
        assert forall k :: 0 < k < |idx| ==> idx[k] == rest[k - 1];
        idx
      else rest
  }

  /** The values at the given indices, in the order of the indices. */
  function ValuesAt(opts: seq<Option<string>>, idx: seq<nat>): seq<string>
    requires forall k :: 0 <= k < |idx| ==> idx[k] < |opts| && opts[idx[k]].Some?
  {
    seq(|idx|, k requires 0 <= k < |idx| => opts[idx[k]].value)
  }

  /** The transcript lines are exactly the lines of the kept elements, in
      element order: the element lines at the increasing indices of the
      elements that yield one. */
  lemma MessageLinesAreKeptLines(els: seq<MessageElement>)
    ensures MessageLines(els) == ValuesAt(LineOptions(els), PresentIndices(LineOptions(els), 0))
  {
    KeptLinesFrom(els, LineOptions(els), 0);
    assert els[0..] == els;
  }

  lemma {:induction false} KeptLinesFrom(els: seq<MessageElement>, opts: seq<Option<string>>, i: nat)
    requires i <= |els| && opts == LineOptions(els)
    ensures MessageLines(els[i..]) == ValuesAt(opts, PresentIndices(opts, i))
    decreases |els| - i
  {
    if i < |els| {
      KeptLinesFrom(els, opts, i + 1);
      var tail := els[i..];
      assert tail[0] == els[i] && tail[1..] == els[i + 1..];
      assert opts[i] == MessageLine(els[i]);
      var rest := PresentIndices(opts, i + 1);
      if opts[i].Some? {
        ValuesAtCons(opts, i, rest);
      }
    }
  }

  lemma ValuesAtCons(opts: seq<Option<string>>, i: nat, rest: seq<nat>)
    requires i < |opts| && opts[i].Some?
    requires forall k :: 0 <= k < |rest| ==> rest[k] < |opts| && opts[rest[k]].Some?
    ensures ValuesAt(opts, [i] + rest) == [opts[i].value] + ValuesAt(opts, rest)
  {
    var idx := [i] + rest;
    assert forall k :: 0 < k < |idx| ==> idx[k] == rest[k - 1];
  }

  /** The role-prefixed transcript of the cheerio fallback. */
  function Transcript(els: seq<MessageElement>): string {
    Join(MessageLines(els), "\n\n")
  }

  /** The transcript is empty exactly when no element is kept; it is then
      returned as the sanitised text, without falling back to tag stripping. */
  lemma {:induction false} TranscriptEmptyIffNoMessage(els: seq<MessageElement>)
    ensures Transcript(els) == [] <==> forall k :: 0 <= k < |els| ==> MessageLine(els[k]).None?
  {
    NoLinesIffNoMessage(els);
    var lines := MessageLines(els);
    if lines != [] {
      JoinStartsWithFirst(lines, "\n\n");
      assert |lines[0]| > 0;
    }
  }

  /** No transcript line is produced exactly when no element is kept. */
  lemma {:induction false} NoLinesIffNoMessage(els: seq<MessageElement>)
    ensures MessageLines(els) == [] <==> forall k :: 0 <= k < |els| ==> MessageLine(els[k]).None?
  {
    MessageLinesAreKeptLines(els);
    var opts := LineOptions(els);
    var idx := PresentIndices(opts, 0);
    assert |MessageLines(els)| == |idx|;
    if idx != [] {
      assert opts[idx[0]] == MessageLine(els[idx[0]]);
    } else {
      forall k | 0 <= k < |els| ensures MessageLine(els[k]).None? {
        assert opts[k] == MessageLine(els[k]);
      }
    }
  }

  /** `sendToGPTForSanitization`: the model's reply trimmed; if the call fails,
      the transcript of the message elements; if that fails too, the stripped
      page text. */
  function Sanitize(rawHtml: string, reply: Option<string>,
                    elements: Option<seq<MessageElement>>): (text: string)
    ensures reply.Some? ==> text == Trim(reply.value)
    ensures reply.Some? ==> text == [] || (!IsSpace(text[0]) && !IsSpace(text[|text| - 1]))
    ensures reply.None? && elements.Some? ==> text == Transcript(elements.value)
    ensures reply.None? && elements.None? ==> text == StripHtml(rawHtml)
    ensures reply.None? && elements.Some? ==> (text == [] <==>
      forall k :: 0 <= k < |elements.value| ==> MessageLine(elements.value[k]).None?)
    ensures reply.None? && elements.None? ==> Clean(text) && NoTag(text)
  {
    match reply
    case Some(content) => Trim(content)
    case None =>
      match elements
      case Some(els) => TranscriptEmptyIffNoMessage(els); Transcript(els)
      case None => StrippedTextIsClean(rawHtml); StripHtml(rawHtml)
  }

  // ---------------------------------------------------------------------------
  // Package manifest
  // ---------------------------------------------------------------------------

  function AttachmentLine(k: nat, a: Attachment): string {
    NatToString(k + 1) + ". " + a.filename + " (original URL: " + a.originalUrl + ")"
  }

  function AttachmentLines(atts: seq<Attachment>): seq<string> {
    seq(|atts|, k requires 0 <= k < |atts| => AttachmentLine(k, atts[k]))
  }

  const ReadmeHead := "ERC PROTEST PACKAGE\n\nMain Document:\n- protest_letter.pdf (The main protest letter)\n\nAttachments:\n"

  /** README.txt of the package; `generatedOn` is the ISO timestamp. */
  function ReadmeText(atts: seq<Attachment>, generatedOn: string): string {
    ReadmeHead + Join(AttachmentLines(atts), "\n") + "\n\nGenerated on: " + generatedOn + "\n"
  }

  /** Entry names of the ZIP: the letter PDF, each attachment PDF (added by its
      path, so named by its file name) and README.txt. */
  function ZipEntries(atts: seq<Attachment>): (names: seq<string>)
    ensures |names| == |atts| + 2
    ensures names[0] == "protest_letter.pdf" && names[|names| - 1] == "README.txt"
    ensures forall k :: 0 <= k < |atts| ==> names[k + 1] == atts[k].filename
  {
    ["protest_letter.pdf"] + seq(|atts|, k requires 0 <= k < |atts| => atts[k].filename) + ["README.txt"]
  }

  predicate OneLine(s: string) { '\n' !in s }

  /** With at least one attachment, the attachment section of the README splits
      back into exactly one line per attachment, numbered from 1 in list order,
      and every file name and URL appears in the README. */
  lemma ReadmeListsAttachments(atts: seq<Attachment>, generatedOn: string)
    requires |atts| >= 1
    requires forall k :: 0 <= k < |atts| ==> OneLine(atts[k].filename) && OneLine(atts[k].originalUrl)
    ensures var section := Join(AttachmentLines(atts), "\n");
      && ReadmeText(atts, generatedOn) == ReadmeHead + section + "\n\nGenerated on: " + generatedOn + "\n"
      && Split(section, '\n') == AttachmentLines(atts)
      && forall k :: 0 <= k < |atts| ==>
           && StartsWith(Split(section, '\n')[k], NatToString(k + 1) + ". " + atts[k].filename)
           && Contains(ReadmeText(atts, generatedOn), atts[k].originalUrl)
  {
    var lines := AttachmentLines(atts);
    var section := Join(lines, "\n");
    forall k | 0 <= k < |lines| ensures '\n' !in lines[k] {
      var d := NatToString(k + 1);
      assert forall c :: c in d ==> IsDigit(c);
      assert lines[k] == d + ". " + atts[k].filename + " (original URL: " + atts[k].originalUrl + ")";
    }
    SplitJoin(lines, '\n');
    var tail := "\n\nGenerated on: " + generatedOn + "\n";
    assert ReadmeText(atts, generatedOn) == ReadmeHead + section + tail;
    ContainsInfix(ReadmeHead, section, tail);
    forall k | 0 <= k < |atts| ensures Contains(ReadmeText(atts, generatedOn), atts[k].originalUrl) {
      JoinContainsPart(lines, "\n", k);
      var pre := NatToString(k + 1) + ". " + atts[k].filename + " (original URL: ";
      assert lines[k] == pre + atts[k].originalUrl + ")";
      ContainsInfix(pre, atts[k].originalUrl, ")");
      ContainsTransitive(section, lines[k], atts[k].originalUrl);
      ContainsTransitive(ReadmeText(atts, generatedOn), section, atts[k].originalUrl);
    }
  }

  // ---------------------------------------------------------------------------
  // Request validation of the main route
  // ---------------------------------------------------------------------------

  /** The body fields of a `/process-chatgpt` request. */
  datatype ProcessRequest = ProcessRequest(
    chatGptLink: Option<string>, businessName: Option<string>, ein: Option<string>,
    location: Option<string>, timePeriod: Option<string>, businessType: Option<string>,
    trackingId: Option<string>)

  /** The business description handed to letter generation. */
  datatype BusinessInfo = BusinessInfo(
    businessName: string, ein: string, location: Option<string>, timePeriod: string,
    businessType: string)

  datatype Rejection = Rejection(status: nat, message: string)

  /** The route's early returns, in order, and the business info it builds when
      the request passes them. */
  function ValidateProcessRequest(req: ProcessRequest): (r: Result<BusinessInfo, Rejection>)
    ensures r.Success? <==> Truthy(req.chatGptLink) && Truthy(req.businessName)
                            && Truthy(req.ein) && Truthy(req.timePeriod)
    ensures !Truthy(req.chatGptLink) ==>
      r == Failure(Rejection(400, "ChatGPT conversation link is required"))
    ensures Truthy(req.chatGptLink) && r.Failure? ==>
      r == Failure(Rejection(400, "Business name, EIN, and time period are required"))
    ensures r.Success? ==>
      && r.value.businessName == req.businessName.value
      && r.value.ein == req.ein.value
      && r.value.timePeriod == req.timePeriod.value
      && r.value.location == req.location
      && r.value.businessType == (if Truthy(req.businessType) then req.businessType.value else "business")
  {
    if !Truthy(req.chatGptLink) then
      Failure(Rejection(400, "ChatGPT conversation link is required"))
    else if !Truthy(req.businessName) || !Truthy(req.ein) || !Truthy(req.timePeriod) then
      Failure(Rejection(400, "Business name, EIN, and time period are required"))
    else
      Success(BusinessInfo(req.businessName.value, req.ein.value, req.location,
        req.timePeriod.value, if Truthy(req.businessType) then req.businessType.value else "business"))
  }
}
