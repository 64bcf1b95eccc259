/**
  The decision logic of the broken-website collector: classifying a probe as
  working or broken, extracting a company name, an email and a phone number
  from a site (following at most two "contact"/"about" pages), building the
  CSV row, and the run loop that counts what it checked and stops at a cap.

  The network, the HTML parser and the regular-expression engine are oracles:
  a probe's `FetchOutcome`, a parsed `Page` (or `None` when fetching it
  raised), and a `PageScan` for each secondary page.
*/
module BrokenWebsiteCollector {
  import opened Options
  import opened PyStr
  import opened Web

  // ===========================================================================
  // check_website_status
  // ===========================================================================

  datatype Verdict = Working | Broken

  /** `status["code"]`: the HTTP status code, or the text "Connection Error". */
  datatype StatusCode = Code(n: int) | ConnectionError

  datatype Status = Status(verdict: Verdict, code: StatusCode, reason: string)

  /** A status code of the 4xx or 5xx class. */
  predicate IsErrorClass(code: int) {
    code / 100 == 4 || code / 100 == 5
  }

  /** A response is broken exactly when its code is of the 4xx or 5xx class;
      a request that raised is always broken, with its message as the reason. */
  function CheckWebsiteStatus(outcome: FetchOutcome): (r: Status)
    ensures outcome.Response? ==>
      && r.code == Code(outcome.statusCode) && r.reason == outcome.reason
      && (r.verdict == Broken <==> IsErrorClass(outcome.statusCode))
    ensures outcome.RequestFailed? ==>
      r.verdict == Broken && r.code == ConnectionError && r.reason == outcome.message
  {
    match outcome
    case Response(code, reason) =>
      if 400 <= code < 600 then Status(Broken, Code(code), reason)
      else Status(Working, Code(code), reason)
    case RequestFailed(message) =>
      Status(Broken, ConnectionError, message)
  }

  // ===========================================================================
  // extract_contact_info: the company name
  // ===========================================================================

  /** The host part of a URL: schemes removed, text before the first '/'. */
  function Host(url: string): (h: string)
    ensures var u := RemoveAll(RemoveAll(url, "http://"), "https://");
      && StartsWith(u, h) && '/' !in h
      && (|h| < |u| ==> u[|h|] == '/')
  {
    var u := RemoveAll(RemoveAll(url, "http://"), "https://");
    SplitFirst(u, '/');
    Split(u, '/')[0]
  }

  /** The name taken from the URL before the page is looked at: the
      second-to-last dot-separated label of the host, capitalised, or none
      when the host has no dot. */
  function FallbackName(url: string): (r: Option<string>)
    ensures r.Some? <==> '.' in Host(url)
  {
    var labels := Split(Host(url), '.');
    SplitManyIffSeparator(Host(url), '.');
    if |labels| >= 2 then Some(Capitalize(labels[|labels| - 2])) else None
  }

  /** The fallback name is the capitalised label lying between the last two
      dots of the host (or between its start and its only dot). */
  lemma FallbackNameIsSecondLevelLabel(url: string)
    requires FallbackName(url).Some?
    ensures var h := Host(url);
      exists i, j :: 0 <= i <= j < |h| && h[j] == '.' && '.' !in h[j + 1..]
        && (i == 0 || h[i - 1] == '.') && '.' !in h[i..j]
        && FallbackName(url).value == Capitalize(h[i..j])
  {
    var h := Host(url);
    SplitManyIffSeparator(h, '.');
    var i, j := SecondToLastPart(h, '.');
  }

  // ===========================================================================
  // extract_contact_info: the title clean-up
  // ===========================================================================

  /** Where Python's `$` can match: the very end of the string, or just
      before a newline that ends it. */
  function LineEnd(s: string): (e: nat)
    ensures e <= |s|
  {
    if s != [] && s[|s| - 1] == '\n' then |s| - 1 else |s|
  }

  /** The three title endings, in the order the pattern lists them. */
  const TitleSuffixes: seq<string> := [" - Home", " - Official Website", " - Official Site"]

  /** A text cannot end with two of the title endings at once, so at most one is removed. */
  lemma TitleSuffixesExclusive(s: string)
    ensures !(EndsWith(s, " - Home") && EndsWith(s, " - Official Website"))
    ensures !(EndsWith(s, " - Home") && EndsWith(s, " - Official Site"))
    ensures !(EndsWith(s, " - Official Website") && EndsWith(s, " - Official Site"))
  {
    assert EndsWith(s, " - Home") ==> s[|s| - 2] == 'm';
    assert EndsWith(s, " - Official Website") ==> s[|s| - 2] == 't' && s[|s| - 5] == 'b';
    assert EndsWith(s, " - Official Site") ==> s[|s| - 2] == 't' && s[|s| - 5] == ' ';
  }

  /** `re.sub(r' - Home$| - Official Website$| - Official Site$', '', s)`. */
  function DropTitleSuffix(s: string): string {
    var e := LineEnd(s);
    var t := s[..e];
    if EndsWith(t, TitleSuffixes[0]) then s[..e - |TitleSuffixes[0]|] + s[e..]
    else if EndsWith(t, TitleSuffixes[1]) then s[..e - |TitleSuffixes[1]|] + s[e..]
    else if EndsWith(t, TitleSuffixes[2]) then s[..e - |TitleSuffixes[2]|] + s[e..]
    else s
  }

  /** The text is left alone exactly when it ends (before a final newline)
      with none of the three endings; otherwise the one it ends with is cut. */
  lemma DropTitleSuffixSpec(s: string)
    ensures var r := DropTitleSuffix(s); var t := s[..LineEnd(s)];
      && (r == s <==> forall k :: 0 <= k < |TitleSuffixes| ==> !EndsWith(t, TitleSuffixes[k]))
      && (r != s ==> exists k :: (0 <= k < |TitleSuffixes|
            && EndsWith(t, TitleSuffixes[k])
            && r == s[..LineEnd(s) - |TitleSuffixes[k]|] + s[LineEnd(s)..]))
  {
    var e := LineEnd(s);
    var t := s[..e];
    var r := DropTitleSuffix(s);
    if exists k :: 0 <= k < |TitleSuffixes| && EndsWith(t, TitleSuffixes[k]) {
      var k := if EndsWith(t, TitleSuffixes[0]) then 0 else if EndsWith(t, TitleSuffixes[1]) then 1 else 2;
      assert r == s[..e - |TitleSuffixes[k]|] + s[e..];
      assert |r| < |s|;
    }
  }

  /** ` \| .*$` matches from index `i`: " | " there, and no newline after it
      except one that ends the string. */
  predicate PipeMatchAt(s: string, i: int) {
    OccursAt(s, " | ", i) && forall k :: i + 3 <= k < |s| - 1 ==> s[k] != '\n'
  }

  /** The leftmost index at or after `from` where ` \| .*$` matches. */
  function FirstPipeMatch(s: string, from: nat): (r: Option<nat>)
    ensures r.Some? ==> from <= r.value && PipeMatchAt(s, r.value)
    ensures forall j :: from <= j && (r.None? || j < r.value) ==> !PipeMatchAt(s, j)
    decreases |s| - from
  {
    if from + 3 > |s| then None
    else if PipeMatchAt(s, from) then Some(from)
    else FirstPipeMatch(s, from + 1)
  }

  /** `re.sub(r' \| .*$', '', s)`: from the first " | " that the pattern can
      match, everything up to the end (or up to a final newline) is removed. */
  function CutAtPipe(s: string): (r: string)
  {
    match FirstPipeMatch(s, 0)
    case None => s
    case Some(i) =>
      assert s[i + 2] == ' ';
      s[..i] + s[LineEnd(s)..]
  }

  /** The company name made from a non-empty page title. */
  function CleanTitle(title: string): string {
    CutAtPipe(DropTitleSuffix(Strip(title)))
  }

  /** For a title whose stripped text has no line break: the stripped title
      loses at most one of the three endings, then is cut before its first " | ". */
  lemma CleanTitleSingleLine(title: string)
    requires '\n' !in Strip(title)
    ensures var s := Strip(title); var d := DropTitleSuffix(s); var r := CleanTitle(title);
      && (d == s || exists k :: 0 <= k < |TitleSuffixes| && s == d + TitleSuffixes[k])
      && r == d[..|r|]
      && (forall j :: 0 <= j < |r| ==> !OccursAt(d, " | ", j))
      && (r == d <==> !Contains(d, " | "))
      && (r != d ==> OccursAt(d, " | ", |r|))
  {
    DropTitleSuffixSingleLine(Strip(title));
    CutAtPipeSingleLine(DropTitleSuffix(Strip(title)));
  }

  lemma DropTitleSuffixSingleLine(s: string)
    requires '\n' !in s
    ensures var d := DropTitleSuffix(s);
      && '\n' !in d
      && (d == s || exists k :: 0 <= k < |TitleSuffixes| && s == d + TitleSuffixes[k])
  {
    assert LineEnd(s) == |s|;
    assert s[..|s|] == s && s[|s|..] == [];
    var d := DropTitleSuffix(s);
    if d != s {
      var k := if EndsWith(s, TitleSuffixes[0]) then 0 else if EndsWith(s, TitleSuffixes[1]) then 1 else 2;
      assert d == s[..|s| - |TitleSuffixes[k]|];
      CutSuffix(s, TitleSuffixes[k]);
      forall j | 0 <= j < |d| ensures d[j] != '\n' {
        assert d[j] == s[j];
      }
    }
  }

  lemma CutSuffix(s: string, suffix: string)
    requires EndsWith(s, suffix)
    ensures s == s[..|s| - |suffix|] + suffix
  {
    assert s[|s| - |suffix|..] == suffix;
  }

  lemma CutAtPipeSingleLine(d: string)
    requires '\n' !in d
    ensures var r := CutAtPipe(d);
      && r == d[..|r|]
      && (forall j :: 0 <= j < |r| ==> !OccursAt(d, " | ", j))
      && (r == d <==> !Contains(d, " | "))
      && (r != d ==> OccursAt(d, " | ", |r|))
  {
    assert LineEnd(d) == |d|;
    assert forall j :: PipeMatchAt(d, j) <==> OccursAt(d, " | ", j);
    match FirstPipeMatch(d, 0)
    case None =>
    case Some(i) =>
      assert CutAtPipe(d) == d[..i];
      assert OccursAt(d, " | ", i);
  }

  // ===========================================================================
  // extract_contact_info: contact-page links
  // ===========================================================================

  /** `'/'.join(url.split('/')[:3])`: scheme and host of an absolute URL; a
      prefix of the URL in every case. */
  function Origin(url: string): (r: string)
    ensures StartsWith(url, r)
    ensures |r| < |url| ==> url[|r|] == '/' && Occurrences(r, '/') == 2
    ensures |r| == |url| ==> Occurrences(url, '/') <= 2
  {
    OriginParts(url);
    Join(SliceTo(Split(url, '/'), 3), '/')
  }

  lemma OriginParts(url: string)
    ensures var r := Join(SliceTo(Split(url, '/'), 3), '/');
      && StartsWith(url, r)
      && (|r| < |url| ==> url[|r|] == '/' && Occurrences(r, '/') == 2)
      && (|r| == |url| ==> Occurrences(url, '/') <= 2)
  {
    var parts := Split(url, '/');
    JoinSplit(url, '/');
    if |parts| <= 3 {
      assert SliceTo(parts, 3) == parts;
      JoinOccurrences(parts, '/');
    } else {
      var first := parts[..3];
      assert SliceTo(parts, 3) == first;
      assert forall i :: 0 <= i < 3 ==> first[i] == parts[i];
      JoinOccurrences(first, '/');
      JoinSplitAt(parts, 3, '/');
      var front := Join(first, '/');
      assert url == front + ['/'] + Join(parts[3..], '/');
      assert url[..|front|] == front;
    }
  }

  /** The three facts `Origin` promises pin it down: the URL up to its third
      '/', or the whole URL when it has fewer. */
  lemma OriginDetermined(url: string, p: string)
    requires StartsWith(url, p)
    requires |p| < |url| ==> url[|p|] == '/' && Occurrences(p, '/') == 2
    requires |p| == |url| ==> Occurrences(url, '/') <= 2
    ensures p == Origin(url)
  {
    var r := Origin(url);
    assert url[..|url|] == url;
    if |p| < |r| {
      SlashAfterPrefix(url, p, r);
    } else if |r| < |p| {
      SlashAfterPrefix(url, r, p);
    } else {
      assert p == url[..|p|] && r == url[..|r|];
    }
  }

  /** A longer prefix that reaches past a '/' holds one more '/'. */
  lemma SlashAfterPrefix(url: string, a: string, b: string)
    requires StartsWith(url, a) && StartsWith(url, b) && |a| < |b|
    requires url[|a|] == '/'
    ensures Occurrences(b, '/') >= Occurrences(a, '/') + 1
  {
    assert b == a + [url[|a|]] + b[|a| + 1..];
    assert multiset(b) == multiset(a) + multiset([url[|a|]]) + multiset(b[|a| + 1..]);
  }

  /** The link kept for one anchor's href, if any. */
  function ResolveContactLink(url: string, href: string): (r: Option<string>)
  {
    var h := Lower(href);
    if Contains(h, "contact") || Contains(h, "about") then
      if StartsWith(h, "http") then Some(h)
      else if StartsWith(h, "/") then Some(Origin(url) + h)
      else None
    else None
  }

  /** A link is kept exactly when the lower-cased href mentions "contact" or
      "about" and is absolute or starts with '/'. An absolute link is the
      lower-cased href itself, a relative one that href put after the page
      URL's origin; either still mentions the keyword. */
  lemma ResolveContactLinkSpec(url: string, href: string)
    ensures var r := ResolveContactLink(url, href); var h := Lower(href);
      && (r.Some? <==>
            (Contains(h, "contact") || Contains(h, "about"))
            && (StartsWith(h, "http") || StartsWith(h, "/")))
      && (r.Some? ==> Contains(r.value, "contact") || Contains(r.value, "about"))
      && (r.Some? && StartsWith(h, "http") ==> r.value == h)
      && (r.Some? && !StartsWith(h, "http") ==> StartsWith(h, "/") && r.value == Origin(url) + h)
  {
    var h := Lower(href);
    if (Contains(h, "contact") || Contains(h, "about")) && !StartsWith(h, "http") && StartsWith(h, "/") {
      ContainsKeyword(Origin(url), h);
    }
  }

  lemma ContainsKeyword(a: string, h: string)
    requires Contains(h, "contact") || Contains(h, "about")
    ensures Contains(a + h, "contact") || Contains(a + h, "about")
  {
    if Contains(h, "contact") {
      ContainsInSuffix(a, h, "contact");
    } else {
      ContainsInSuffix(a, h, "about");
    }
  }

  /** The links collected from a page's hrefs, in document order. */
  function ContactLinks(url: string, hrefs: seq<string>): (links: seq<string>)
    ensures |links| <= |hrefs|
  {
    FilterMap(hrefs, href => ResolveContactLink(url, href))
  }

  /** Every collected link comes from some href, and every href that resolves is collected. */
  lemma ContactLinksComplete(url: string, hrefs: seq<string>, link: string)
    ensures link in ContactLinks(url, hrefs) <==>
      exists k :: 0 <= k < |hrefs| && ResolveContactLink(url, hrefs[k]) == Some(link)
  {
    FilterMapComplete(hrefs, href => ResolveContactLink(url, href), link);
  }

  /** The loop that collects `contact_links`. */
  method CollectContactLinks(url: string, hrefs: seq<string>) returns (links: seq<string>)
    ensures links == ContactLinks(url, hrefs)
  {
    links := [];
    var i := 0;
    while i < |hrefs|
      invariant 0 <= i <= |hrefs|
      invariant links == ContactLinks(url, hrefs[..i])
    {
      assert hrefs[..i + 1][..i] == hrefs[..i];
      var href := Lower(hrefs[i]);
      if Contains(href, "contact") || Contains(href, "about") {
        if StartsWith(href, "http") {
          links := links + [href];
        } else if StartsWith(href, "/") {
          var baseUrl := Join(SliceTo(Split(url, '/'), 3), '/');
          links := links + [baseUrl + href];
        }
      }
      i := i + 1;
    }
    assert hrefs[..i] == hrefs;
  }

  // ===========================================================================
  // extract_contact_info: the contact-page fallback
  // ===========================================================================

  /** The email and phone found so far. */
  datatype Found = Found(email: Option<string>, phone: Option<string>)

  predicate Complete(f: Found) {
    Truthy(f.email) && Truthy(f.phone)
  }

  /** An email that is absent or not an image file name. */
  predicate EmailOk(email: Option<string>) {
    email.None? || !IsImageName(email.value)
  }

  /** Reading one secondary page fills in whichever of the two fields is still
      missing, from that page's matches; a field already found is kept. */
  function ScanContactPage(f: Found, scan: PageScan): (g: Found)
    ensures Truthy(f.email) ==> g.email == f.email
    ensures Truthy(f.phone) ==> g.phone == f.phone
    ensures !Truthy(f.email) ==> g.email == if FirstEmail(scan.emails).Some? then FirstEmail(scan.emails) else f.email
    ensures !Truthy(f.phone) ==> g.phone == if scan.phones != [] then Some(scan.phones[0]) else f.phone
  {
    var email := if !Truthy(f.email) && FirstEmail(scan.emails).Some? then FirstEmail(scan.emails) else f.email;
    var phone := if !Truthy(f.phone) && scan.phones != [] then FirstPhone(scan.phones) else f.phone;
    Found(email, phone)
  }

  /** The loop over the links to visit: the details afterwards, and the pages
      requested in order. A page whose fetch raised (`None`) is skipped; the
      loop stops after the first page that completes both fields. */
  function VisitPages(urls: seq<string>, visit: string -> Option<PageScan>, f: Found): (r: (Found, seq<string>))
    ensures |r.1| <= |urls| && r.1 == urls[..|r.1|]
    ensures |r.1| < |urls| ==> Complete(r.0)
    ensures Truthy(f.email) ==> r.0.email == f.email
    ensures Truthy(f.phone) ==> r.0.phone == f.phone
    ensures EmailOk(f.email) ==> EmailOk(r.0.email)
  {
    if urls == [] then (f, [])
    else
      match visit(urls[0])
      case None =>
        var (g, seen) := VisitPages(urls[1..], visit, f);
        (g, [urls[0]] + seen)
      case Some(scan) =>
        var g := ScanContactPage(f, scan);
        if Complete(g) then (g, [urls[0]])
        else
          var (h, seen) := VisitPages(urls[1..], visit, g);
          (h, [urls[0]] + seen)
  }

  /** Pages are requested only while a field is missing: before each request
      but the first, the pages already read had not completed both fields. */
  lemma {:induction false} VisitPagesStopsWhenComplete(urls: seq<string>, visit: string -> Option<PageScan>, f: Found, k: nat)
    requires !Complete(f)
    requires 0 < k < |VisitPages(urls, visit, f).1|
    ensures VisitPages(urls[..k], visit, f).1 == urls[..k]
    ensures !Complete(VisitPages(urls[..k], visit, f).0)
  {
    var pre := urls[..k];
    assert pre[0] == urls[0];
    assert pre[1..] == urls[1..][..k - 1];
    match visit(urls[0])
    case None =>
      if k > 1 {
        VisitPagesStopsWhenComplete(urls[1..], visit, f, k - 1);
      } else {
        assert pre[1..] == [];
      }
    case Some(scan) =>
      var g := ScanContactPage(f, scan);
      assert !Complete(g);
      if k > 1 {
        VisitPagesStopsWhenComplete(urls[1..], visit, g, k - 1);
      }
  }

  /** Pages whose fetch failed are skipped: when every page requested
      failed, the details are those the loop started with. */
  lemma {:induction false} VisitPagesSkipsFailures(urls: seq<string>, visit: string -> Option<PageScan>, f: Found)
    ensures var (g, read) := VisitPages(urls, visit, f);
      (forall k :: 0 <= k < |read| ==> visit(read[k]).None?) ==> g == f
  {
    if urls != [] {
      var (g, read) := VisitPages(urls, visit, f);
      if visit(urls[0]).None? {
        var (h, seen) := VisitPages(urls[1..], visit, f);
        VisitPagesSkipsFailures(urls[1..], visit, f);
        assert read == [urls[0]] + seen;
        forall k | 0 <= k < |seen| ensures visit(seen[k]).None? || visit(read[k + 1]).Some? {
          assert read[k + 1] == seen[k];
        }
      } else {
        assert visit(read[0]).Some?;
      }
    }
  }

  /** Page `k` of `urls` was read and yields a non-empty email. */
  predicate EmailReadAt(urls: seq<string>, visit: string -> Option<PageScan>, k: int) {
    0 <= k < |urls| && visit(urls[k]).Some? && Truthy(FirstEmail(visit(urls[k]).value.emails))
  }

  /** Page `k` is the first page of `urls` read that yields a non-empty email. */
  predicate FirstEmailReadAt(urls: seq<string>, visit: string -> Option<PageScan>, k: int) {
    EmailReadAt(urls, visit, k) && forall j :: 0 <= j < k ==> !EmailReadAt(urls, visit, j)
  }

  /** Page `k` of `urls` was read and yields an email, possibly empty. */
  predicate AnyEmailAt(urls: seq<string>, visit: string -> Option<PageScan>, k: int) {
    0 <= k < |urls| && visit(urls[k]).Some? && FirstEmail(visit(urls[k]).value.emails).Some?
  }

  lemma EmailShift(u: string, seen: seq<string>, visit: string -> Option<PageScan>)
    ensures var read := [u] + seen;
      && (!EmailReadAt(read, visit, 0) ==>
            forall k :: FirstEmailReadAt(read, visit, k) ==>
              k >= 1 && read[k] == seen[k - 1] && FirstEmailReadAt(seen, visit, k - 1))
      && ((forall k :: !EmailReadAt(read, visit, k)) ==> forall k :: !EmailReadAt(seen, visit, k))
      && ((forall k :: !AnyEmailAt(read, visit, k)) ==> forall k :: !AnyEmailAt(seen, visit, k))
  {
    var read := [u] + seen;
    forall k | 0 <= k < |seen| ensures read[k + 1] == seen[k] {}
    if !EmailReadAt(read, visit, 0) {
      forall k | FirstEmailReadAt(read, visit, k)
        ensures k >= 1 && read[k] == seen[k - 1] && FirstEmailReadAt(seen, visit, k - 1)
      {
        forall j | 0 <= j < k - 1 ensures !EmailReadAt(seen, visit, j) {
          assert !EmailReadAt(read, visit, j + 1);
        }
      }
    }
    if forall k :: !EmailReadAt(read, visit, k) {
      forall k ensures !EmailReadAt(seen, visit, k) {
        assert !EmailReadAt(read, visit, k + 1);
      }
    }
    if forall k :: !AnyEmailAt(read, visit, k) {
      forall k ensures !AnyEmailAt(seen, visit, k) {
        assert !AnyEmailAt(read, visit, k + 1);
      }
    }
  }

  /** A missing email becomes the one of the first page read that yields a
      non-empty email. With no such page it stays empty, and with no page
      yielding any email it stays as it was. */
  lemma {:induction false} VisitPagesFillsEmail(urls: seq<string>, visit: string -> Option<PageScan>, f: Found)
    ensures var (g, read) := VisitPages(urls, visit, f);
      !Truthy(f.email) ==>
        && (forall k :: FirstEmailReadAt(read, visit, k) ==> g.email == FirstEmail(visit(read[k]).value.emails))
        && ((forall k :: !EmailReadAt(read, visit, k)) ==> !Truthy(g.email))
        && ((forall k :: !AnyEmailAt(read, visit, k)) ==> g.email == f.email)
  {
    if urls != [] && !Truthy(f.email) {
      var u := urls[0];
      var (g, read) := VisitPages(urls, visit, f);
      match visit(u)
      case None =>
        var (h, seen) := VisitPages(urls[1..], visit, f);
        VisitPagesFillsEmail(urls[1..], visit, f);
        assert read == [u] + seen;
        assert !EmailReadAt(read, visit, 0);
        EmailShift(u, seen, visit);
      case Some(scan) =>
        var g1 := ScanContactPage(f, scan);
        assert AnyEmailAt(read, visit, 0) <==> FirstEmail(scan.emails).Some?;
        if EmailReadAt(read, visit, 0) {
          assert g1.email == FirstEmail(scan.emails);
          assert forall k :: FirstEmailReadAt(read, visit, k) ==> k == 0;
        } else {
          assert !Complete(g1);
          var (h, seen) := VisitPages(urls[1..], visit, g1);
          VisitPagesFillsEmail(urls[1..], visit, g1);
          assert read == [u] + seen;
          EmailShift(u, seen, visit);
        }
    }
  }

  /** Page `k` of `urls` was read and yields a non-empty phone. */
  predicate PhoneReadAt(urls: seq<string>, visit: string -> Option<PageScan>, k: int) {
    0 <= k < |urls| && visit(urls[k]).Some? && Truthy(FirstPhone(visit(urls[k]).value.phones))
  }

  /** Page `k` is the first page of `urls` read that yields a non-empty phone. */
  predicate FirstPhoneReadAt(urls: seq<string>, visit: string -> Option<PageScan>, k: int) {
    PhoneReadAt(urls, visit, k) && forall j :: 0 <= j < k ==> !PhoneReadAt(urls, visit, j)
  }

  /** Page `k` of `urls` was read and yields an phone, possibly empty. */
  predicate AnyPhoneAt(urls: seq<string>, visit: string -> Option<PageScan>, k: int) {
    0 <= k < |urls| && visit(urls[k]).Some? && FirstPhone(visit(urls[k]).value.phones).Some?
  }

  lemma PhoneShift(u: string, seen: seq<string>, visit: string -> Option<PageScan>)
    ensures var read := [u] + seen;
      && (!PhoneReadAt(read, visit, 0) ==>
            forall k :: FirstPhoneReadAt(read, visit, k) ==>
              k >= 1 && read[k] == seen[k - 1] && FirstPhoneReadAt(seen, visit, k - 1))
      && ((forall k :: !PhoneReadAt(read, visit, k)) ==> forall k :: !PhoneReadAt(seen, visit, k))
      && ((forall k :: !AnyPhoneAt(read, visit, k)) ==> forall k :: !AnyPhoneAt(seen, visit, k))
  {
    var read := [u] + seen;
    forall k | 0 <= k < |seen| ensures read[k + 1] == seen[k] {}
    if !PhoneReadAt(read, visit, 0) {
      forall k | FirstPhoneReadAt(read, visit, k)
        ensures k >= 1 && read[k] == seen[k - 1] && FirstPhoneReadAt(seen, visit, k - 1)
      {
        forall j | 0 <= j < k - 1 ensures !PhoneReadAt(seen, visit, j) {
          assert !PhoneReadAt(read, visit, j + 1);
        }
      }
    }
    if forall k :: !PhoneReadAt(read, visit, k) {
      forall k ensures !PhoneReadAt(seen, visit, k) {
        assert !PhoneReadAt(read, visit, k + 1);
      }
    }
    if forall k :: !AnyPhoneAt(read, visit, k) {
      forall k ensures !AnyPhoneAt(seen, visit, k) {
        assert !AnyPhoneAt(read, visit, k + 1);
      }
    }
  }

  /** A missing phone becomes the one of the first page read that yields a
      non-empty phone. With no such page it stays empty, and with no page
      yielding any phone it stays as it was. */
  lemma {:induction false} VisitPagesFillsPhone(urls: seq<string>, visit: string -> Option<PageScan>, f: Found)
    ensures var (g, read) := VisitPages(urls, visit, f);
      !Truthy(f.phone) ==>
        && (forall k :: FirstPhoneReadAt(read, visit, k) ==> g.phone == FirstPhone(visit(read[k]).value.phones))
        && ((forall k :: !PhoneReadAt(read, visit, k)) ==> !Truthy(g.phone))
        && ((forall k :: !AnyPhoneAt(read, visit, k)) ==> g.phone == f.phone)
  {
    if urls != [] && !Truthy(f.phone) {
      var u := urls[0];
      var (g, read) := VisitPages(urls, visit, f);
      match visit(u)
      case None =>
        var (h, seen) := VisitPages(urls[1..], visit, f);
        VisitPagesFillsPhone(urls[1..], visit, f);
        assert read == [u] + seen;
        assert !PhoneReadAt(read, visit, 0);
        PhoneShift(u, seen, visit);
      case Some(scan) =>
        var g1 := ScanContactPage(f, scan);
        assert AnyPhoneAt(read, visit, 0) <==> FirstPhone(scan.phones).Some?;
        if PhoneReadAt(read, visit, 0) {
          assert g1.phone == FirstPhone(scan.phones);
          assert forall k :: FirstPhoneReadAt(read, visit, k) ==> k == 0;
        } else {
          assert !Complete(g1);
          var (h, seen) := VisitPages(urls[1..], visit, g1);
          VisitPagesFillsPhone(urls[1..], visit, g1);
          assert read == [u] + seen;
          PhoneShift(u, seen, visit);
        }
    }
  }

  /** The loop over `contact_links[:2]`, with its early `break` and its
      `except: continue`. */
  method VisitContactPages(links: seq<string>, visit: string -> Option<PageScan>, email0: Option<string>, phone0: Option<string>)
    returns (email: Option<string>, phone: Option<string>)
    ensures Found(email, phone) == VisitPages(SliceTo(links, 2), visit, Found(email0, phone0)).0
  {
    var toVisit := SliceTo(links, 2);
    email, phone := email0, phone0;
    var i := 0;
    while i < |toVisit|
      invariant 0 <= i <= |toVisit|
      invariant VisitPages(toVisit[i..], visit, Found(email, phone)).0
             == VisitPages(toVisit, visit, Found(email0, phone0)).0
    {
      var contactUrl := toVisit[i];
      var scan := visit(contactUrl);
      assert toVisit[i..][1..] == toVisit[i + 1..];
      if scan.None? {
        i := i + 1;
        continue;
      }
      if !Truthy(email) {
        var filtered := DropImageNames(scan.value.emails);
        if filtered != [] {
          email := Some(filtered[0]);
        }
      }
      if !Truthy(phone) {
        var contactPhones := scan.value.phones;
        if contactPhones != [] {
          phone := Some(contactPhones[0]);
        }
      }
      if Truthy(email) && Truthy(phone) {
        break;
      }
      i := i + 1;
    }
  }

  // ===========================================================================
  // extract_contact_info
  // ===========================================================================

  /** The parsed primary page: the title's text (`None` when there is no title
      or it has no single string), the email and phone matches over the
      visible text, and the hrefs of the anchors that have one. */
  datatype Page = Page(title: Option<string>, emails: seq<string>, phones: seq<string>, hrefs: seq<string>)

  datatype ContactInfo = ContactInfo(companyName: Option<string>, email: Option<string>, phone: Option<string>)

  predicate HasContact(info: ContactInfo) {
    Truthy(info.email) || Truthy(info.phone)
  }

  /** What extract_contact_info returns for `url`, given the primary page
      (`None` when fetching or parsing it raised) and the secondary pages. */
  function ContactInfoOf(url: string, main: Option<Page>, visit: string -> Option<PageScan>): (r: ContactInfo)
    ensures EmailOk(r.email)
  {
    match main
    case None => ContactInfo(FallbackName(url), None, None)
    case Some(page) =>
      var name := if page.title.Some? && page.title.value != "" then Some(CleanTitle(page.title.value)) else FallbackName(url);
      var found := Found(FirstEmail(page.emails), FirstPhone(page.phones));
      var final := if Complete(found) then found
                   else VisitPages(SliceTo(ContactLinks(url, page.hrefs), 2), visit, found).0;
      ContactInfo(name, final.email, final.phone)
  }

  /** The whole extraction: a failed primary page leaves both fields empty;
      otherwise a field found on the primary page is kept, and at most two
      secondary pages are requested, none when both fields are already there. */
  lemma ContactInfoFallback(url: string, main: Option<Page>, visit: string -> Option<PageScan>)
    ensures main.None? ==> ContactInfoOf(url, main, visit) == ContactInfo(FallbackName(url), None, None)
    ensures main.Some? ==>
      var page := main.value;
      var found := Found(FirstEmail(page.emails), FirstPhone(page.phones));
      var r := ContactInfoOf(url, main, visit);
      && (Truthy(found.email) ==> r.email == found.email)
      && (Truthy(found.phone) ==> r.phone == found.phone)
      && (!Complete(found) ==>
            var visited := VisitPages(SliceTo(ContactLinks(url, page.hrefs), 2), visit, found).1;
            |visited| <= 2 && visited == ContactLinks(url, page.hrefs)[..|visited|])
  {}

  /** The scenario of a home page titled "Acme Co - Home" whose text holds one
      email and one phone number. */
  lemma AcmeScenario(visit: string -> Option<PageScan>)
    ensures ContactInfoOf("http://acme.com",
      Some(Page(Some("Acme Co - Home"), ["info@acme.com"], ["(555) 123-4567"], [])), visit)
      == ContactInfo(Some("Acme Co"), Some("info@acme.com"), Some("(555) 123-4567"))
  {
    AcmeTitle();
    AcmeEmail();
    var found := Found(Some("info@acme.com"), Some("(555) 123-4567"));
    assert Complete(found);
  }

  lemma AcmeEmail()
    ensures FirstEmail(["info@acme.com"]) == Some("info@acme.com")
  {
    assert !IsImageName("info@acme.com");
  }

  /** The title of that scenario becomes the company name "Acme Co". */
  lemma AcmeTitle()
    ensures CleanTitle("Acme Co - Home") == "Acme Co"
  {
    var t := "Acme Co - Home";
    AcmeStrip(t);
    AcmeDrop(t);
    var d := "Acme Co";
    AcmeNameChars(d);
    NoBarNoPipe(d);
    CutAtPipeSingleLine(d);
  }

  lemma AcmeNameChars(d: string)
    requires d == "Acme Co"
    ensures '|' !in d && '\n' !in d
  {
    forall k | 0 <= k < |d| ensures d[k] != '|' && d[k] != '\n' {
      assert d[k] in "Acme Co";
    }
  }

  lemma AcmeDrop(t: string)
    requires t == "Acme Co - Home"
    ensures DropTitleSuffix(t) == "Acme Co"
  {
    assert LineEnd(t) == |t| && t[..|t|] == t;
    assert EndsWith(t, TitleSuffixes[0]) by {
      assert t[|t| - 7..] == " - Home";
    }
    assert t[..|t| - 7] == "Acme Co";
  }

  lemma AcmeStrip(t: string)
    requires t == "Acme Co - Home"
    ensures Strip(t) == t
  {
    assert !IsSpace(t[0]) && !IsSpace(t[|t| - 1]);
    assert StripStart(t) == 0;
    assert StripEnd(t) == |t|;
    assert t[0..|t|] == t;
  }

  lemma NoBarNoPipe(s: string)
    requires '|' !in s
    ensures !Contains(s, " | ")
  {
    forall i | 0 <= i <= |s| - 3
      ensures !OccursAt(s, " | ", i)
    {
      assert s[i..i + 3][1] == s[i + 1] != '|';
    }
  }

  /** The extraction as the source runs it: the link loop, then the visit loop. */
  method ExtractContactInfo(url: string, main: Option<Page>, visit: string -> Option<PageScan>) returns (info: ContactInfo)
    ensures info == ContactInfoOf(url, main, visit)
  {
    var email: Option<string> := None;
    var phone: Option<string> := None;
    var companyName := FallbackName(url);
    if main.Some? {
      var page := main.value;
      if page.title.Some? && page.title.value != "" {
        companyName := Some(CleanTitle(page.title.value));
      }
      if page.emails != [] {
        var filtered := DropImageNames(page.emails);
        if filtered != [] {
          email := Some(filtered[0]);
        }
      }
      if page.phones != [] {
        phone := Some(page.phones[0]);
      }
      if !Truthy(email) || !Truthy(phone) {
        var links := CollectContactLinks(url, page.hrefs);
        email, phone := VisitContactPages(links, visit, email, phone);
      }
    }
    info := ContactInfo(companyName, email, phone);
  }

  // ===========================================================================
  // log_broken_website
  // ===========================================================================

  const CsvHeader: seq<string> := ["URL", "Company", "Status Code", "Reason", "Email", "Phone", "Timestamp"]

  /** How the CSV writer renders `status["code"]`. */
  function CodeText(code: StatusCode): string {
    match code
    case Code(n) => IntToString(n)
    case ConnectionError => "Connection Error"
  }

  /** Reads a "Status Code" cell back. */
  function ParseCodeText(s: string): StatusCode {
    if s == "Connection Error" then ConnectionError
    else if s != [] && (s[0] == '-' || IsDigit(s[0])) && (forall k :: 1 <= k < |s| ==> IsDigit(s[k]))
    then Code(ParseInt(s))
    else ConnectionError
  }

  function OrElse(field: Option<string>, default: string): string {
    if Truthy(field) then field.value else default
  }

  /** The CSV row for one broken website. */
  function BrokenWebsiteRow(url: string, status: Status, info: ContactInfo, timestamp: string): (row: seq<string>)
    ensures |row| == |CsvHeader|
  {
    [url, OrElse(info.companyName, "Unknown"), CodeText(status.code), status.reason,
     OrElse(info.email, "Not found"), OrElse(info.phone, "Not found"), timestamp]
  }

  /** What a row says: the status code reads back from its cell, and a
      placeholder appears exactly where the field is missing (or is itself
      the placeholder text). */
  lemma BrokenWebsiteRowFields(url: string, status: Status, info: ContactInfo, timestamp: string)
    ensures var row := BrokenWebsiteRow(url, status, info, timestamp);
      && row[0] == url && row[3] == status.reason && row[6] == timestamp
      && ParseCodeText(row[2]) == status.code
      && (row[1] == "Unknown" <==> !Truthy(info.companyName) || info.companyName.value == "Unknown")
      && (row[4] == "Not found" <==> !Truthy(info.email) || info.email.value == "Not found")
      && (row[5] == "Not found" <==> !Truthy(info.phone) || info.phone.value == "Not found")
  {
    CodeTextReadsBack(status.code);
  }

  /** The "Status Code" cell determines the status code. */
  lemma CodeTextReadsBack(code: StatusCode)
    ensures ParseCodeText(CodeText(code)) == code
  {
    if code.Code? {
      var s := IntToString(code.n);
      IntToStringRoundTrip(code.n);
      assert s != [];
      assert s[0] != 'C' by {
        if code.n < 0 { assert s[0] == '-'; } else { assert IsDigit(s[0]); }
      }
    }
  }

  /** Appending one row to the CSV log; the header is written first when the
      file does not exist yet (`None`). */
  function LogBrokenWebsite(file: Option<seq<seq<string>>>, url: string, status: Status, info: ContactInfo, timestamp: string)
    : (rows: seq<seq<string>>)
    ensures file.None? ==> rows == [CsvHeader, BrokenWebsiteRow(url, status, info, timestamp)]
    ensures file.Some? ==> rows == file.value + [BrokenWebsiteRow(url, status, info, timestamp)]
  {
    var row := BrokenWebsiteRow(url, status, info, timestamp);
    match file
    case None => [CsvHeader, row]
    case Some(existing) => existing + [row]
  }

  /** The rows logged for `sites`, in order, the k-th stamped `clock(k)`. */
  function LoggedRows(sites: seq<BrokenWebsite>, clock: nat -> string): (rows: seq<seq<string>>)
    ensures |rows| == |sites|
  {
    seq(|sites|, k requires 0 <= k < |sites| => BrokenWebsiteRow(sites[k].url, sites[k].status, sites[k].contactInfo, clock(k)))
  }

  lemma LoggedRowsSnoc(sites: seq<BrokenWebsite>, site: BrokenWebsite, clock: nat -> string)
    ensures LoggedRows(sites + [site], clock)
      == LoggedRows(sites, clock) + [BrokenWebsiteRow(site.url, site.status, site.contactInfo, clock(|sites|))]
  {
    assert (sites + [site])[..|sites|] == sites;
  }

  // ===========================================================================
  // find_broken_websites_with_contacts
  // ===========================================================================

  datatype BrokenWebsite = BrokenWebsite(url: string, companyName: Option<string>, status: Status, contactInfo: ContactInfo)

  /** The `broken_websites_data` dictionary. */
  datatype Report = Report(totalChecked: nat, totalBroken: nat, withContact: nat, websites: seq<BrokenWebsite>)

  /** The invariant the run keeps: broken sites are among those checked, the
      contact counter is the list's length and counts broken sites only, and
      every listed site is broken and has an email or a phone. */
  predicate ReportValid(r: Report) {
    && r.totalBroken <= r.totalChecked
    && r.withContact == |r.websites|
    && r.withContact <= r.totalBroken
    && forall k :: 0 <= k < |r.websites| ==>
         && r.websites[k].status.verdict == Broken
         && HasContact(r.websites[k].contactInfo)
         && r.websites[k].companyName == r.websites[k].contactInfo.companyName
  }

  /** One pass of the loop body, without the stop test, for a site with
      status `status` whose extraction gives `info` (looked at only when the
      site is broken). */
  function CheckOne(r: Report, url: string, status: Status, info: ContactInfo): (r': Report)
    ensures r'.totalChecked == r.totalChecked + 1
    ensures r'.totalBroken == r.totalBroken + (if status.verdict.Broken? then 1 else 0)
    ensures |r.websites| <= |r'.websites| <= |r.websites| + 1
    ensures |r'.websites| == |r.websites| + 1 <==> status.verdict == Broken && HasContact(info)
  {
    var checked := r.(totalChecked := r.totalChecked + 1);
    if status.verdict == Working then checked
    else
      var broken := checked.(totalBroken := checked.totalBroken + 1);
      if HasContact(info) then
        broken.(withContact := broken.withContact + 1,
                websites := broken.websites + [BrokenWebsite(url, info.companyName, status, info)])
      else broken
  }

  /** The report after checking `urls` in order, with no cap: each site is
      probed, and its contact details are extracted (and looked at only when
      the site is broken). */
  function ReportOf(urls: seq<string>, probe: string -> FetchOutcome,
                    fetchPage: string -> Option<Page>, visit: string -> Option<PageScan>): (r: Report)
    ensures r.totalChecked == |urls|
  {
    if urls == [] then Report(0, 0, 0, [])
    else
      var n := |urls| - 1;
      var url := urls[n];
      CheckOne(ReportOf(urls[..n], probe, fetchPage, visit), url,
               CheckWebsiteStatus(probe(url)), ContactInfoOf(url, fetchPage(url), visit))
  }

  /** One step keeps the report invariant. */
  lemma CheckOneKeepsValid(r: Report, url: string, status: Status, info: ContactInfo)
    requires ReportValid(r)
    ensures ReportValid(CheckOne(r, url, status, info))
  {}

  /** Every report the run can produce keeps the report invariant. */
  lemma {:induction false} ReportOfValid(urls: seq<string>, probe: string -> FetchOutcome,
                                         fetchPage: string -> Option<Page>, visit: string -> Option<PageScan>)
    ensures ReportValid(ReportOf(urls, probe, fetchPage, visit))
  {
    if urls != [] {
      var n := |urls| - 1;
      var url := urls[n];
      ReportOfValid(urls[..n], probe, fetchPage, visit);
      CheckOneKeepsValid(ReportOf(urls[..n], probe, fetchPage, visit), url,
                         CheckWebsiteStatus(probe(url)), ContactInfoOf(url, fetchPage(url), visit));
    }
  }

  lemma StepListed(r: Report, url: string, status: Status, info: ContactInfo)
    requires status.verdict == Broken && HasContact(info)
    ensures CheckOne(r, url, status, info)
      == Report(r.totalChecked + 1, r.totalBroken + 1, r.withContact + 1,
                r.websites + [BrokenWebsite(url, info.companyName, status, info)])
  {}

  lemma StepUnlisted(r: Report, url: string, status: Status, info: ContactInfo)
    requires !(status.verdict == Broken && HasContact(info))
    ensures CheckOne(r, url, status, info)
      == r.(totalChecked := r.totalChecked + 1,
            totalBroken := r.totalBroken + (if status.verdict.Broken? then 1 else 0))
  {}

  /** One more site appended to the checked prefix adds one loop pass. */
  lemma ReportOfSnoc(seen: seq<string>, url: string, probe: string -> FetchOutcome,
                     fetchPage: string -> Option<Page>, visit: string -> Option<PageScan>)
    ensures ReportOf(seen + [url], probe, fetchPage, visit)
      == CheckOne(ReportOf(seen, probe, fetchPage, visit), url,
                  CheckWebsiteStatus(probe(url)), ContactInfoOf(url, fetchPage(url), visit))
  {
    assert (seen + [url])[..|seen|] == seen;
  }

  /** The loop body of the run up to its stop test: check `url` and, for a
      broken site with an email or a phone, count it, append its CSV row and
      list it. When `data` is the report for the sites `seen` so far, the new
      report is the one for `seen` followed by `url`; the log keeps matching
      the list. */
  method CheckWebsite(data: Report, log: seq<seq<string>>, url: string, probe: string -> FetchOutcome,
                      fetchPage: string -> Option<Page>, visit: string -> Option<PageScan>, clock: nat -> string)
    returns (data': Report, log': seq<seq<string>>, listed: bool, ghost checked: Status, ghost info: ContactInfo)
    ensures checked == CheckWebsiteStatus(probe(url)) && info == ContactInfoOf(url, fetchPage(url), visit)
    ensures data' == CheckOne(data, url, checked, info)
    ensures listed <==> |data'.websites| == |data.websites| + 1
    ensures data'.withContact == data.withContact + if listed then 1 else 0
    ensures listed ==> data'.websites[|data'.websites| - 1].url == url
    ensures log == [CsvHeader] + LoggedRows(data.websites, clock) ==>
      log' == [CsvHeader] + LoggedRows(data'.websites, clock)
  {
    data', log', listed := data, log, false;
    data' := data'.(totalChecked := data'.totalChecked + 1);
    var status := CheckWebsiteStatus(probe(url));
    checked, info := status, ContactInfoOf(url, fetchPage(url), visit);
    if status.verdict == Broken {
      data' := data'.(totalBroken := data'.totalBroken + 1);
      var contactInfo := ExtractContactInfo(url, fetchPage(url), visit);
      if Truthy(contactInfo.email) || Truthy(contactInfo.phone) {
        data' := data'.(withContact := data'.withContact + 1);
        log' := LogBrokenWebsite(Some(log'), url, status, contactInfo, clock(|data'.websites|));
        var site := BrokenWebsite(url, contactInfo.companyName, status, contactInfo);
        data' := data'.(websites := data'.websites + [site]);
        LoggedRowsSnoc(data.websites, site, clock);
        listed := true;
        StepListed(data, url, status, contactInfo);
      } else {
        StepUnlisted(data, url, status, contactInfo);
      }
    } else {
      StepUnlisted(data, url, status, info);
    }
  }

  /** The same loop pass, stated against the run's specification: when `data`
      is the report for the sites `seen` so far, the new report is the one for
      `seen` followed by `url`. */
  method CheckNext(data: Report, log: seq<seq<string>>, url: string, ghost seen: seq<string>,
                   probe: string -> FetchOutcome, fetchPage: string -> Option<Page>,
                   visit: string -> Option<PageScan>, clock: nat -> string)
    returns (data': Report, log': seq<seq<string>>, listed: bool)
    ensures data == ReportOf(seen, probe, fetchPage, visit) ==>
      data' == ReportOf(seen + [url], probe, fetchPage, visit)
    ensures data'.totalChecked == data.totalChecked + 1
    ensures data'.withContact == data.withContact + if listed then 1 else 0
    ensures listed ==> data'.websites != [] && data'.websites[|data'.websites| - 1].url == url
    ensures log == [CsvHeader] + LoggedRows(data.websites, clock) ==>
      log' == [CsvHeader] + LoggedRows(data'.websites, clock)
  {
    ghost var status, info;
    data', log', listed, status, info := CheckWebsite(data, log, url, probe, fetchPage, visit, clock);
    ReportOfSnoc(seen, url, probe, fetchPage, visit);
  }

  /** The run: check at most `maxWebsites` of the (already shuffled) candidate
      URLs, extract contacts from the broken ones, log each broken site that
      has an email or a phone, and stop right after the contact counter
      reaches `maxContacts`. */
  method FindBrokenWebsitesWithContacts(
    websites: seq<string>, maxWebsites: int, maxContacts: int,
    probe: string -> FetchOutcome, fetchPage: string -> Option<Page>,
    visit: string -> Option<PageScan>, clock: nat -> string)
    returns (data: Report, log: seq<seq<string>>)
    ensures var urls := SliceTo(websites, maxWebsites);
      && data.totalChecked <= |urls|
      && data == ReportOf(urls[..data.totalChecked], probe, fetchPage, visit)
      && (data.totalChecked < |urls| ==> data.withContact >= maxContacts && data.withContact >= 1)
      && (data.withContact >= maxContacts && data.withContact >= 1 ==>
            data.totalChecked >= 1 && data.websites != [] &&
            data.websites[|data.websites| - 1].url == urls[data.totalChecked - 1])
    ensures maxWebsites >= 0 ==> data.totalChecked <= maxWebsites
    ensures data.withContact <= if maxContacts >= 1 then maxContacts else 1
    ensures log == [CsvHeader] + LoggedRows(data.websites, clock)
  {
    log := [CsvHeader];
    data := Report(0, 0, 0, []);
    var urls := SliceTo(websites, maxWebsites);
    var i := 0;
    while i < |urls|
      invariant 0 <= i <= |urls| && data.totalChecked == i
      invariant data == ReportOf(urls[..i], probe, fetchPage, visit)
      invariant data.withContact < maxContacts || data.withContact == 0
      invariant data.withContact <= if maxContacts >= 1 then maxContacts else 1
      invariant log == [CsvHeader] + LoggedRows(data.websites, clock)
    {
      var url := urls[i];
      assert urls[..i + 1] == urls[..i] + [url];
      var listed;
      data, log, listed := CheckNext(data, log, url, urls[..i], probe, fetchPage, visit, clock);
      i := i + 1;
      if listed && data.withContact >= maxContacts {
        break;
      }
    }
  }
}
