/**
  The business-hours variant (`scraper.py`): keep the time zones whose local
  hour lies in the business window, search for companies in the United
  Kingdom and then in each kept zone's location, and log every site whose
  page yields an email or a phone number, until enough contacts are found.

  The world outside the script is given as functions: `localHour` is the
  current hour in a zone (`None` when the zone cannot be resolved),
  `search` the URLs the search engine returns for a query, `scanPage` the
  regular-expression matches in a site's text (`None` when fetching or
  parsing fails) and `clock` the timestamp written with the k-th log line.
*/
module Scraper {
  import opened Options
  import opened PyStr
  import opened Web

  // ===========================================================================
  // Regions and location names
  // ===========================================================================

  /** `ENGLISH_SPEAKING_REGIONS`. */
  const EnglishSpeakingRegions: seq<string> := [
    "Europe/London", "Europe/Dublin",
    "America/New_York", "America/Chicago", "America/Denver", "America/Los_Angeles",
    "America/Toronto", "America/Winnipeg", "America/Edmonton", "America/Vancouver",
    "Australia/Sydney", "Australia/Adelaide", "Australia/Perth", "Pacific/Auckland",
    "America/Jamaica", "America/Barbados", "America/Nassau", "America/Port_of_Spain",
    "Africa/Johannesburg", "Africa/Lagos", "Africa/Nairobi", "Africa/Accra",
    "Asia/Singapore", "Asia/Hong_Kong", "Asia/Manila",
    "Europe/Amsterdam", "Europe/Stockholm", "Europe/Oslo", "Europe/Copenhagen",
    "Europe/Berlin", "Europe/Zurich", "Asia/Dubai"
  ]

  /** The `timezone_mapping` dictionary of `get_location_name`. */
  const TimezoneMapping: map<string, string> := map[
    "Europe/London" := "United Kingdom",
    "Europe/Dublin" := "Ireland",
    "America/New_York" := "Eastern USA",
    "America/Chicago" := "Central USA",
    "America/Denver" := "Mountain USA",
    "America/Los_Angeles" := "Western USA",
    "America/Toronto" := "Eastern Canada",
    "America/Winnipeg" := "Central Canada",
    "America/Edmonton" := "Western Canada",
    "America/Vancouver" := "Western Canada",
    "Australia/Sydney" := "Eastern Australia",
    "Australia/Adelaide" := "Central Australia",
    "Australia/Perth" := "Western Australia",
    "Pacific/Auckland" := "New Zealand",
    "America/Jamaica" := "Jamaica",
    "America/Barbados" := "Barbados",
    "America/Nassau" := "Bahamas",
    "America/Port_of_Spain" := "Trinidad and Tobago",
    "Africa/Johannesburg" := "South Africa",
    "Africa/Lagos" := "Nigeria",
    "Africa/Nairobi" := "Kenya",
    "Africa/Accra" := "Ghana",
    "Asia/Singapore" := "Singapore",
    "Asia/Hong_Kong" := "Hong Kong",
    "Asia/Manila" := "Philippines",
    "Europe/Amsterdam" := "Netherlands",
    "Europe/Stockholm" := "Sweden",
    "Europe/Oslo" := "Norway",
    "Europe/Copenhagen" := "Denmark",
    "Europe/Berlin" := "Germany",
    "Europe/Zurich" := "Switzerland",
    "Asia/Dubai" := "UAE"
  ]

  const UnitedKingdom: string := "United Kingdom"

  /** The text after the last `/` of a zone name (`tz.split('/')[-1]`). */
  function LastSegment(tz: string): (r: string)
    ensures '/' !in r
  {
    var parts := Split(tz, '/');
    parts[|parts| - 1]
  }

  /** `get_location_name`: the table's name for a known zone; otherwise the
      last `/`-separated segment of the zone name, underscores made spaces. */
  function GetLocationName(tz: string): string {
    if tz in TimezoneMapping then TimezoneMapping[tz]
    else
      var location := if '/' in tz then LastSegment(tz) else tz;
      ReplaceChar(location, '_', ' ')
  }

  /** A zone outside the table is named after the text following its last
      `/` (the whole name when it has none), with every underscore made a
      space. */
  lemma LocationNameFallback(tz: string)
    requires tz !in TimezoneMapping
    ensures var r := GetLocationName(tz);
      && '_' !in r && '/' !in r
      && ('/' !in tz ==> r == ReplaceChar(tz, '_', ' '))
      && ('/' in tz ==> exists j :: 0 <= j < |tz| && tz[j] == '/' && '/' !in tz[j + 1..]
                                   && r == ReplaceChar(tz[j + 1..], '_', ' '))
  {
    var r := GetLocationName(tz);
    if '/' in tz {
      SplitManyIffSeparator(tz, '/');
      var j := SplitLastSeparator(tz, '/');
      assert tz[j + 1..] == LastSegment(tz);
      assert r == ReplaceChar(tz[j + 1..], '_', ' ');
    }
    assert forall k :: 0 <= k < |r| ==> r[k] != '/';
    assert forall k :: 0 <= k < |r| ==> r[k] != '_';
  }

  /** Every English-speaking region has an entry in the table. */
  lemma EnglishRegionsMapped()
    ensures forall tz :: tz in EnglishSpeakingRegions ==> tz in TimezoneMapping
  {
  }

  // ===========================================================================
  // get_time_zones_in_range
  // ===========================================================================

  /** `collect_business_contacts` asks for the window from 7:00 to 14:00. */
  const BusinessStartHour := 7
  const BusinessEndHour := 14

  /** The zones examined: the English-speaking regions, or every zone
      (`pytz.all_timezones`, given as `allZones`). */
  function ZonesToCheck(englishOnly: bool, allZones: seq<string>): seq<string> {
    if englishOnly then EnglishSpeakingRegions else allZones
  }

  /** One zone's fate: kept when its hour is known and in the window. */
  function KeepInWindow(tz: string, localHour: string -> Option<int>, startHour: int, endHour: int): Option<string> {
    match localHour(tz)
    case None => None
    case Some(hour) => if startHour <= hour <= endHour then Some(tz) else None
  }

  /** The zones `get_time_zones_in_range` returns, in the order examined. */
  function ZonesInRange(zones: seq<string>, localHour: string -> Option<int>, startHour: int, endHour: int): (r: seq<string>)
    ensures |r| <= |zones|
  {
    FilterMap(zones, tz => KeepInWindow(tz, localHour, startHour, endHour))
  }

  /** A zone is returned exactly when it is examined, its hour is known, and
      the hour lies in the window, both ends included. */
  lemma ZonesInRangeMembership(zones: seq<string>, localHour: string -> Option<int>, startHour: int, endHour: int, tz: string)
    ensures tz in ZonesInRange(zones, localHour, startHour, endHour) <==>
      tz in zones && localHour(tz).Some? && startHour <= localHour(tz).value <= endHour
  {
    var f := z => KeepInWindow(z, localHour, startHour, endHour);
    FilterMapComplete(zones, f, tz);
    if tz in ZonesInRange(zones, localHour, startHour, endHour) {
      var k :| 0 <= k < |zones| && f(zones[k]) == Some(tz);
      assert zones[k] == tz;
    }
    if tz in zones && localHour(tz).Some? && startHour <= localHour(tz).value <= endHour {
      var k :| 0 <= k < |zones| && zones[k] == tz;
      assert f(zones[k]) == Some(tz);
    }
  }

  /** The filter keeps the order of the zones: filtering two runs of zones
      one after the other gives the two results one after the other. */
  lemma {:induction false} ZonesInRangeAppend(a: seq<string>, b: seq<string>, localHour: string -> Option<int>, startHour: int, endHour: int)
    ensures ZonesInRange(a + b, localHour, startHour, endHour)
      == ZonesInRange(a, localHour, startHour, endHour) + ZonesInRange(b, localHour, startHour, endHour)
    decreases |b|
  {
    if b == [] {
      assert a + b == a;
    } else {
      var n := |b| - 1;
      ZonesInRangeAppend(a, b[..n], localHour, startHour, endHour);
      assert (a + b)[..|a + b| - 1] == a + b[..n];
      assert (a + b)[|a + b| - 1] == b[n];
    }
  }

  /** `get_time_zones_in_range`: the loop over the zones to check. */
  method GetTimeZonesInRange(startHour: int, endHour: int, englishOnly: bool, allZones: seq<string>,
                             localHour: string -> Option<int>)
    returns (valid: seq<string>)
    ensures valid == ZonesInRange(ZonesToCheck(englishOnly, allZones), localHour, startHour, endHour)
  {
    var zones := ZonesToCheck(englishOnly, allZones);
    valid := KeepZonesInWindow(zones, localHour, startHour, endHour);
  }

  /** The loop of `get_time_zones_in_range`: a zone whose hour cannot be
      found is skipped, the others are kept when in the window. */
  method KeepZonesInWindow(zones: seq<string>, localHour: string -> Option<int>, startHour: int, endHour: int)
    returns (valid: seq<string>)
    ensures valid == ZonesInRange(zones, localHour, startHour, endHour)
  {
    valid := [];
    for i := 0 to |zones|
      invariant valid == ZonesInRange(zones[..i], localHour, startHour, endHour)
    {
      assert zones[..i + 1][..i] == zones[..i];
      var tz := zones[i];
      var hour := localHour(tz);
      if hour.None? {
        continue;
      }
      if startHour <= hour.value <= endHour {
        valid := valid + [tz];
      }
    }
    assert zones[..|zones|] == zones;
  }

  // ===========================================================================
  // check_website_status
  // ===========================================================================

  /** `check_website_status`: the text describing one request's outcome. */
  function CheckWebsiteStatus(outcome: FetchOutcome): string {
    match outcome
    case Response(code, _) => if code == 200 then "OK" else "Error " + IntToString(code)
    case RequestFailed(message) => "Connection Failed: " + message
  }

  /** How a status text reads back. */
  datatype StatusReading = Ok | HttpError(code: int) | ConnectionFailed(message: string)

  /** The reading the status text is meant to convey. */
  function Reading(outcome: FetchOutcome): StatusReading {
    match outcome
    case Response(code, _) => if code == 200 then Ok else HttpError(code)
    case RequestFailed(message) => ConnectionFailed(message)
  }

  /** The three forms of status text never coincide, and each gives back
      the status code or the failure message it was made from: two
      outcomes give the same text exactly when they read the same. */
  lemma StatusTextDetermined(a: FetchOutcome, b: FetchOutcome)
    ensures CheckWebsiteStatus(a) == CheckWebsiteStatus(b) <==> Reading(a) == Reading(b)
  {
    var s, t := CheckWebsiteStatus(a), CheckWebsiteStatus(b);
    if s == t {
      assert s[0] == t[0];
      if Reading(a).HttpError? && Reading(b).HttpError? {
        assert s[6..] == IntToString(a.statusCode);
        assert t[6..] == IntToString(b.statusCode);
        IntToStringInjective(a.statusCode, b.statusCode);
      } else if Reading(a).ConnectionFailed? && Reading(b).ConnectionFailed? {
        assert s[19..] == a.message;
        assert t[19..] == b.message;
      }
    }
  }

  // ===========================================================================
  // extract_contact_info
  // ===========================================================================

  /** `extract_contact_info`: the first email that is not an image file
      name and the first phone number; neither when the page cannot be
      fetched. */
  function ExtractContactInfo(scan: Option<PageScan>): (Option<string>, Option<string>) {
    match scan
    case None => (None, None)
    case Some(page) => (FirstEmail(page.emails), FirstPhone(page.phones))
  }

  /** What the pair says about the page: an email is found exactly when some
      match is not an image file name, and then it is the first such match;
      a phone exactly when there is a phone match, and then the first. */
  lemma ExtractContactInfoSpec(scan: Option<PageScan>)
    ensures var (email, phone) := ExtractContactInfo(scan);
      && (email.Some? <==> scan.Some? && exists k :: 0 <= k < |scan.value.emails| && !IsImageName(scan.value.emails[k]))
      && (email.Some? ==> exists k :: FirstSurvivorAt(scan.value.emails, k) && scan.value.emails[k] == email.value)
      && (phone.Some? <==> scan.Some? && scan.value.phones != [])
      && (phone.Some? ==> phone.value == scan.value.phones[0])
  {
    if scan.Some? {
      FirstEmailSpec(scan.value.emails);
    }
  }

  // ===========================================================================
  // log_business_contact
  // ===========================================================================

  function EmailPart(email: Option<string>): string {
    if Truthy(email) then " | Email: " + email.value else ""
  }

  function PhonePart(phone: Option<string>): string {
    if Truthy(phone) then " | Phone: " + phone.value else ""
  }

  /** The line written for one contact. */
  function ContactLine(timestamp: string, url: string, location: string, email: Option<string>, phone: Option<string>): string {
    timestamp + " - " + url + " (Location: " + location + ")" + EmailPart(email) + PhonePart(phone) + "\n"
  }

  /** `log_business_contact` on the log file's writes so far: a line is
      appended, and true returned, exactly when there is an email or a phone. */
  function LogBusinessContact(log: seq<string>, url: string, location: string, email: Option<string>,
                              phone: Option<string>, timestamp: string): (r: (seq<string>, bool))
    ensures r.1 <==> Truthy(email) || Truthy(phone)
    ensures r.0 == if r.1 then log + [ContactLine(timestamp, url, location, email, phone)] else log
  {
    if Truthy(email) || Truthy(phone) then
      (log + [ContactLine(timestamp, url, location, email, phone)], true)
    else
      (log, false)
  }

  predicate NoNewline(s: string) {
    forall k :: 0 <= k < |s| ==> s[k] != '\n'
  }

  /** When none of its fields holds a line break, a contact line is exactly
      one line of the file: it ends with the only line break it holds. */
  lemma ContactLineIsOneLine(timestamp: string, url: string, location: string, email: Option<string>, phone: Option<string>)
    requires NoNewline(timestamp) && NoNewline(url) && NoNewline(location)
    requires email.Some? ==> NoNewline(email.value)
    requires phone.Some? ==> NoNewline(phone.value)
    ensures var line := ContactLine(timestamp, url, location, email, phone);
      && line != [] && line[|line| - 1] == '\n'
      && NoNewline(line[..|line| - 1])
      && StartsWith(line, timestamp + " - " + url + " (Location: " + location + ")")
  {
    var head := timestamp + " - " + url + " (Location: " + location + ")";
    var body := head + EmailPart(email) + PhonePart(phone);
    var line := ContactLine(timestamp, url, location, email, phone);
    assert line == body + "\n";
    assert NoNewline(head);
    assert NoNewline(EmailPart(email));
    assert NoNewline(PhonePart(phone));
    assert line[..|line| - 1] == body;
    assert line[..|head|] == head;
  }

  // ===========================================================================
  // collect_business_contacts
  // ===========================================================================

  /** One entry of `businesses_with_contacts`. */
  datatype Contact = Contact(website: string, location: string, email: Option<string>, phone: Option<string>)

  /** One call to the search engine. */
  datatype Query = Query(text: string, count: int)

  const HeaderPrefix: string := "# Business Contact Information - Generated "
  const FormatLine: string := "# Format: Timestamp - Website URL (Location) | Email: email@example.com | Phone: phone_number\n\n"

  /** The two header writes made when the log file is recreated. */
  function LogHeader(generatedAt: string): seq<string> {
    [HeaderPrefix + generatedAt + "\n", FormatLine]
  }

  /** The lines logged for a list of contacts, the k-th stamped `clock(k)`. */
  function ContactLines(contacts: seq<Contact>, clock: nat -> string): (lines: seq<string>)
    ensures |lines| == |contacts|
  {
    seq(|contacts|, k requires 0 <= k < |contacts| =>
      ContactLine(clock(k), contacts[k].website, contacts[k].location, contacts[k].email, contacts[k].phone))
  }

  lemma ContactLinesSnoc(contacts: seq<Contact>, c: Contact, clock: nat -> string)
    ensures ContactLines(contacts + [c], clock)
      == ContactLines(contacts, clock) + [ContactLine(clock(|contacts|), c.website, c.location, c.email, c.phone)]
  {
    assert (contacts + [c])[..|contacts|] == contacts;
  }

  /** The contact a site yields, if its page has an email or a phone. */
  function ContactOf(website: string, location: string, scanPage: string -> Option<PageScan>): Option<Contact> {
    var (email, phone) := ExtractContactInfo(scanPage(website));
    if Truthy(email) || Truthy(phone) then Some(Contact(website, location, email, phone)) else None
  }

  /** The contacts collected and the number of sites checked so far. */
  datatype Progress = Progress(contacts: seq<Contact>, checked: nat)

  /** One pass of a website loop: count the site, add its contact if any. */
  function Step(p: Progress, website: string, location: string, scanPage: string -> Option<PageScan>): Progress {
    match ContactOf(website, location, scanPage)
    case None => Progress(p.contacts, p.checked + 1)
    case Some(c) => Progress(p.contacts + [c], p.checked + 1)
  }

  /** A website loop over `sites`, leaving it as soon as `maxContacts`
      contacts are collected. */
  function ScanList(p: Progress, sites: seq<string>, location: string, maxContacts: int,
                    scanPage: string -> Option<PageScan>): Progress
    decreases |sites|
  {
    if sites == [] then p
    else
      var p1 := Step(p, sites[0], location, scanPage);
      if |p1.contacts| >= maxContacts then p1 else ScanList(p1, sites[1..], location, maxContacts, scanPage)
  }

  /** A whole run: the contacts, the sites checked, the searches made. */
  datatype Run = Run(contacts: seq<Contact>, checked: nat, queries: seq<Query>)

  /** The query for a location. */
  function QueryText(location: string): string {
    "companies in " + location
  }

  /** The zone loop from `p` on: stop once `maxContacts` contacts are
      collected, skip zones named "United Kingdom", and otherwise search for
      the zone's location and scan the sites found. Zones are named by
      `locationOf`, which a run sets to `GetLocationName`; what the loop
      promises holds whatever the names. */
  function ScanZones(p: Progress, zones: seq<string>, locationOf: string -> string, numResults: int, maxContacts: int,
                     search: Query -> seq<string>, scanPage: string -> Option<PageScan>): Run
    decreases |zones|
  {
    if zones == [] || |p.contacts| >= maxContacts then Run(p.contacts, p.checked, [])
    else
      var location := locationOf(zones[0]);
      if location == UnitedKingdom then ScanZones(p, zones[1..], locationOf, numResults, maxContacts, search, scanPage)
      else
        var q := Query(QueryText(location), numResults);
        var p1 := ScanList(p, search(q), location, maxContacts, scanPage);
        var r := ScanZones(p1, zones[1..], locationOf, numResults, maxContacts, search, scanPage);
        Run(r.contacts, r.checked, [q] + r.queries)
  }

  /** `collect_business_contacts` as a value, given the zones found in
      business hours: nothing when there is none; otherwise the United
      Kingdom search first, for three times as many results, then the zones
      while contacts are still needed. */
  function Collect(zones: seq<string>, numResults: int, maxContacts: int,
                   search: Query -> seq<string>, scanPage: string -> Option<PageScan>): Run
  {
    if zones == [] then Run([], 0, [])
    else
      var uk := Query(QueryText(UnitedKingdom), numResults * 3);
      var p := ScanList(Progress([], 0), search(uk), UnitedKingdom, maxContacts, scanPage);
      if |p.contacts| < maxContacts then
        var r := ScanZones(p, zones, GetLocationName, numResults, maxContacts, search, scanPage);
        Run(r.contacts, r.checked, [uk] + r.queries)
      else
        Run(p.contacts, p.checked, [uk])
  }

  // ---------------------------------------------------------------------------
  // Properties of a run
  // ---------------------------------------------------------------------------

  /** A collected contact: its email and phone are what the site's page
      yields, and at least one of them is non-empty. */
  predicate ValidContact(c: Contact, scanPage: string -> Option<PageScan>) {
    ContactOf(c.website, c.location, scanPage) == Some(c)
  }

  lemma ValidContactHasEmailOrPhone(c: Contact, scanPage: string -> Option<PageScan>)
    requires ValidContact(c, scanPage)
    ensures Truthy(c.email) || Truthy(c.phone)
    ensures (c.email, c.phone) == ExtractContactInfo(scanPage(c.website))
  {
  }

  /** What a website loop does to the contacts: it keeps those already
      collected and appends only valid contacts of the loop's location, at
      most one per site checked; it stops early only at `maxContacts`, and
      it never passes `maxContacts` when it starts below it. */
  lemma {:induction false} ScanListSpec(p: Progress, sites: seq<string>, location: string, maxContacts: int,
                                        scanPage: string -> Option<PageScan>)
    ensures var r := ScanList(p, sites, location, maxContacts, scanPage);
      && |p.contacts| <= |r.contacts| && r.contacts[..|p.contacts|] == p.contacts
      && (forall k :: |p.contacts| <= k < |r.contacts| ==>
            r.contacts[k].location == location && ValidContact(r.contacts[k], scanPage))
      && p.checked <= r.checked <= p.checked + |sites|
      && |r.contacts| - |p.contacts| <= r.checked - p.checked
      && (r.checked < p.checked + |sites| ==> |r.contacts| >= maxContacts)
      && (|p.contacts| < maxContacts ==> |r.contacts| <= maxContacts)
      && (sites != [] && |p.contacts| >= maxContacts ==> r.checked == p.checked + 1)
    decreases |sites|
  {
    if sites != [] {
      var p1 := Step(p, sites[0], location, scanPage);
      assert p1.contacts[..|p.contacts|] == p.contacts;
      if |p1.contacts| < maxContacts {
        ScanListSpec(p1, sites[1..], location, maxContacts, scanPage);
        var r := ScanList(p1, sites[1..], location, maxContacts, scanPage);
        assert r.contacts[..|p.contacts|] == r.contacts[..|p1.contacts|][..|p.contacts|];
      }
    }
  }

  /** The contacts of the zone loop: it keeps those already collected and
      appends only valid contacts whose location is not "United Kingdom", at
      most one per site checked; it adds nothing once `maxContacts` is
      reached and never passes it when it starts below it. */
  lemma {:induction false} ScanZonesContacts(p: Progress, zones: seq<string>, locationOf: string -> string, numResults: int,
                                             maxContacts: int, search: Query -> seq<string>, scanPage: string -> Option<PageScan>)
    ensures var r := ScanZones(p, zones, locationOf, numResults, maxContacts, search, scanPage);
      && |p.contacts| <= |r.contacts| && r.contacts[..|p.contacts|] == p.contacts
      && (forall k :: |p.contacts| <= k < |r.contacts| ==>
            r.contacts[k].location != UnitedKingdom && ValidContact(r.contacts[k], scanPage))
      && p.checked <= r.checked
      && |r.contacts| - |p.contacts| <= r.checked - p.checked
      && (|p.contacts| >= maxContacts ==> r == Run(p.contacts, p.checked, []))
      && (|p.contacts| < maxContacts ==> |r.contacts| <= maxContacts)
    decreases |zones|
  {
    if zones != [] && |p.contacts| < maxContacts {
      var location := locationOf(zones[0]);
      if location == UnitedKingdom {
        ScanZonesContacts(p, zones[1..], locationOf, numResults, maxContacts, search, scanPage);
      } else {
        var q := Query(QueryText(location), numResults);
        var p1 := ScanList(p, search(q), location, maxContacts, scanPage);
        ScanListSpec(p, search(q), location, maxContacts, scanPage);
        ScanZonesContacts(p1, zones[1..], locationOf, numResults, maxContacts, search, scanPage);
        var r := ScanZones(p1, zones[1..], locationOf, numResults, maxContacts, search, scanPage);
        assert r.contacts[..|p.contacts|] == r.contacts[..|p1.contacts|][..|p.contacts|];
        assert forall k :: |p.contacts| <= k < |p1.contacts| ==> r.contacts[k] == p1.contacts[k];
      }
    }
  }

  /** Every search in `queries` asks for `numResults` results for a
      location other than "United Kingdom". */
  predicate AwayFromUnitedKingdom(queries: seq<Query>, numResults: int) {
    forall k :: 0 <= k < |queries| ==>
      queries[k].count == numResults && queries[k].text != QueryText(UnitedKingdom)
  }

  /** The searches of the zone loop: each asks for `numResults` results for
      a location other than "United Kingdom". */
  lemma {:induction false} ScanZonesQueries(p: Progress, zones: seq<string>, locationOf: string -> string, numResults: int,
                                            maxContacts: int, search: Query -> seq<string>, scanPage: string -> Option<PageScan>)
    ensures AwayFromUnitedKingdom(ScanZones(p, zones, locationOf, numResults, maxContacts, search, scanPage).queries, numResults)
    decreases |zones|
  {
    if zones != [] && |p.contacts| < maxContacts {
      var location := locationOf(zones[0]);
      if location == UnitedKingdom {
        ScanZonesQueries(p, zones[1..], locationOf, numResults, maxContacts, search, scanPage);
      } else {
        var q := Query(QueryText(location), numResults);
        var p1 := ScanList(p, search(q), location, maxContacts, scanPage);
        ScanZonesQueries(p1, zones[1..], locationOf, numResults, maxContacts, search, scanPage);
        var r := ScanZones(p1, zones[1..], locationOf, numResults, maxContacts, search, scanPage);
        QueryTextInjective(location, UnitedKingdom);
        var qs := [q] + r.queries;
        assert forall k :: 1 <= k < |qs| ==> qs[k] == r.queries[k - 1];
      }
    }
  }

  /** Different locations give different queries. */
  lemma QueryTextInjective(a: string, b: string)
    requires a != b
    ensures QueryText(a) != QueryText(b)
  {
    assert a == QueryText(a)[13..];
    assert b == QueryText(b)[13..];
  }

  /** The first `n` contacts are located in the United Kingdom and the
      others are not. */
  predicate UnitedKingdomFirst(contacts: seq<Contact>, n: int) {
    && 0 <= n <= |contacts|
    && (forall k :: 0 <= k < n ==> contacts[k].location == UnitedKingdom)
    && (forall k :: n <= k < |contacts| ==> contacts[k].location != UnitedKingdom)
  }

  /** The searches of `collect_business_contacts`: with no zone in business
      hours nothing is searched and nothing collected; otherwise the first
      search is for the United Kingdom with three times the results, and
      every later one is for another location with `numResults` results. */
  lemma CollectQueries(zones: seq<string>, numResults: int, maxContacts: int,
                       search: Query -> seq<string>, scanPage: string -> Option<PageScan>)
    ensures var r := Collect(zones, numResults, maxContacts, search, scanPage);
      && (zones == [] <==> r.queries == [])
      && (zones == [] ==> r == Run([], 0, []))
      && (zones != [] ==> r.queries[0] == Query(QueryText(UnitedKingdom), numResults * 3))
      && (zones != [] ==> AwayFromUnitedKingdom(r.queries[1..], numResults))
  {
    if zones != [] {
      var uk := Query(QueryText(UnitedKingdom), numResults * 3);
      var p := ScanList(Progress([], 0), search(uk), UnitedKingdom, maxContacts, scanPage);
      if |p.contacts| < maxContacts {
        ScanZonesQueries(p, zones, GetLocationName, numResults, maxContacts, search, scanPage);
        var r := ScanZones(p, zones, GetLocationName, numResults, maxContacts, search, scanPage);
        var run := Run(r.contacts, r.checked, [uk] + r.queries);
        assert Collect(zones, numResults, maxContacts, search, scanPage) == run;
        assert run.queries[1..] == r.queries;
      }
    }
  }

  /** The contacts of `collect_business_contacts`: every one is a valid
      contact (so it has an email or a phone), the United Kingdom ones come
      first and no later one is located in the United Kingdom, each comes
      from a site checked, and the list never passes `maxContacts` when that
      is positive (one contact at most otherwise). */
  lemma CollectContacts(zones: seq<string>, numResults: int, maxContacts: int,
                        search: Query -> seq<string>, scanPage: string -> Option<PageScan>)
    ensures var r := Collect(zones, numResults, maxContacts, search, scanPage);
      && (forall k :: 0 <= k < |r.contacts| ==> ValidContact(r.contacts[k], scanPage))
      && (exists n :: UnitedKingdomFirst(r.contacts, n))
      && |r.contacts| <= r.checked
      && |r.contacts| <= (if maxContacts >= 1 then maxContacts else 1)
  {
    if zones != [] {
      var uk := Query(QueryText(UnitedKingdom), numResults * 3);
      var p := ScanList(Progress([], 0), search(uk), UnitedKingdom, maxContacts, scanPage);
      ScanListSpec(Progress([], 0), search(uk), UnitedKingdom, maxContacts, scanPage);
      if |p.contacts| < maxContacts {
        ScanZonesContacts(p, zones, GetLocationName, numResults, maxContacts, search, scanPage);
        var r := ScanZones(p, zones, GetLocationName, numResults, maxContacts, search, scanPage);
        assert forall k :: 0 <= k < |p.contacts| ==> r.contacts[k] == p.contacts[k];
        assert UnitedKingdomFirst(r.contacts, |p.contacts|);
      } else {
        assert Collect(zones, numResults, maxContacts, search, scanPage).contacts == p.contacts;
        assert UnitedKingdomFirst(p.contacts, |p.contacts|);
      }
    } else {
      assert Collect(zones, numResults, maxContacts, search, scanPage).contacts == [];
      assert UnitedKingdomFirst([], 0);
    }
  }

  // ---------------------------------------------------------------------------
  // The loops
  // ---------------------------------------------------------------------------

  /** A website loop (scraper.py lines 243-261 for the United Kingdom,
      281-299 for a zone): check each site, log and keep its contact when it has one, and
      leave once `maxContacts` contacts are collected. */
  method ScanSites(p: Progress, log: seq<string>, sites: seq<string>, location: string, maxContacts: int,
                   scanPage: string -> Option<PageScan>, clock: nat -> string, ghost header: seq<string>)
    returns (p': Progress, log': seq<string>)
    ensures p' == ScanList(p, sites, location, maxContacts, scanPage)
    ensures log == header + ContactLines(p.contacts, clock) ==> log' == header + ContactLines(p'.contacts, clock)
  {
    p', log' := p, log;
    var i := 0;
    while i < |sites|
      invariant 0 <= i <= |sites|
      invariant ScanList(p', sites[i..], location, maxContacts, scanPage) == ScanList(p, sites, location, maxContacts, scanPage)
      invariant log == header + ContactLines(p.contacts, clock) ==> log' == header + ContactLines(p'.contacts, clock)
    {
      ghost var before := p';
      var website := sites[i];
      assert sites[i..][0] == website && sites[i..][1..] == sites[i + 1..];
      var contacts := p'.contacts;
      var (email, phone) := ExtractContactInfo(scanPage(website));
      if Truthy(email) || Truthy(phone) {
        var (log'', written) := LogBusinessContact(log', website, location, email, phone, clock(|contacts|));
        log' := log'';
        if written {
          var c := Contact(website, location, email, phone);
          ContactLinesSnoc(contacts, c, clock);
          contacts := contacts + [c];
        }
      }
      p' := Progress(contacts, p'.checked + 1);
      assert p' == Step(before, website, location, scanPage);
      if |p'.contacts| >= maxContacts {
        break;
      }
      i := i + 1;
    }
  }

  /** The zone loop (scraper.py lines 266-299), naming zones with `locationOf`. */
  method ScanTimeZones(p: Progress, log: seq<string>, zones: seq<string>, locationOf: string -> string, numResults: int, maxContacts: int,
                       search: Query -> seq<string>, scanPage: string -> Option<PageScan>, clock: nat -> string,
                       ghost header: seq<string>)
    returns (p': Progress, log': seq<string>, queries: seq<Query>)
    ensures Run(p'.contacts, p'.checked, queries) == ScanZones(p, zones, locationOf, numResults, maxContacts, search, scanPage)
    ensures log == header + ContactLines(p.contacts, clock) ==> log' == header + ContactLines(p'.contacts, clock)
  {
    p', log', queries := p, log, [];
    var z := 0;
    while z < |zones|
      invariant 0 <= z <= |zones|
      invariant var r := ScanZones(p', zones[z..], locationOf, numResults, maxContacts, search, scanPage);
        Run(r.contacts, r.checked, queries + r.queries) == ScanZones(p, zones, locationOf, numResults, maxContacts, search, scanPage)
      invariant log == header + ContactLines(p.contacts, clock) ==> log' == header + ContactLines(p'.contacts, clock)
    {
      assert zones[z..][0] == zones[z] && zones[z..][1..] == zones[z + 1..];
      if |p'.contacts| >= maxContacts {
        break;
      }
      var location := locationOf(zones[z]);
      if location == UnitedKingdom {
        z := z + 1;
        continue;
      }
      var query := Query(QueryText(location), numResults);
      var websites := search(query);
      ghost var before := p';
      p', log' := ScanSites(p', log', websites, location, maxContacts, scanPage, clock, header);
      ghost var r := ScanZones(p', zones[z + 1..], locationOf, numResults, maxContacts, search, scanPage);
      assert ScanZones(before, zones[z..], locationOf, numResults, maxContacts, search, scanPage)
        == Run(r.contacts, r.checked, [query] + r.queries);
      assert (queries + [query]) + r.queries == queries + ([query] + r.queries);
      queries := queries + [query];
      z := z + 1;
    }
  }

  /** `collect_business_contacts`. `log` is the log file's writes before the
      run; the run recreates the file unless no zone is in business hours. */
  method CollectBusinessContacts(numResults: int, maxContacts: int, englishOnly: bool, allZones: seq<string>,
                                 localHour: string -> Option<int>, search: Query -> seq<string>,
                                 scanPage: string -> Option<PageScan>, generatedAt: string, clock: nat -> string,
                                 log: seq<string>)
    returns (contacts: seq<Contact>, checked: nat, queries: seq<Query>, log': seq<string>)
    ensures Run(contacts, checked, queries) == Collect(ZonesInRange(ZonesToCheck(englishOnly, allZones), localHour, BusinessStartHour, BusinessEndHour),
                                                       numResults, maxContacts, search, scanPage)
    ensures queries == [] ==> log' == log
    ensures queries != [] ==> log' == LogHeader(generatedAt) + ContactLines(contacts, clock)
  {
    var validZones := GetTimeZonesInRange(BusinessStartHour, BusinessEndHour, englishOnly, allZones, localHour);
    if validZones == [] {
      return [], 0, [], log;
    }
    var header := LogHeader(generatedAt);
    log' := header;
    assert log' == header + ContactLines([], clock);
    var ukQuery := Query(QueryText(UnitedKingdom), numResults * 3);
    var ukWebsites := search(ukQuery);
    queries := [ukQuery];
    var p;
    p, log' := ScanSites(Progress([], 0), log', ukWebsites, UnitedKingdom, maxContacts, scanPage, clock, header);
    if |p.contacts| < maxContacts {
      var more;
      p, log', more := ScanTimeZones(p, log', validZones, GetLocationName, numResults, maxContacts, search, scanPage, clock, header);
      queries := queries + more;
    }
    contacts, checked := p.contacts, p.checked;
  }
}
