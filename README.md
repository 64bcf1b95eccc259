# business_scraper: the decision logic of the two collectors, in Dafny

This project models the two scripts of the business_scraper repository.

- `broken_website_collector.py` probes candidate company websites. It classifies each one as working or broken. For every broken site it extracts a company name, an email address and a phone number, looking at up to two "contact"/"about" pages when the home page lacks one. It appends a CSV row per broken site that has an email or a phone, and stops once it has collected enough of them.
- `scraper.py` keeps the time zones whose local hour lies in the 7:00–14:00 window. It searches for companies first in the United Kingdom and then in the location of each kept zone. It logs one line per site whose page yields an email or a phone, and stops at `max_contacts`.

The network, the search engine, the HTML parser, the regular-expression engine and the clocks are the world outside the scripts. The model receives what they produce as parameters:

- a `FetchOutcome` per URL: a response code and reason, or an exception message;
- a parsed page per URL: its title, its email and phone matches, and its hrefs;
- a `PageScan` (email and phone matches) per secondary-page URL;
- the local hour per zone;
- the URLs a search returns, per query;
- the timestamp written with the k-th log row.

The files make up five modules:

- `Options` (`options.dfy`): the optional value of a Python variable that may be `None`, Python truthiness of such a string, and the filter-and-map shape of the loops that append under a condition.
- `PyStr` (`pystr.dfy`): the Python string operations the scripts use. These are `split`, `'/'.join`, `replace`, `strip`, `lower`, `capitalize` and `str(int)`, with their edge cases.
- `Web` (`web.dfy`): what both scripts share. This is the outcome of a request, the matches found in a page, and the choice of the first email that is not an image file name and the first phone number.
- `BrokenWebsiteCollector` (`broken_website_collector.dfy`): `broken_website_collector.py`.
- `Scraper` (`scraper.dfy`): `scraper.py`.

How the source's forms are modelled:

- Pure helpers are functions with lemmas.
- Each loop that changes variables step by step is a method with a `while`/`for` loop, proved equal to a recursive specification function. The properties of that function are then proved as lemmas. Examples:
  - the `contact_links` loop and the two-page visit loop with its `break`;
  - the time-zone filter;
  - the website loops and the zone loop of `collect_business_contacts`;
  - the run loop of `find_broken_websites_with_contacts`.
- The run loop's `broken_websites_data` dictionary is a `Report` value that the method reassigns field by field. It is local to the run and never aliased.
- The log files are sequences that the methods extend: CSV rows for the collector, written text pieces for the scraper.

Three behaviours of the code are worth stating outright, and the model keeps them:

- The title is cut only at a space, a pipe and a space (` \| .*$`), and only where no line break follows it.
- Neither script tests the contact cap before the first website. The collector tests it only after listing a site. The scraper tests it after every website and before each zone. Either way a cap below 1 still lets one row or contact through. `FindBrokenWebsitesWithContacts` and `CollectContacts` state that bound.
- `collect_business_contacts` leaves the log file untouched when no zone is in the business window. `CollectBusinessContacts` states that.

## Model

| member | source | states |
|---|---|---|
| BrokenWebsiteCollector.CheckWebsiteStatus | broken_website_collector.py:63-90 | A response is Broken exactly when its code is of the 4xx/5xx class (400 ≤ code < 600), and Working otherwise. The code and reason are always passed through. A request exception is Broken, with code "Connection Error" and the exception text as the reason. |
| BrokenWebsiteCollector.Host | broken_website_collector.py:99 | The host is a prefix of the URL with every "http://" and then every "https://" removed. It holds no '/', and the character after it, if any, is a '/'. So it is that text cut before its first '/'. |
| BrokenWebsiteCollector.FallbackName | broken_website_collector.py:99-101 | The URL yields a name exactly when its host contains a '.' (at least two labels). |
| BrokenWebsiteCollector.FallbackNameIsSecondLevelLabel | broken_website_collector.py:99-101 | The name is the capitalised label between the host's last two dots (or between its start and its only dot). |
| BrokenWebsiteCollector.TitleSuffixesExclusive | broken_website_collector.py:117 | No text ends with two of " - Home", " - Official Website", " - Official Site", so the substitution removes at most one of them. |
| BrokenWebsiteCollector.DropTitleSuffixSpec | broken_website_collector.py:117 | The title is unchanged exactly when, before a final newline (where `$` can match), it ends with none of the three endings. Otherwise the one it ends with is cut there. |
| BrokenWebsiteCollector.FirstPipeMatch | broken_website_collector.py:118 | The leftmost index from which the pattern matches: a space, a pipe and a space, with no line break after them. No earlier index matches. |
| BrokenWebsiteCollector.CleanTitleSingleLine | broken_website_collector.py:114-118 | For a title whose stripped text has no line break, so also for one whose text sits on its own line between the tags, the stripped title loses at most one ending. The name is then the prefix before the first occurrence of a space, a pipe and a space. It equals that title exactly when there is no such occurrence. |
| BrokenWebsiteCollector.Origin | broken_website_collector.py:148 | `'/'.join(url.split('/')[:3])` is a prefix of the URL. It is the whole URL when the URL holds at most two '/'. Otherwise it holds exactly two '/' and the URL continues with a '/', so it is the URL up to its third '/'. |
| BrokenWebsiteCollector.OriginDetermined | broken_website_collector.py:148 | Any prefix of the URL with those properties is the origin, so they determine the value. |
| BrokenWebsiteCollector.ResolveContactLinkSpec | broken_website_collector.py:141-149 | An href is kept exactly when its lower-cased form contains "contact" or "about" and starts with "http" or "/". An absolute link is the lower-cased href itself. Otherwise the href starts with "/" and the link is the URL's origin followed by the lower-cased href. Either way the link still holds the keyword. |
| BrokenWebsiteCollector.ContactLinksComplete | broken_website_collector.py:140-149 | A link is collected exactly when some href resolves to it. |
| BrokenWebsiteCollector.CollectContactLinks | broken_website_collector.py:140-149 | The append loop produces exactly the links specified, in document order. |
| BrokenWebsiteCollector.ScanContactPage | broken_website_collector.py:158-169 | A secondary page fills only the missing fields. It uses its first non-image email and its first phone, and never overwrites a field already found. |
| BrokenWebsiteCollector.VisitPages | broken_website_collector.py:151-175 | The pages requested are a prefix of the links. Stopping before the end means both fields are found. Found fields are kept. A found email is still not an image file name. |
| BrokenWebsiteCollector.VisitPagesSkipsFailures | broken_website_collector.py:153-175 | A page whose fetch raised is skipped: when every page requested failed, the fields are those the loop started with. |
| BrokenWebsiteCollector.VisitPagesFillsEmail | broken_website_collector.py:158-163 | A missing email becomes the first non-image email of the first page read that yields a non-empty one. With no such page the email stays empty. With no page yielding any email it stays as it was. |
| BrokenWebsiteCollector.VisitPagesFillsPhone | broken_website_collector.py:165-169 | A missing phone becomes the first phone match of the first page read that yields a non-empty one. With no such page the phone stays empty. With no page yielding any match it stays as it was. |
| BrokenWebsiteCollector.VisitPagesStopsWhenComplete | broken_website_collector.py:171-173 | Before each request except the first, the pages read so far had not completed both fields. |
| BrokenWebsiteCollector.VisitContactPages | broken_website_collector.py:151-175 | The loop over `contact_links[:2]`, with its `break` and `continue`, computes the fields the specification gives. |
| BrokenWebsiteCollector.ContactInfoOf | broken_website_collector.py:92-187 | The email returned is never an image file name. |
| BrokenWebsiteCollector.ContactInfoFallback | broken_website_collector.py:108-178 | When the page fails, the URL name is kept and there is no email and no phone. Otherwise a field found on the main page is kept. At most two linked pages are requested, in link order, and none when both fields are found. |
| BrokenWebsiteCollector.AcmeScenario | broken_website_collector.py:92-187 | A page titled "Acme Co - Home" with one email and one phone yields the name "Acme Co" with that email and that phone. |
| BrokenWebsiteCollector.ExtractContactInfo | broken_website_collector.py:92-187 | The statement-by-statement extraction equals its specification `ContactInfoOf`. |
| BrokenWebsiteCollector.BrokenWebsiteRowFields | broken_website_collector.py:200-208 | The row holds the URL, the reason and the timestamp. Its "Status Code" cell reads back as the code. "Unknown"/"Not found" appear exactly where the field is missing or empty, or is that very text. |
| BrokenWebsiteCollector.CodeTextReadsBack | broken_website_collector.py:203 | The status code cell is decodable: parsing its text gives back the code or "Connection Error". |
| BrokenWebsiteCollector.LogBrokenWebsite | broken_website_collector.py:189-208 | A missing file gets the header and then the row. An existing file gets the row appended. |
| BrokenWebsiteCollector.CheckOne | broken_website_collector.py:264-300 | One pass counts the site as checked and counts it as broken when it is. A site is listed exactly when it is broken and has an email or a phone. |
| BrokenWebsiteCollector.ReportOfValid | broken_website_collector.py:252-300 | Every reachable report keeps the invariant: broken ≤ checked, `with_contact` = number listed ≤ broken, and each listed site is broken and has a contact. |
| BrokenWebsiteCollector.CheckOneKeepsValid | broken_website_collector.py:264-300 | One loop pass preserves the report invariant. |
| BrokenWebsiteCollector.CheckWebsite | broken_website_collector.py:265-295 | The loop body updates the dictionary as the specification says. It appends a row to the log exactly when it lists the site. |
| BrokenWebsiteCollector.FindBrokenWebsitesWithContacts | broken_website_collector.py:238-307 | The run equals the specification over the checked prefix of `websites[:max_websites]`. It checks at most `max_websites` sites. It stops early only right after the contact counter reaches the cap, which it never passes. The log is the header followed by one row per listed site. |
| Web.DropImageNamesSpec | broken_website_collector.py:128 | The filter keeps exactly the matches not ending in ".png", ".jpg" or ".gif". |
| Web.FirstEmailSpec | broken_website_collector.py:126-130 | No email is chosen exactly when every match is an image file name. Otherwise the chosen email is the first match that is not. |
| Web.FirstPhone | broken_website_collector.py:134-136 | A phone is chosen exactly when there is a match, and it is the first one. |
| Options.FilterMapComplete | scraper.py:73-89 | A value is produced exactly when some element is given it. This is the basis of the zone filter's membership lemma. |
| PyStr.JoinSplit | broken_website_collector.py:148 | Joining the split parts of a string gives the string back. |
| PyStr.SplitJoin | broken_website_collector.py:148 | Splitting a join of parts that hold no separator gives the parts back, so split and join are inverse in both directions. |
| PyStr.SplitManyIffSeparator | scraper.py:208-209 | `split` gives more than one part exactly when the separator occurs. |
| PyStr.IntToStringRoundTrip | broken_website_collector.py:203 | Parsing `str(n)` gives `n` back. |
| Scraper.LocationNameFallback | scraper.py:203-216 | An unmapped zone's name is the text after its last '/' (the whole name when it has none), with every '_' made a space. |
| Scraper.EnglishRegionsMapped | scraper.py:13-61 | Every English-speaking region has an entry in the location table at lines 168-201. |
| Scraper.ZonesInRangeMembership | scraper.py:73-89 | A zone is returned exactly when it is examined, its hour is known, and start ≤ hour ≤ end (both ends inclusive). A zone whose hour cannot be found is skipped. |
| Scraper.ZonesInRangeAppend | scraper.py:73-89 | The filter preserves the order of the zones. |
| Scraper.KeepZonesInWindow | scraper.py:73-89 | The loop with its `continue` computes exactly the filtered zones. |
| Scraper.GetTimeZonesInRange | scraper.py:63-89 | The function filters the English-speaking regions, or every zone. |
| Scraper.StatusTextDetermined | scraper.py:136-148 | "OK" is returned exactly for code 200, "Error N" for any other code, and "Connection Failed: message" on an exception. Two outcomes give the same text exactly when they read the same. |
| Scraper.ExtractContactInfoSpec | scraper.py:101-134 | An email is returned exactly when the page was read and some match is not an image file name, and it is the first such match. A phone is returned exactly when there is a match, and it is the first one. A failed page yields neither. |
| Scraper.LogBusinessContact | scraper.py:150-163 | A line is appended, and true is returned, exactly when the email or the phone is non-empty. Otherwise nothing is written. |
| Scraper.ContactLineIsOneLine | scraper.py:155-161 | When the timestamp, URL, location, email and phone hold no line break, a contact line starts with `timestamp - url (Location: loc)` and ends with its only line break. |
| Scraper.ContactLinesSnoc | scraper.py:161 | Logging one more contact appends its line to the log. |
| Scraper.ValidContactHasEmailOrPhone | scraper.py:252-255 | Every collected contact has a non-empty email or phone, taken from the site's page. |
| Scraper.ScanListSpec | scraper.py:243-261 | A website loop keeps the contacts collected before it. It appends only valid contacts of its location, at most one per site checked. It leaves early only at `max_contacts`, and never passes that cap when it starts below it. |
| Scraper.ScanZonesContacts | scraper.py:264-299 | The zone loop keeps earlier contacts. It appends only valid contacts located outside the United Kingdom, and adds nothing once the cap is reached. |
| Scraper.ScanZonesQueries | scraper.py:271-279 | Every zone search asks for `num_results` results for a location other than "United Kingdom". |
| Scraper.QueryTextInjective | scraper.py:276 | Different locations give different queries. |
| Scraper.CollectQueries | scraper.py:220-279 | With no zone in the window, nothing is searched or collected. Otherwise the first search is "companies in United Kingdom" for `num_results*3` results, and every later one is for another location. |
| Scraper.CollectContacts | scraper.py:226-299 | Every contact collected is valid. The United Kingdom contacts come first and none follows a non-UK one. There are at most as many contacts as sites checked, and at most `max_contacts` of them (one when the cap is below 1). |
| Scraper.ScanSites | scraper.py:243-261 | The website loop equals its specification. The log stays the header plus one line per contact. |
| Scraper.ScanTimeZones | scraper.py:266-299 | The zone loop, with its `break` and its `continue` on "United Kingdom", equals its specification and keeps the log in step. |
| Scraper.CollectBusinessContacts | scraper.py:218-314 | The run equals `Collect` over the zones found in the window. With no such zone the log file is left untouched. Otherwise it is recreated: the two header writes, then one line per contact in order. |

## Left out

- HTTP requests, Google search, BeautifulSoup parsing and `get_text` are foreign code. Their results are parameters.
- The email and phone regular expressions are left out: each page's list of matches is given.
- `datetime.utcnow`, `pytz` time-zone resolution and timestamp formatting are left out. The local hour per zone and the timestamp per row are parameters.
- `time.sleep`, every `print` and the `__main__` blocks are left out. They have no effect on the results.
- `random.shuffle` in `find_broken_websites_with_contacts` is left out. The run takes the candidate URLs in whatever order it is given, so every shuffle is covered.
- `get_company_websites` is left out in both scripts.
  - In `scraper.py` it is the `search` parameter: the URLs a query returns. The list gathered before an exception stands for a failed search.
  - In `broken_website_collector.py` it runs the fifteen fixed queries. A query whose search raises contributes none of its results, and the next query is tried. The run takes the concatenated result list as its `websites` parameter.
- `create_summary` (broken_website_collector.py:210-236) is left out. It only formats text that the report already determines.
- CSV quoting by `csv.DictWriter` is left out. A row is the sequence of its cell values.
- Files are not modelled as a file system. The collector's CSV log is a sequence of rows. The scraper's log is the sequence of strings written to it. `os.path.isfile` becomes the `Option` passed to `LogBrokenWebsite`.
- PyStr.Lower and PyStr.Capitalize map ASCII letters only. Python's full Unicode case mapping is not modelled.
- Scraper.CheckWebsiteStatus is not modelled inside the website loops, because its result reaches only a `print` there.
- Scraper.ScanZones takes the zone-naming function as a parameter. `Collect` passes `GetLocationName`, and its properties are proved for every naming function. No lemma enumerates the location table to show that only "Europe/London" maps to "United Kingdom".
- The United Kingdom website loop and the zone website loops of `collect_business_contacts` are the same loop in the source. Both are modelled by the one method `Scraper.ScanSites`.
- `test_scraper.py` is not part of this model. It only calls `collect_business_contacts` with small arguments.
- The oracles are functions of the URL or the query, not of the call. The source sends a fresh request each time. A URL that appears twice among the candidates therefore gets the same outcome both times in the model. The same holds for a query issued twice, such as "companies in Western Canada" when both America/Edmonton and America/Vancouver are in the window. No proved property depends on the two answers being equal.
- Scraper.ContactLineIsOneLine assumes that no field holds a line break. The phone pattern's `[-.\s]?` separators can match a line break in the page text (scraper.py:126), and then the logged entry spans two lines.
- The collector's exception handlers are modelled as the `None` cases of the oracles. Only the request and the page parsing can raise; the model's own string operations never fail.
