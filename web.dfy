/**
  What both scripts do with one fetched page once its text has been scanned:
  the outcome of the HTTP request, the regular-expression matches found in the
  page text, and the choice of one email and one phone number among them.
*/
module Web {
  import opened Options
  import opened PyStr

  /** One `requests.get`: a response with its status code and reason phrase,
      or a `RequestException` with its message. */
  datatype FetchOutcome =
    | Response(statusCode: int, reason: string)
    | RequestFailed(message: string)

  /** The `re.findall` matches of the email and phone patterns over a page's
      text, in text order. */
  datatype PageScan = PageScan(emails: seq<string>, phones: seq<string>)

  /** An email-pattern match that is really an image file name. */
  predicate IsImageName(e: string) {
    EndsWith(e, ".png") || EndsWith(e, ".jpg") || EndsWith(e, ".gif")
  }

  /** The list comprehension that drops image file names, keeping the order. */
  function DropImageNames(emails: seq<string>): (r: seq<string>)
    ensures |r| <= |emails|
  {
    if emails == [] then []
    else
      var rest := DropImageNames(emails[1..]);
      if IsImageName(emails[0]) then rest else [emails[0]] + rest
  }

  /** The names kept are exactly the matches that are not image file names. */
  lemma {:induction false} DropImageNamesSpec(emails: seq<string>)
    ensures forall k :: 0 <= k < |DropImageNames(emails)| ==> !IsImageName(DropImageNames(emails)[k])
    ensures forall e :: e in DropImageNames(emails) <==> e in emails && !IsImageName(e)
  {
    if emails != [] {
      DropImageNamesSpec(emails[1..]);
      assert forall e :: e in emails <==> e == emails[0] || e in emails[1..];
    }
  }

  /** Index `k` holds the first match that is not an image file name. */
  predicate FirstSurvivorAt(emails: seq<string>, k: int) {
    0 <= k < |emails| && !IsImageName(emails[k])
    && forall j :: 0 <= j < k ==> IsImageName(emails[j])
  }

  lemma {:induction false} DropImageNamesHead(emails: seq<string>)
    requires DropImageNames(emails) != []
    ensures exists k :: FirstSurvivorAt(emails, k) && emails[k] == DropImageNames(emails)[0]
  {
    if IsImageName(emails[0]) {
      DropImageNamesHead(emails[1..]);
      var k :| FirstSurvivorAt(emails[1..], k) && emails[1..][k] == DropImageNames(emails[1..])[0];
      assert FirstSurvivorAt(emails, k + 1);
    } else {
      assert FirstSurvivorAt(emails, 0);
    }
  }

  /** The email taken from a list of matches: the first one that is not an
      image file name, or none when every match is one. */
  function FirstEmail(emails: seq<string>): (r: Option<string>)
    ensures r.Some? ==> !IsImageName(r.value)
  {
    var survivors := DropImageNames(emails);
    if survivors == [] then None
    else
      DropImageNamesSpec(emails);
      Some(survivors[0])
  }

  /** No email is taken exactly when every match is an image file name;
      otherwise the one taken is the first match that is not. */
  lemma FirstEmailSpec(emails: seq<string>)
    ensures FirstEmail(emails).None? <==> forall k :: 0 <= k < |emails| ==> IsImageName(emails[k])
    ensures FirstEmail(emails).Some? ==> exists k :: FirstSurvivorAt(emails, k) && emails[k] == FirstEmail(emails).value
  {
    var survivors := DropImageNames(emails);
    DropImageNamesSpec(emails);
    if survivors == [] {
      assert forall k :: 0 <= k < |emails| ==> emails[k] !in survivors;
    } else {
      DropImageNamesHead(emails);
      assert !IsImageName(survivors[0]) && survivors[0] in emails;
    }
  }

  /** The phone number taken from a list of matches: the first one. */
  function FirstPhone(phones: seq<string>): (r: Option<string>)
    ensures r.Some? <==> phones != []
    ensures r.Some? ==> r.value == phones[0]
  {
    if phones == [] then None else Some(phones[0])
  }
}
