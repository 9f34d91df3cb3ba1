/** Filename sanitising, the model-reply acceptance test, the URL-domain
    heuristic and the job-page fetcher with its BrightData fallback
    (web_operations.py). The extraction model, the HTTP requests and the
    environment are parameters. */
module WebOperations {
  import opened Wrappers
  import opened Text

  // ---------------------------------------------------------------------
  // sanitize_filename
  // ---------------------------------------------------------------------

  /** The characters `sanitize_filename` replaces by `_`. */
  const InvalidChars: string := "<>:\"/\\|?*"
  const MaxNameLength: nat := 50
  const UnknownName: string := "Unknown"

  /** The characters `name.strip('. ')` removes. */
  predicate IsStripChar(c: char) {
    c == '.' || c == ' '
  }

  /** Every character of `s` that occurs in `chars` becomes `_`; nothing is
      deleted. */
  function ReplaceEach(s: string, chars: string): (r: string)
    ensures |r| == |s|
    ensures forall i :: 0 <= i < |s| ==> r[i] == if s[i] in chars then '_' else s[i]
  {
    seq(|s|, i requires 0 <= i < |s| => if s[i] in chars then '_' else s[i])
  }

  /** No character of `s` is one that file systems refuse. */
  predicate NoInvalidChar(s: string) {
    forall c :: c in s ==> c !in InvalidChars
  }

  /** A name that is safe as a file-name component. */
  predicate IsSafeName(r: string) {
    && 1 <= |r| <= MaxNameLength
    && NoInvalidChar(r)
    && !IsStripChar(r[0])
    && !IsStripChar(r[|r| - 1])
  }

  /** What `sanitize_filename` returns: replace, cut to 50, strip dots and
      spaces, and fall back to "Unknown". */
  function Sanitized(name: string): (r: string)
    ensures IsSafeName(r)
  {
    var replaced := ReplaceEach(name, InvalidChars);
    assert NoInvalidChar(replaced) by {
      forall c | c in replaced
        ensures c !in InvalidChars
      {
        var i :| 0 <= i < |replaced| && replaced[i] == c;
      }
    }
    var cut := Take(replaced, MaxNameLength);
    assert NoInvalidChar(cut);
    var stripped := StripBy(cut, IsStripChar);
    assert NoInvalidChar(stripped);
    if stripped == "" then UnknownName else stripped
  }

  /** sanitize_filename, as the loop over the invalid characters that rebinds
      `name`, then the cut and the strip. */
  method SanitizeFilename(name: string) returns (r: string)
    ensures r == Sanitized(name)
    ensures IsSafeName(r)
  {
    var s := name;
    for k := 0 to |InvalidChars|
      invariant s == ReplaceEach(name, InvalidChars[..k])
    {
      assert InvalidChars[..k + 1] == InvalidChars[..k] + [InvalidChars[k]];
      s := ReplaceChar(s, InvalidChars[k], '_');
    }
    assert InvalidChars[..|InvalidChars|] == InvalidChars;
    s := s[..Min(|s|, MaxNameLength)];
    s := StripBy(s, IsStripChar);
    r := if s != "" then s else UnknownName;
  }

  /** A name that is already safe is left as it is. */
  lemma SafeNameUnchanged(r: string)
    requires IsSafeName(r)
    ensures Sanitized(r) == r
  {
    assert ReplaceEach(r, InvalidChars) == r by {
      forall i | 0 <= i < |r|
        ensures r[i] !in InvalidChars
      {
        assert r[i] in r;
      }
    }
    assert Take(r, MaxNameLength) == r;
    StripByUnchanged(r, IsStripChar);
  }

  /** Sanitising a sanitised name changes nothing. */
  lemma SanitizedIdempotent(name: string)
    ensures Sanitized(Sanitized(name)) == Sanitized(name)
  {
    SafeNameUnchanged(Sanitized(name));
  }

  /** Invalid characters are replaced, not deleted: a name that is short
      enough and not padded keeps its length, with `_` exactly where an
      invalid character stood. */
  lemma ReplacedNotDeleted(name: string)
    requires 1 <= |name| <= MaxNameLength
    requires !IsStripChar(name[0]) && !IsStripChar(name[|name| - 1])
    ensures |Sanitized(name)| == |name|
    ensures forall i :: 0 <= i < |name| ==>
      Sanitized(name)[i] == if name[i] in InvalidChars then '_' else name[i]
  {
    var replaced := ReplaceEach(name, InvalidChars);
    assert Take(replaced, MaxNameLength) == replaced;
    StripByUnchanged(replaced, IsStripChar);
  }

  /** The empty name becomes "Unknown"; "Acme/Co:Ltd*" becomes "Acme_Co_Ltd_". */
  lemma SanitizeExamples()
    ensures Sanitized("") == "Unknown"
    ensures Sanitized("Acme/Co:Ltd*") == "Acme_Co_Ltd_"
  {
    ReplacedNotDeleted("Acme/Co:Ltd*");
  }

  /** Stripping dots and spaces from a dot followed by an unpadded text
      leaves the text. */
  lemma LeadingDotStripped(body: string)
    requires body != [] && !IsStripChar(body[0]) && !IsStripChar(body[|body| - 1])
    ensures StripBy(['.'] + body, IsStripChar) == body
  {
    var s := ['.'] + body;
    assert s[1..] == body;
    assert LStrip(s, IsStripChar) == LStrip(body, IsStripChar);
    StripByUnchanged(body, IsStripChar);
  }

  /** The cut comes before the strip: a name of one leading dot and fifty
      letters loses the dot and one letter, ending at 49 characters. */
  lemma TruncatesBeforeStripping()
    ensures |Sanitized(['.'] + seq(50, _ => 'a'))| == 49
  {
    var name := ['.'] + seq(50, _ => 'a');
    var body := seq(49, _ => 'a');
    assert forall i :: 0 <= i < |name| ==> name[i] == '.' || name[i] == 'a';
    assert ReplaceEach(name, InvalidChars) == name;
    assert Take(name, MaxNameLength) == ['.'] + body;
    LeadingDotStripped(body);
  }

  // ---------------------------------------------------------------------
  // extract_company_with_llm
  // ---------------------------------------------------------------------

  /** The number of leading characters of the description shown to the model. */
  const LlmSampleLength: nat := 1000

  /** The extraction model: given the text sample and, when one is present,
      the URL, the content of its reply, or `None` when the call raised. */
  type CompanyModel = (string, Option<string>) -> Option<string>

  /** The acceptance test applied to the stripped reply. */
  predicate AcceptableLlmName(name: string) {
    && name != ""
    && Upper(name) != "NONE"
    && 3 < |name| < 100
    && !StartsWith(name, "I ")
    && !StartsWith(name, "The ")
  }

  /** The question put to the model: the first 1000 characters of the
      description, and the URL only when it is not empty. */
  function ModelReply(model: CompanyModel, jobDescription: string, url: string): Option<string> {
    model(Take(jobDescription, LlmSampleLength), if url != "" then Some(url) else None)
  }

  /** extract_company_with_llm: the stripped reply when it passes the test. */
  function ExtractCompanyWithLlm(model: CompanyModel, jobDescription: string, url: string): (r: Option<string>)
    ensures r.Some? <==> ModelReply(model, jobDescription, url).Some? && AcceptableLlmName(Strip(ModelReply(model, jobDescription, url).value))
    ensures r.Some? ==> r.value == Strip(ModelReply(model, jobDescription, url).value)
    ensures r.Some? ==> 3 < |r.value| < 100 && IsStripped(r.value)
  {
    var reply := ModelReply(model, jobDescription, url);
    if reply.None? then None
    else
      var name := Strip(reply.value);
      if AcceptableLlmName(name) then Some(name) else None
  }

  /** The model only sees the first 1000 characters: descriptions that agree
      on them get the same answer. */
  lemma LlmSeesOnlySample(model: CompanyModel, d1: string, d2: string, url: string)
    requires Take(d1, LlmSampleLength) == Take(d2, LlmSampleLength)
    ensures ExtractCompanyWithLlm(model, d1, url) == ExtractCompanyWithLlm(model, d2, url)
  {
    assert ModelReply(model, d1, url) == ModelReply(model, d2, url);
  }

  /** "none" in any case and names of three characters are refused; the
      test does not refuse "UNKNOWN". */
  lemma LlmAcceptanceExamples()
    ensures !AcceptableLlmName("none") && !AcceptableLlmName("None")
    ensures !AcceptableLlmName("IBM")
    ensures AcceptableLlmName("UNKNOWN")
  {
    assert Upper("UNKNOWN") == "UNKNOWN";
    assert "UNKNOWN"[..2] != "I " by { assert "UNKNOWN"[0] == 'U'; }
    assert "UNKNOWN"[..4] != "The " by { assert "UNKNOWN"[0] == 'U'; }
  }

  // ---------------------------------------------------------------------
  // extract_company_name_from_url
  // ---------------------------------------------------------------------

  /** The job boards whose domain names carry no employer. */
  const JobBoards: seq<string> := [
    "linkedin.com", "indeed.com", "glassdoor.com", "monster.com", "ziprecruiter.com",
    "careerbuilder.com", "simplyhired.com", "lever.co", "greenhouse.io", "workday.com",
    "icims.com"
  ]

  /** The characters `urlsplit` accepts in a scheme. */
  predicate IsSchemeChar(c: char) {
    IsAsciiLetter(c) || IsAsciiDigit(c) || c == '+' || c == '-' || c == '.'
  }

  /** The characters `urlsplit` strips from the front. */
  predicate IsC0OrSpace(c: char) {
    c as int <= 32
  }

  /** The characters `urlsplit` deletes everywhere. */
  predicate IsUnsafeUrlChar(c: char) {
    c == '\t' || c == '\r' || c == '\n'
  }

  function RemoveWhere(s: string, p: char -> bool): (r: string)
    ensures forall i :: 0 <= i < |r| ==> !p(r[i])
  {
    if s == [] then []
    else (if p(s[0]) then [] else [s[0]]) + RemoveWhere(s[1..], p)
  }

  /** The index where the authority ends: the first `/`, `?` or `#`. */
  function AuthorityEnd(s: string): (i: nat)
    ensures i <= |s|
    ensures forall j :: 0 <= j < i ==> s[j] != '/' && s[j] != '?' && s[j] != '#'
  {
    Min(IndexOf(s, '/'), Min(IndexOf(s, '?'), IndexOf(s, '#')))
  }

  /** What is left once `urlsplit` has taken off a valid scheme. */
  function AfterScheme(u: string): string {
    var i := IndexOf(u, ':');
    if 0 < i < |u| && IsAsciiLetter(u[0]) && forall j :: 0 <= j < i ==> IsSchemeChar(u[j])
    then u[i + 1..]
    else u
  }

  /** `urlparse(url).netloc`, or `None` where `urlparse` raises because the
      brackets of the authority do not pair up. */
  function Netloc(url: string): Option<string> {
    var u := AfterScheme(RemoveWhere(LStrip(url, IsC0OrSpace), IsUnsafeUrlChar));
    if StartsWith(u, "//") then
      var rest := u[2..];
      var netloc := rest[..AuthorityEnd(rest)];
      if ('[' in netloc) != (']' in netloc) then None else Some(netloc)
    else Some("")
  }

  /** The host after lower-casing and deleting every `www.`, `jobs.` and
      `careers.`. */
  function CleanedHost(netloc: string): string {
    RemoveAll(RemoveAll(RemoveAll(Lower(netloc), "www."), "jobs."), "careers.")
  }

  /** `first_label.replace('-', ' ').replace('_', ' ').title()`. */
  function LabelToName(part: string): string {
    Title(ReplaceChar(ReplaceChar(part, '-', ' '), '_', ' '))
  }

  /** What extract_company_name_from_url returns. */
  function CompanyFromUrl(url: string): (r: Option<string>)
  {
    match Netloc(url)
    case None => None
    case Some(netloc) =>
      var host := CleanedHost(netloc);
      if ContainsAny(host, JobBoards) then None
      else
        var name := LabelToName(Split(host, '.')[0]);
        if |name| > 3 then Some(name) else None
  }

  /** extract_company_name_from_url, as the chain of reassignments to
      `domain`, the loop over the job boards and the name-building steps. */
  method ExtractCompanyNameFromUrl(url: string) returns (r: Option<string>)
    ensures r == CompanyFromUrl(url)
  {
    var parsed := Netloc(url);
    if parsed.None? {
      return None;
    }
    var domain := Lower(parsed.value);
    domain := RemoveAll(domain, "www.");
    domain := RemoveAll(domain, "jobs.");
    domain := RemoveAll(domain, "careers.");
    var isBoard := AnyContained(domain, JobBoards);
    if isBoard {
      return None;
    }
    var companyDomain := Split(domain, '.')[0];
    var companyName := Title(ReplaceChar(ReplaceChar(companyDomain, '-', ' '), '_', ' '));
    if |companyName| > 3 {
      return Some(companyName);
    }
    return None;
  }

  /** A title-cased text: a letter is upper case exactly when the character
      before it is not a letter. */
  predicate IsTitleCased(s: string) {
    forall i :: 0 <= i < |s| && IsAsciiLetter(s[i]) ==>
      (if i > 0 && IsAsciiLetter(s[i - 1]) then IsLowerAscii(s[i]) else IsUpperAscii(s[i]))
  }

  lemma {:induction false} TitleFromIsTitleCased(s: string, previousCased: bool)
    ensures var t := TitleFrom(s, previousCased);
      && (forall i :: 0 <= i < |s| ==> (IsAsciiLetter(t[i]) <==> IsAsciiLetter(s[i])))
      && (forall i :: 1 <= i < |s| && IsAsciiLetter(t[i]) ==>
            (if IsAsciiLetter(t[i - 1]) then IsLowerAscii(t[i]) else IsUpperAscii(t[i])))
      && (|s| > 0 && IsAsciiLetter(t[0]) ==> (if previousCased then IsLowerAscii(t[0]) else IsUpperAscii(t[0])))
    decreases |s|
  {
    if s != [] {
      TitleFromIsTitleCased(s[1..], IsAsciiLetter(s[0]));
      var t := TitleFrom(s, previousCased);
      assert t[1..] == TitleFrom(s[1..], IsAsciiLetter(s[0]));
    }
  }

  /** A name taken from a URL is longer than three characters, title-cased,
      holds no dot, dash or underscore, and comes from a host that names no
      job board. */
  lemma UrlCompanyShape(url: string)
    requires CompanyFromUrl(url).Some?
    ensures var name := CompanyFromUrl(url).value;
      && |name| > 3
      && IsTitleCased(name)
      && '.' !in name && '-' !in name && '_' !in name
    ensures !ContainsAny(CleanedHost(Netloc(url).value), JobBoards)
  {
    var host := CleanedHost(Netloc(url).value);
    SplitPiecesLackSeparator(host, '.');
    LabelToNameShape(Split(host, '.')[0]);
  }

  /** The name made of a domain label is title-cased and keeps no dash or
      underscore; a label holds no dot. */
  lemma LabelToNameShape(part: string)
    requires '.' !in part
    ensures IsTitleCased(LabelToName(part))
    ensures '.' !in LabelToName(part) && '-' !in LabelToName(part) && '_' !in LabelToName(part)
  {
    var spaced := ReplaceChar(ReplaceChar(part, '-', ' '), '_', ' ');
    TitleFromIsTitleCased(spaced, false);
    var name := Title(spaced);
    forall i | 0 <= i < |name|
      ensures name[i] != '.' && name[i] != '-' && name[i] != '_'
    {
      TitleCharOrigin(spaced, false, i);
    }
  }

  /** Title-casing only changes the case of letters. */
  lemma {:induction false} TitleCharOrigin(s: string, previousCased: bool, i: nat)
    requires i < |s|
    ensures TitleFrom(s, previousCased)[i] == s[i] || (IsAsciiLetter(s[i]) && IsAsciiLetter(TitleFrom(s, previousCased)[i]))
    decreases |s|
  {
    if i > 0 {
      TitleCharOrigin(s[1..], IsAsciiLetter(s[0]), i - 1);
      assert TitleFrom(s, previousCased)[i] == TitleFrom(s[1..], IsAsciiLetter(s[0]))[i - 1];
    }
  }

  /** A host that names a job board anywhere gives no name. */
  lemma JobBoardGivesNothing(url: string, k: nat)
    requires Netloc(url).Some? && k < |JobBoards|
    requires Contains(CleanedHost(Netloc(url).value), JobBoards[k])
    ensures CompanyFromUrl(url) == None
  {
  }

  /** A character that cannot begin the pattern is kept. */
  lemma RemoveKeepsChar(c: char, rest: string, pattern: string)
    requires pattern != "" && c != pattern[0]
    ensures RemoveAll([c] + rest, pattern) == [c] + RemoveAll(rest, pattern)
  {
    var s := [c] + rest;
    assert s[1..] == rest;
    if |s| >= |pattern| {
      assert s[..|pattern|][0] == c;
    }
  }

  /** An occurrence at the front is deleted. */
  lemma RemoveAtFront(pattern: string, b: string)
    requires pattern != ""
    ensures RemoveAll(pattern + b, pattern) == RemoveAll(b, pattern)
  {
    var s := pattern + b;
    assert s[..|pattern|] == pattern;
    assert s[|pattern|..] == b;
  }

  /** The prefixes are deleted wherever they stand, not only at the front:
      an occurrence after a stretch free of the pattern's first character is
      deleted too. */
  lemma {:induction false} RemovesLaterOccurrence(a: string, pattern: string, b: string)
    requires pattern != ""
    requires pattern[0] !in a
    ensures RemoveAll(a + pattern + b, pattern) == a + RemoveAll(b, pattern)
    decreases |a|
  {
    if a == [] {
      assert a + pattern + b == pattern + b;
      RemoveAtFront(pattern, b);
    } else {
      RemovesLaterOccurrence(a[1..], pattern, b);
      assert a + pattern + b == [a[0]] + (a[1..] + pattern + b);
      RemoveKeepsChar(a[0], a[1..] + pattern + b, pattern);
      AppendAssoc([a[0]], a[1..], RemoveAll(b, pattern));
    }
  }

  // ---------------------------------------------------------------------
  // fetch_job_description_from_url / fetch_with_brightdata
  // ---------------------------------------------------------------------

  /** Below this many characters a fetched text counts as a failure. */
  const MinTextLength: nat := 100

  /** The outcome of the direct request and HTML parse: the text of the
      container that was found, or a failure (the request or parser raised). */
  datatype PrimaryFetch = PageText(text: string) | PrimaryFailed

  /** A value of the JSON object BrightData returns: a string; a list or
      object, of which only its length matters; or a number, boolean or
      null, which has a truth value but no length. */
  datatype JsonValue = JsonString(s: string) | JsonSized(size: nat) | JsonOther(truthy: bool)

  /** Values `len` accepts. */
  predicate HasLen(v: JsonValue) {
    !v.JsonOther?
  }

  /** `len` of a value that has one. */
  function Len(v: JsonValue): nat
    requires HasLen(v)
  {
    match v
    case JsonString(s) => |s|
    case JsonSized(n) => n
  }

  /** The BrightData POST: a decoded JSON object (its fields in order), a
      decoded non-object rendered with `str`, or a failed request. */
  datatype BrightDataReply =
    | JsonObject(fields: seq<(string, JsonValue)>)
    | JsonNonObject(rendered: string)
    | RequestFailed(reason: string)

  datatype FetchError = ApiKeyMissing | BrightDataFailed(reason: string)

  const InsufficientData: string := "BrightData extraction failed or returned insufficient data"

  function FetchErrorMessage(e: FetchError): string {
    match e
    case ApiKeyMissing => "BrightData API key not found. Please set BRIGHTDATA_API_KEY in .env file"
    case BrightDataFailed(reason) => "Failed to fetch job description using BrightData: " + reason
  }

  /** `[line.strip() for line in lines if line.strip()]`. */
  function StrippedNonEmpty(lines: seq<string>): (r: seq<string>)
    ensures |r| <= |lines|
    ensures forall i :: 0 <= i < |r| ==> r[i] != "" && IsStripped(r[i])
  {
    if lines == [] then []
    else
      var s := Strip(lines[0]);
      var rest := StrippedNonEmpty(lines[1..]);
      if s == "" then rest
      else
        assert IsStripped(s) by { StripIsStripped(lines[0]); }
        [s] + rest
  }

  /** Stripping and dropping lines brings in no separator. */
  lemma {:induction false} StrippedNonEmptyLacks(lines: seq<string>, sep: char)
    requires forall i :: 0 <= i < |lines| ==> sep !in lines[i]
    ensures forall i :: 0 <= i < |StrippedNonEmpty(lines)| ==> sep !in StrippedNonEmpty(lines)[i]
  {
    if lines != [] {
      StrippedNonEmptyLacks(lines[1..], sep);
      assert sep !in lines[0];
    }
  }

  /** The cleaned text of a page: its stripped non-empty lines joined by
      newlines. */
  function CleanText(text: string): string {
    Join(StrippedNonEmpty(Split(text, '\n')), "\n")
  }

  /** Every line of a cleaned text is stripped and non-empty, and the lines
      are the stripped non-empty original lines, in order. */
  lemma CleanTextLines(text: string)
    ensures CleanText(text) == "" <==> StrippedNonEmpty(Split(text, '\n')) == []
    ensures CleanText(text) != "" ==> Split(CleanText(text), '\n') == StrippedNonEmpty(Split(text, '\n'))
    ensures CleanText(text) != "" ==> forall line :: line in Split(CleanText(text), '\n') ==> line != "" && IsStripped(line)
  {
    var lines := StrippedNonEmpty(Split(text, '\n'));
    SplitPiecesLackSeparator(text, '\n');
    StrippedNonEmptyLacks(Split(text, '\n'), '\n');
    if lines != [] {
      JoinOfNonEmptyIsNonEmpty(lines, "\n");
      SplitJoin(lines, '\n');
    }
  }

  lemma {:induction false} JoinOfNonEmptyIsNonEmpty(parts: seq<string>, sep: string)
    requires parts != [] && parts[0] != ""
    ensures Join(parts, sep) != ""
  {
    if |parts| > 1 {
      assert Join(parts, sep)[0] == parts[0][0];
    }
  }

  /** The first value stored under `key`. */
  function Lookup(fields: seq<(string, JsonValue)>, key: string): Option<JsonValue> {
    if fields == [] then None
    else if fields[0].0 == key then Some(fields[0].1)
    else Lookup(fields[1..], key)
  }

  /** The string values of an object, in order. */
  function StringValues(fields: seq<(string, JsonValue)>): (r: seq<string>)
    ensures |r| <= |fields|
  {
    if fields == [] then []
    else (if fields[0].1.JsonString? then [fields[0].1.s] else []) + StringValues(fields[1..])
  }

  predicate IsFalsy(v: JsonValue) {
    match v
    case JsonString(s) => s == ""
    case JsonSized(n) => n == 0
    case JsonOther(truthy) => !truthy
  }

  /** The value taken from a BrightData reply, or why it could not be taken.
      A truthy `text` field is kept as it is, a list or object included;
      only a number or boolean, having no length to test, raises. */
  function BrightDataText(reply: BrightDataReply): (r: Result<JsonValue, string>)
    ensures r.Success? ==> HasLen(r.value)
    ensures r.Failure? <==>
      reply.RequestFailed? ||
      (reply.JsonObject? && var text := Lookup(reply.fields, "text");
       text.Some? && text.value.JsonOther? && text.value.truthy)
  {
    match reply
    case RequestFailed(reason) => Failure(reason)
    case JsonNonObject(rendered) => Success(JsonString(rendered))
    case JsonObject(fields) =>
      var text := Lookup(fields, "text");
      if text.None? || IsFalsy(text.value) then Success(JsonString(Join(StringValues(fields), " ")))
      else if HasLen(text.value) then Success(text.value)
      else Failure("object has no len()")
  }

  /** The BrightData POST, given the API key and the target URL it is sent. */
  type BrightDataPost = (string, string) -> BrightDataReply

  /** fetch_with_brightdata. */
  function FetchWithBrightData(url: string, apiKey: Option<string>, post: BrightDataPost): (r: Result<JsonValue, FetchError>)
    ensures r.Success? ==> HasLen(r.value) && Len(r.value) >= MinTextLength
    ensures (apiKey.None? || apiKey.value == "") <==> r == Failure(ApiKeyMissing)
  {
    if apiKey.None? || apiKey.value == "" then Failure(ApiKeyMissing)
    else
      match BrightDataText(post(apiKey.value, url + "?brd_json=1"))
      case Failure(reason) => Failure(BrightDataFailed(reason))
      case Success(text) =>
        if Len(text) < MinTextLength then Failure(BrightDataFailed(InsufficientData)) else Success(text)
  }

  /** fetch_job_description_from_url: the cleaned page text when it is long
      enough, BrightData otherwise. */
  function FetchJobDescription(url: string, primary: PrimaryFetch, apiKey: Option<string>, post: BrightDataPost): (r: Result<JsonValue, FetchError>)
    ensures r.Success? ==> HasLen(r.value) && Len(r.value) >= MinTextLength
  {
    if primary.PageText? && |CleanText(primary.text)| >= MinTextLength then Success(JsonString(CleanText(primary.text)))
    else FetchWithBrightData(url, apiKey, post)
  }

  /** The fallback rule: a long enough cleaned page is the answer; a failed
      request or a short text is handed to BrightData. */
  lemma FetchFallback(url: string, primary: PrimaryFetch, apiKey: Option<string>, post: BrightDataPost)
    ensures primary.PageText? && |CleanText(primary.text)| >= MinTextLength ==>
      FetchJobDescription(url, primary, apiKey, post) == Success(JsonString(CleanText(primary.text)))
    ensures primary.PrimaryFailed? || |CleanText(primary.text)| < MinTextLength ==>
      FetchJobDescription(url, primary, apiKey, post) == FetchWithBrightData(url, apiKey, post)
  {
  }

  /** Without an API key BrightData fails before any request: the result is
      the same whatever the POST would have answered. */
  lemma MissingKeyBeforeRequest(url: string, apiKey: Option<string>, post1: BrightDataPost, post2: BrightDataPost)
    requires apiKey.None? || apiKey.value == ""
    ensures FetchWithBrightData(url, apiKey, post1) == FetchWithBrightData(url, apiKey, post2) == Failure(ApiKeyMissing)
  {
  }

  /** The BrightData text is the `text` field when that is a non-empty
      string, and the space-joined string values when it is missing or falsy. */
  lemma BrightDataTextChoice(fields: seq<(string, JsonValue)>)
    ensures var text := Lookup(fields, "text");
      && (text.Some? && text.value.JsonString? && text.value.s != "" ==>
            BrightDataText(JsonObject(fields)) == Success(text.value))
      && (text.None? || IsFalsy(text.value) ==>
            BrightDataText(JsonObject(fields)) == Success(JsonString(Join(StringValues(fields), " "))))
  {
  }

  /** A non-empty list or object under `text` is returned as it is once its
      length reaches the minimum, and is too short otherwise. */
  lemma BrightDataContainerText(url: string, key: string, post: BrightDataPost, fields: seq<(string, JsonValue)>, n: nat)
    requires key != "" && n > 0
    requires post(key, url + "?brd_json=1") == JsonObject(fields)
    requires Lookup(fields, "text") == Some(JsonSized(n))
    ensures n >= MinTextLength ==> FetchWithBrightData(url, Some(key), post) == Success(JsonSized(n))
    ensures n < MinTextLength ==> FetchWithBrightData(url, Some(key), post) == Failure(BrightDataFailed(InsufficientData))
  {
  }
}
