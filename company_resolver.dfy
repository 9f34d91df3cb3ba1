/** The company-name cascade of `extract_company_name_from_text`
    (web_operations.py): the extraction model, then the URL heuristic, then
    three patterns over the first lines, then sentence patterns, then the
    most frequent capitalised word, and "Unknown_Company" when all fail.
    Whatever is found is passed through `sanitize_filename`. */
module CompanyResolver {
  import opened Wrappers
  import opened Text
  import opened WebOperations

  const UnknownCompany: string := "Unknown_Company"

  /** How many lines the line patterns look at, and how many of those the
      "looks like a company name" pattern looks at. */
  const ScannedLines: nat := 30
  const HeaderLines: nat := 10
  /** How many lines make up the text the sentence patterns search. */
  const SampledLines: nat := 50

  const CompanyLabels: seq<string> := ["company:", "company name:", "organization:"]
  const ArticleWords: seq<string> := ["the", "this", "our"]
  const TitleWords: seq<string> := [
    "engineer", "developer", "manager", "analyst", "specialist", "designer",
    "director", "scientist", "architect", "lead", "senior", "junior", "intern"
  ]
  const SkipPrefixes: seq<string> := ["http", "www", "posted", "date", "location", "salary", "benefits", "apply"]
  const LocationWords: seq<string> := ["location:", "city", "remote", "hybrid", ", CA", ", NY", ", TX"]

  /** A candidate name of acceptable length, 4 to 49 characters. */
  predicate ShortName(name: string) {
    3 < |name| < 50
  }

  // ---------------------------------------------------------------------
  // The three line patterns
  // ---------------------------------------------------------------------

  /** A "Company:", "Company Name:" or "Organization:" line: the text after
      the first colon of the stripped line, stripped. */
  function LabelledField(line: string): (r: Option<string>)
    ensures r.Some? ==> ContainsAny(Lower(line), CompanyLabels) && ShortName(r.value) && IsStripped(r.value)
  {
    var stripped := Strip(line);
    var colon := IndexOf(stripped, ':');
    if ContainsAny(Lower(line), CompanyLabels) && colon < |stripped| then
      var name := Strip(stripped[colon + 1..]);
      if ShortName(name) then Some(name) else None
    else None
  }

  /** The length of the `at` (in any case) or `@` a stripped line starts
      with, or 0. */
  function AtPrefix(s: string): (p: nat)
    ensures p <= |s|
  {
    if |s| >= 2 && LowerChar(s[0]) == 'a' && LowerChar(s[1]) == 't' then 2
    else if |s| >= 1 && s[0] == '@' then 1
    else 0
  }

  /** What follows the `at` or `@` that starts a stripped line, once the
      white space after it is skipped, stripped; the regular expression also
      demands a letter, in either case, right after the white space. */
  function AtName(line: string): (r: Option<string>)
    ensures r.Some? ==> r.value != [] && IsAsciiLetter(r.value[0]) && IsStripped(r.value)
  {
    var s := Strip(line);
    var p := AtPrefix(s);
    if p == 0 then None
    else
      var rest := LStrip(s[p..], IsSpace);
      if rest == [] || !IsAsciiLetter(rest[0]) then None
      else
        var name := Strip(rest);
        assert name != [] && name[0] == rest[0] by { StripKeepsFirst(rest, IsSpace); }
        Some(name)
  }

  /** An "at Company" or "@Company" line: the name after the prefix, of
      acceptable length and not containing "the", "this" or "our". */
  function AtLine(line: string): (r: Option<string>)
    ensures r.Some? ==> ShortName(r.value) && IsStripped(r.value) && IsAsciiLetter(r.value[0])
    ensures r.Some? ==> !ContainsAny(Lower(r.value), ArticleWords)
  {
    var name := AtName(line);
    if name.Some? && ShortName(name.value) && !ContainsAny(Lower(name.value), ArticleWords) then name else None
  }

  /** The line after line `i`, when there is one. */
  function NextLine(lines: seq<string>, i: nat): Option<string> {
    if i + 1 < |lines| then Some(lines[i + 1]) else None
  }

  /** The "looks like a company name" pattern on line number `i`: one of the
      first ten lines, not a job title, starting with a capital, not a label
      and not a link, date or similar header, followed by a line that reads
      like a location. */
  function CapitalisedLine(i: nat, line: string, next: Option<string>): (r: Option<string>)
    ensures r.Some? ==> i < HeaderLines && next.Some? && r.value == Strip(line)
    ensures r.Some? ==> ShortName(r.value) && IsUpperAscii(r.value[0]) && !EndsWith(r.value, ":")
    ensures r.Some? ==> !ContainsAny(Lower(line), TitleWords) && !StartsWithAny(Lower(line), SkipPrefixes)
    ensures r.Some? ==> ContainsAny(Lower(Strip(next.value)), LocationWords)
  {
    var stripped := Strip(line);
    var lower := Lower(line);
    if && i < HeaderLines && stripped != ""
       && !ContainsAny(lower, TitleWords)
       && IsUpperAscii(stripped[0]) && ShortName(stripped) && !EndsWith(stripped, ":")
       && !StartsWithAny(lower, SkipPrefixes)
       && next.Some?
       && ContainsAny(Lower(Strip(next.value)), LocationWords)
    then Some(stripped)
    else None
  }

  /** What line number `i` yields: the three patterns in order. */
  function LineResult(i: nat, line: string, next: Option<string>): (r: Option<string>)
    ensures r.Some? ==> ShortName(r.value)
  {
    if LabelledField(line).Some? then LabelledField(line)
    else if AtLine(line).Some? then AtLine(line)
    else CapitalisedLine(i, line, next)
  }

  /** What line `i` of the description yields. */
  function LineHit(lines: seq<string>, i: nat): (r: Option<string>)
    requires i < |lines|
    ensures r.Some? ==> ShortName(r.value)
  {
    LineResult(i, lines[i], NextLine(lines, i))
  }

  /** The hit of every line, and nothing past the last. */
  function LineHits(lines: seq<string>): nat -> Option<string> {
    (i: nat) => if i < |lines| then LineHit(lines, i) else None
  }

  /** The first hit among lines `k` to 29. */
  function ScanFrom(lines: seq<string>, k: nat): (r: Option<string>)
    ensures r.Some? ==> ShortName(r.value)
  {
    var r := FirstHit(LineHits(lines), k, Min(ScannedLines, |lines|));
    assert r.Some? ==> ShortName(r.value) by { FirstHitIsFirst(LineHits(lines), k, Min(ScannedLines, |lines|)); }
    r
  }

  // ---------------------------------------------------------------------
  // Sentence patterns
  // ---------------------------------------------------------------------

  /** The number of sentence patterns ("join X as", "work at X", "X is
      hiring", "welcome to X.", "about X About"). */
  const SentencePatternCount: nat := 5

  /** `re.search(pattern, text, re.IGNORECASE)`: the first capture group of
      pattern `k` in a text, or `None` when the pattern does not match. */
  type SentenceSearch = (nat, string) -> Option<string>

  /** The text the sentence and frequency patterns work on: the first fifty
      lines joined by spaces. */
  function TextSample(lines: seq<string>): string {
    Join(Take(lines, SampledLines), " ")
  }

  /** What pattern `k` yields: its capture, stripped, of acceptable length. */
  function SentenceHit(search: SentenceSearch, sample: string, k: nat): (r: Option<string>)
    ensures r.Some? ==> search(k, sample).Some? && r.value == Strip(search(k, sample).value) && ShortName(r.value)
  {
    var m := search(k, sample);
    if m.None? then None
    else
      var company := Strip(m.value);
      if ShortName(company) then Some(company) else None
  }

  /** The first pattern, from `k` on, that yields a name. */
  function SentencesFrom(search: SentenceSearch, sample: string, k: nat): (r: Option<string>)
    ensures r.Some? ==> ShortName(r.value)
    decreases SentencePatternCount - k
  {
    if k >= SentencePatternCount then None
    else if SentenceHit(search, sample, k).Some? then SentenceHit(search, sample, k)
    else SentencesFrom(search, sample, k + 1)
  }

  // ---------------------------------------------------------------------
  // Most frequent capitalised word
  // ---------------------------------------------------------------------

  /** A word character of `\b`: an ASCII letter or digit, or `_`. */
  predicate IsWordChar(c: char) {
    IsAsciiLetter(c) || IsAsciiDigit(c) || c == '_'
  }

  /** A match of `\b[A-Z][A-Za-z]{2,}\b`: a capital and at least two more
      letters. */
  predicate IsCapitalisedWord(w: string) {
    |w| >= 3 && IsUpperAscii(w[0]) && forall i :: 0 <= i < |w| ==> IsAsciiLetter(w[i])
  }

  /** The length of the run of word characters `s` starts with. */
  function RunLength(s: string): (n: nat)
    ensures n <= |s|
    ensures forall i :: 0 <= i < n ==> IsWordChar(s[i])
    ensures n < |s| ==> !IsWordChar(s[n])
  {
    if s == [] || !IsWordChar(s[0]) then 0 else 1 + RunLength(s[1..])
  }

  /** `re.findall(r'\b[A-Z][A-Za-z]{2,}\b', s)`: the maximal runs of word
      characters that are capitalised words, in order. */
  function CapitalisedWords(s: string): (r: seq<string>)
    ensures forall i :: 0 <= i < |r| ==> IsCapitalisedWord(r[i])
    decreases |s|
  {
    if s == [] then []
    else if !IsWordChar(s[0]) then CapitalisedWords(s[1..])
    else
      var n := RunLength(s);
      (if IsCapitalisedWord(s[..n]) then [s[..n]] else []) + CapitalisedWords(s[n..])
  }

  const CommonWords: set<string> := {
    "The", "This", "Our", "We", "Are", "You", "Your", "Will", "About", "Join",
    "Work", "Team", "Role", "Job", "Position", "Requirements", "Responsibilities"
  }

  /** `[w for w in words if w not in common_words]`. */
  function Candidates(words: seq<string>): (r: seq<string>)
    ensures forall i :: 0 <= i < |r| ==> r[i] !in CommonWords && r[i] in words
    ensures forall w :: w in words && w !in CommonWords ==> w in r
  {
    if words == [] then []
    else (if words[0] in CommonWords then [] else [words[0]]) + Candidates(words[1..])
  }

  /** The distinct words in order of first occurrence: the key order of a
      `Counter`. */
  function Distinct(words: seq<string>): (r: seq<string>)
    ensures forall w :: w in r <==> w in words
    ensures forall i, j :: 0 <= i < j < |r| ==> r[i] != r[j]
    decreases |words|
  {
    if words == [] then []
    else
      var d := Distinct(words[..|words| - 1]);
      assert words == words[..|words| - 1] + [words[|words| - 1]];
      if words[|words| - 1] in d then d else d + [words[|words| - 1]]
  }

  /** `Counter(words).items()`. */
  function Tally(words: seq<string>): (r: seq<(string, nat)>)
    ensures forall i :: 0 <= i < |r| ==> r[i].1 == multiset(words)[r[i].0] && r[i].0 in words
  {
    var d := Distinct(words);
    seq(|d|, i requires 0 <= i < |d| => (d[i], multiset(words)[d[i]]))
  }

  /** The index of the first item of greatest count. */
  function FirstMaxIndex(items: seq<(string, nat)>): (k: nat)
    requires items != []
    ensures k < |items|
    ensures forall j :: 0 <= j < |items| ==> items[j].1 <= items[k].1
    ensures forall j :: 0 <= j < k ==> items[j].1 < items[k].1
  {
    if |items| == 1 then 0
    else
      var k := FirstMaxIndex(items[1..]);
      if items[0].1 >= items[k + 1].1 then 0 else k + 1
  }

  /** `Counter.most_common(n)`: the items sorted by decreasing count, ties in
      insertion order, cut to `n`; written as repeated selection of the first
      item of greatest count. */
  function MostCommon(items: seq<(string, nat)>, n: nat): (r: seq<(string, nat)>)
    ensures |r| == Min(n, |items|)
    ensures forall x :: x in r ==> x in items
    decreases n
  {
    if n == 0 || items == [] then []
    else
      var k := FirstMaxIndex(items);
      var rest := items[..k] + items[k + 1..];
      [items[k]] + MostCommon(rest, n - 1)
  }

  /** The pick of the frequency pattern among the top three: the first that
      occurs at least twice and has 4 to 29 characters. */
  function FrequentPick(top: seq<(string, nat)>): (r: Option<string>)
    ensures r.Some? ==> exists i :: 0 <= i < |top| && top[i].0 == r.value && top[i].1 >= 2 && 3 < |r.value| < 30
  {
    if top == [] then None
    else if top[0].1 >= 2 && 3 < |top[0].0| < 30 then Some(top[0].0)
    else
      var r := FrequentPick(top[1..]);
      if r.Some? then
        var i :| 0 <= i < |top[1..]| && top[1..][i].0 == r.value && top[1..][i].1 >= 2 && 3 < |r.value| < 30;
        assert top[i + 1] == top[1..][i];
        r
      else r
  }

  /** The frequency pattern on a text sample. */
  function FrequentWord(sample: string): Option<string> {
    FrequentPick(MostCommon(Tally(Candidates(CapitalisedWords(sample))), 3))
  }

  // ---------------------------------------------------------------------
  // The whole cascade
  // ---------------------------------------------------------------------

  /** The result of the URL heuristic, which only runs when a URL is given. */
  function UrlCandidate(url: string): Option<string> {
    if url != "" then CompanyFromUrl(url) else None
  }

  /** The name a found candidate is filed under, or "Unknown_Company". */
  function FiledName(found: Option<string>): (r: string)
    ensures IsSafeName(r)
    ensures found.Some? ==> r == Sanitized(found.value)
  {
    if found.Some? then Sanitized(found.value)
    else
      assert forall i :: 0 <= i < |UnknownCompany| ==> UnknownCompany[i] !in InvalidChars;
      UnknownCompany
  }

  /** The stages that work on the text alone, on its lines: the line
      patterns, then the sentence patterns, then the frequent word. */
  function ResolveFromLines(search: SentenceSearch, lines: seq<string>): (r: string)
    ensures IsSafeName(r)
  {
    var scanned := ScanFrom(lines, 0);
    if scanned.Some? then Sanitized(scanned.value)
    else
      var sample := TextSample(lines);
      var sentence := SentencesFrom(search, sample, 0);
      if sentence.Some? then Sanitized(sentence.value)
      else FiledName(FrequentWord(sample))
  }

  /** What extract_company_name_from_text returns: the model's answer, then
      the URL heuristic when a URL is given, then the text patterns. */
  function ResolveCompany(model: CompanyModel, search: SentenceSearch, jobDescription: string, url: string): (r: string)
    ensures IsSafeName(r)
  {
    var llm := ExtractCompanyWithLlm(model, jobDescription, url);
    if llm.Some? then Sanitized(llm.value)
    else
      var fromUrl := UrlCandidate(url);
      if fromUrl.Some? then Sanitized(fromUrl.value)
      else ResolveFromLines(search, Split(jobDescription, '\n'))
  }

  /** The body of the loop over the first thirty lines, for line `i`: the
      three patterns in turn, the job-title filter ending the work on the
      line as the source's `continue` does. */
  method MatchLine(lines: seq<string>, i: nat) returns (found: Option<string>)
    requires i < |lines|
    ensures found == LineHit(lines, i)
  {
    var line := lines[i];
    var lineStripped := Strip(line);
    var lineLower := Lower(line);
    var labelled := LabelledField(line);
    if labelled.Some? {
      return labelled;
    }
    var at := AtLine(line);
    if at.Some? {
      return at;
    }
    if i < HeaderLines && lineStripped != "" {
      if ContainsAny(lineLower, TitleWords) {
        return None;
      }
      if IsUpperAscii(lineStripped[0]) && ShortName(lineStripped) && !EndsWith(lineStripped, ":")
         && !StartsWithAny(lineLower, SkipPrefixes)
      {
        if i + 1 < |lines| {
          var nextLine := Strip(lines[i + 1]);
          if ContainsAny(Lower(nextLine), LocationWords) {
            return Some(lineStripped);
          }
        }
      }
    }
    return None;
  }

  /** The loop over the first thirty lines; it gives back the name the loop
      would file. */
  method ScanLines(lines: seq<string>) returns (found: Option<string>)
    ensures found == ScanFrom(lines, 0)
  {
    var limit := Min(ScannedLines, |lines|);
    ghost var hits := LineHits(lines);
    for i := 0 to limit
      invariant FirstHit(hits, i, limit) == FirstHit(hits, 0, limit)
    {
      found := MatchLine(lines, i);
      assert hits(i) == found;
      if found.None? {
        continue;
      }
      return;
    }
    return None;
  }

  /** The loop over the sentence patterns. */
  method SearchSentences(search: SentenceSearch, textSample: string) returns (found: Option<string>)
    ensures found == SentencesFrom(search, textSample, 0)
  {
    for k := 0 to SentencePatternCount
      invariant SentencesFrom(search, textSample, k) == SentencesFrom(search, textSample, 0)
    {
      var company := SentenceHit(search, textSample, k);
      if company.Some? {
        return company;
      }
    }
    return None;
  }

  /** The loop over `most_common(3)`. */
  method PickFrequent(mostCommon: seq<(string, nat)>) returns (found: Option<string>)
    ensures found == FrequentPick(mostCommon)
  {
    for k := 0 to |mostCommon|
      invariant FrequentPick(mostCommon[k..]) == FrequentPick(mostCommon)
    {
      var (word, count) := mostCommon[k];
      if count >= 2 && 3 < |word| < 30 {
        return Some(word);
      }
      assert mostCommon[k..][1..] == mostCommon[k + 1..];
    }
    return None;
  }

  /** The stages of extract_company_name_from_text that follow the URL
      heuristic, on the lines of the description. */
  method ResolveLines(search: SentenceSearch, lines: seq<string>) returns (r: string)
    ensures r == ResolveFromLines(search, lines)
  {
    var found := ScanLines(lines);
    if found.Some? {
      r := SanitizeFilename(found.value);
      return;
    }
    var textSample := TextSample(lines);
    found := SearchSentences(search, textSample);
    if found.Some? {
      r := SanitizeFilename(found.value);
      return;
    }
    var mostCommon := MostCommon(Tally(Candidates(CapitalisedWords(textSample))), 3);
    found := PickFrequent(mostCommon);
    if found.Some? {
      r := SanitizeFilename(found.value);
      return;
    }
    r := UnknownCompany;
  }

  /** extract_company_name_from_text: each stage in turn, the first name
      found sanitised. */
  method ExtractCompanyNameFromText(model: CompanyModel, search: SentenceSearch, jobDescription: string, url: string)
    returns (r: string)
    ensures r == ResolveCompany(model, search, jobDescription, url)
    ensures IsSafeName(r)
  {
    var llmCompany := ExtractCompanyWithLlm(model, jobDescription, url);
    if llmCompany.Some? {
      r := SanitizeFilename(llmCompany.value);
      return;
    }
    if url != "" {
      var urlCompany := ExtractCompanyNameFromUrl(url);
      if urlCompany.Some? {
        r := SanitizeFilename(urlCompany.value);
        return;
      }
    }
    var lines := Split(jobDescription, '\n');
    r := ResolveLines(search, lines);
  }

  // ---------------------------------------------------------------------
  // Properties of the cascade
  // ---------------------------------------------------------------------

  /** The line scan returns the hit of the first line, among the first
      thirty, that has one. */
  lemma ScanFindsFirstHit(lines: seq<string>)
    requires ScanFrom(lines, 0).Some?
    ensures exists i :: 0 <= i < Min(ScannedLines, |lines|) && LineHit(lines, i) == ScanFrom(lines, 0)
                   && forall j :: 0 <= j < i ==> LineHit(lines, j).None?
  {
    var f := LineHits(lines);
    var n := Min(ScannedLines, |lines|);
    FirstHitIsFirst(f, 0, n);
    assert forall j :: 0 <= j < n ==> f(j) == LineHit(lines, j);
  }

  /** The line scan finds nothing exactly when none of the first thirty
      lines has a hit. */
  lemma ScanFindsNothing(lines: seq<string>)
    ensures ScanFrom(lines, 0).None? <==>
      forall j :: 0 <= j < Min(ScannedLines, |lines|) ==> LineHit(lines, j).None?
  {
    var f := LineHits(lines);
    var n := Min(ScannedLines, |lines|);
    FirstHitIsFirst(f, 0, n);
    assert forall j :: 0 <= j < n ==> f(j) == LineHit(lines, j);
  }

  /** A hit on line `i`, one of the first thirty, wins when no earlier line
      has one. */
  lemma FirstHitWins(lines: seq<string>, i: nat)
    requires i < Min(ScannedLines, |lines|)
    requires LineHit(lines, i).Some?
    requires forall j :: 0 <= j < i ==> LineHit(lines, j).None?
    ensures ScanFrom(lines, 0) == LineHit(lines, i)
  {
    var f := LineHits(lines);
    assert forall j :: 0 <= j < i ==> f(j) == LineHit(lines, j);
    FirstHitPicks(f, 0, Min(ScannedLines, |lines|), i);
  }

  /** Line `i` of the first thirty yields the same with more lines after. */
  lemma LineHitAgrees(lines: seq<string>, extra: seq<string>, i: nat)
    requires i < ScannedLines <= |lines|
    ensures LineHit(lines + extra, i) == LineHit(lines, i)
  {
    var longer := lines + extra;
    assert longer[i] == lines[i];
    if i < HeaderLines {
      assert longer[i + 1] == lines[i + 1];
      assert NextLine(longer, i) == NextLine(lines, i);
    } else {
      assert CapitalisedLine(i, lines[i], NextLine(longer, i)) == None;
      assert CapitalisedLine(i, lines[i], NextLine(lines, i)) == None;
    }
  }

  /** Only the first thirty lines are scanned: lines after them change
      nothing. */
  lemma ScanIgnoresLaterLines(lines: seq<string>, extra: seq<string>)
    requires |lines| >= ScannedLines
    ensures ScanFrom(lines + extra, 0) == ScanFrom(lines, 0)
  {
    var longer := lines + extra;
    forall i | 0 <= i < ScannedLines
      ensures LineHits(longer)(i) == LineHits(lines)(i)
    {
      LineHitAgrees(lines, extra, i);
    }
    FirstHitAgree(LineHits(longer), LineHits(lines), 0, ScannedLines);
  }

  /** The location words ", CA", ", NY" and ", TX" are compared with a
      lower-cased line, so they never match: the test is the same as one
      with the first four words alone. */
  lemma LocationWordsWithCapitalsNeverMatch(line: string)
    ensures ContainsAny(Lower(line), LocationWords) <==> ContainsAny(Lower(line), LocationWords[..4])
  {
    var low := Lower(line);
    assert forall c :: c in low ==> !IsUpperAscii(c);
    MissingCharNotContained(low, LocationWords[4], 2);
    MissingCharNotContained(low, LocationWords[5], 2);
    MissingCharNotContained(low, LocationWords[6], 2);
    assert forall k :: 0 <= k < 4 ==> LocationWords[..4][k] == LocationWords[k];
  }

  /** The `at` of the "at Company" pattern needs no space after it: a line
      that starts with "At" glued to a word loses those two letters, so
      "Atlassian Inc" yields "lassian Inc". */
  lemma AtGluedToWord(rest: string)
    requires rest != [] && IsAsciiLetter(rest[0]) && IsStripped(rest)
    ensures AtName("At" + rest) == Some(rest)
    ensures ShortName(rest) && !ContainsAny(Lower(rest), ArticleWords) ==> AtLine("At" + rest) == Some(rest)
  {
    var line := "At" + rest;
    StripByUnchanged(line, IsSpace);
    assert AtPrefix(line) == 2;
    assert line[2..] == rest;
    assert LStrip(rest, IsSpace) == rest;
    StripByUnchanged(rest, IsSpace);
  }

  /** An item picked from `most_common` occurs among the items. */
  lemma {:induction false} FrequentPickFromTop(top: seq<(string, nat)>)
    requires FrequentPick(top).Some?
    ensures exists i :: 0 <= i < |top| && top[i].0 == FrequentPick(top).value && top[i].1 >= 2
  {
  }

  /** Counts that never increase along the list. */
  predicate Descending(r: seq<(string, nat)>) {
    forall i :: 0 <= i < |r| - 1 ==> r[i].1 >= r[i + 1].1
  }

  /** The counts `most_common` lists never increase. */
  lemma {:induction false} MostCommonDescending(items: seq<(string, nat)>, n: nat)
    ensures Descending(MostCommon(items, n))
    decreases n
  {
    if n > 0 && items != [] {
      var k := FirstMaxIndex(items);
      var rest := items[..k] + items[k + 1..];
      MostCommonDescending(rest, n - 1);
      var tail := MostCommon(rest, n - 1);
      var r := MostCommon(items, n);
      assert r == [items[k]] + tail;
      forall i | 0 <= i < |r| - 1
        ensures r[i].1 >= r[i + 1].1
      {
        if i > 0 {
          assert r[i] == tail[i - 1] && r[i + 1] == tail[i];
        } else {
          assert tail[0] in rest;
          var m :| 0 <= m < |rest| && rest[m] == tail[0];
          assert rest[m] == items[if m < k then m else m + 1];
        }
      }
    }
  }

  /** `most_common` puts first the earliest item of greatest count, and the
      counts it lists never increase. */
  lemma {:induction false} MostCommonOrdered(items: seq<(string, nat)>, n: nat)
    ensures var r := MostCommon(items, n);
      && (r != [] ==> forall j :: 0 <= j < |items| ==> items[j].1 <= r[0].1)
      && (r != [] ==> exists k :: 0 <= k < |items| && r[0] == items[k] && forall j :: 0 <= j < k ==> items[j].1 < r[0].1)
      && Descending(r)
  {
    MostCommonDescending(items, n);
    if n > 0 && items != [] {
      var k := FirstMaxIndex(items);
      assert MostCommon(items, n)[0] == items[k];
    }
  }

  /** `rest` written out: `items` with the entry at `k` removed. */
  function RemoveAt(items: seq<(string, nat)>, k: nat): (rest: seq<(string, nat)>)
    requires k < |items|
    ensures |rest| == |items| - 1
  {
    items[..k] + items[k + 1..]
  }

  /** Removing the entry at `k` takes one copy of it out of the multiset. */
  lemma RemoveAtMultiset(items: seq<(string, nat)>, k: nat)
    requires k < |items|
    ensures multiset(items) == multiset(RemoveAt(items, k)) + multiset{items[k]}
  {
    assert items == items[..k] + [items[k]] + items[k + 1..];
  }

  /** `most_common(n)` keeps entries of the tally, each at most as often as
      it occurs there. */
  lemma {:induction false} MostCommonSubMultiset(items: seq<(string, nat)>, n: nat)
    ensures multiset(MostCommon(items, n)) <= multiset(items)
    decreases n
  {
    if n > 0 && items != [] {
      var k := FirstMaxIndex(items);
      MostCommonSubMultiset(RemoveAt(items, k), n - 1);
      RemoveAtMultiset(items, k);
      assert MostCommon(items, n) == [items[k]] + MostCommon(RemoveAt(items, k), n - 1);
    }
  }

  /** No entry `items` holds outside `r` has a greater count than one in `r`. */
  predicate NoneLeftOutLarger(r: seq<(string, nat)>, items: seq<(string, nat)>) {
    forall j, i :: 0 <= j < |items| && items[j] !in r && 0 <= i < |r| ==> items[j].1 <= r[i].1
  }

  /** `most_common(n)` keeps the largest counts: no entry it leaves out has a
      greater count than one it keeps. */
  lemma {:induction false} MostCommonKeepsLargest(items: seq<(string, nat)>, n: nat)
    ensures NoneLeftOutLarger(MostCommon(items, n), items)
    decreases n
  {
    if n > 0 && items != [] {
      var k := FirstMaxIndex(items);
      var rest := items[..k] + items[k + 1..];
      MostCommonKeepsLargest(rest, n - 1);
      var tail := MostCommon(rest, n - 1);
      var r := MostCommon(items, n);
      assert r == [items[k]] + tail;
      forall j, i | 0 <= j < |items| && items[j] !in r && 0 <= i < |r|
        ensures items[j].1 <= r[i].1
      {
        if i > 0 {
          assert rest[if j < k then j else j - 1] == items[j];
          assert r[i] == tail[i - 1];
        }
      }
    }
  }

  /** No entry occurs twice: the entries of a `Counter` have distinct keys. */
  predicate DistinctItems(items: seq<(string, nat)>) {
    forall a, b :: 0 <= a < b < |items| ==> items[a] != items[b]
  }

  /** Of two entries of `r` with equal counts, the earlier in `items` comes
      first. */
  predicate TiesInOrder(r: seq<(string, nat)>, items: seq<(string, nat)>) {
    forall a, b, j, j' ::
      (0 <= a < b < |r| && 0 <= j < |items| && 0 <= j' < |items| &&
       r[a] == items[j] && r[b] == items[j'] && r[a].1 == r[b].1) ==> j < j'
  }

  /** An entry of `items` missing from `r` comes after every entry of `r`
      with its count. */
  predicate LeftOutTiesLater(r: seq<(string, nat)>, items: seq<(string, nat)>) {
    forall i, j, j' ::
      (0 <= i < |r| && 0 <= j < |items| && 0 <= j' < |items| &&
       r[i] == items[j'] && items[j] !in r && items[j].1 == r[i].1) ==> j' < j
  }

  /** Removing an entry from distinct entries leaves them distinct and
      without it. */
  lemma RemoveAtDistinct(items: seq<(string, nat)>, k: nat)
    requires k < |items| && DistinctItems(items)
    ensures DistinctItems(RemoveAt(items, k)) && items[k] !in RemoveAt(items, k)
  {
    var rest := RemoveAt(items, k);
    forall a, b | 0 <= a < b < |rest| ensures rest[a] != rest[b] {
      PlaceOfRest(items, k, a);
      PlaceOfRest(items, k, b);
    }
    forall m | 0 <= m < |rest| ensures rest[m] != items[k] {
      PlaceOfRest(items, k, m);
    }
  }

  /** Where the `m`-th entry of the rest stood in `items`. */
  lemma PlaceOfRest(items: seq<(string, nat)>, k: nat, m: nat)
    requires k < |items| && m < |items| - 1
    ensures RemoveAt(items, k)[m] == items[if m < k then m else m + 1]
  {
  }

  /** The place of a kept entry in `items`, when it is also in `rest`. */
  lemma PlaceInRest(items: seq<(string, nat)>, k: nat, j: nat)
    requires k < |items| && j < |items| && j != k
    ensures var m := if j < k then j else j - 1;
      m < |RemoveAt(items, k)| && RemoveAt(items, k)[m] == items[j]
  {
  }

  /** One selection step keeps kept ties in order: the first item of
      greatest count put before a tail whose ties are in the order of the
      rest. */
  lemma StableStepTies(items: seq<(string, nat)>, k: nat, tail: seq<(string, nat)>)
    requires k < |items| && DistinctItems(items)
    requires forall j :: 0 <= j < k ==> items[j].1 < items[k].1
    requires forall x :: x in tail ==> x in RemoveAt(items, k)
    requires TiesInOrder(tail, RemoveAt(items, k))
    ensures TiesInOrder([items[k]] + tail, items)
  {
    var rest := RemoveAt(items, k);
    var r := [items[k]] + tail;
    RemoveAtDistinct(items, k);
    forall a, b, j, j' | 0 <= a < b < |r| && 0 <= j < |items| && 0 <= j' < |items| &&
        r[a] == items[j] && r[b] == items[j'] && r[a].1 == r[b].1
      ensures j < j'
    {
      assert r[b] == tail[b - 1] && tail[b - 1] in rest;
      if a == 0 {
        assert j == k;
      } else {
        assert r[a] == tail[a - 1] && tail[a - 1] in rest;
        PlaceInRest(items, k, j);
        PlaceInRest(items, k, j');
      }
    }
  }

  /** One selection step keeps left-out ties behind: the first item of
      greatest count put before a tail that leaves ties of the rest behind. */
  lemma StableStepLeftOut(items: seq<(string, nat)>, k: nat, tail: seq<(string, nat)>)
    requires k < |items| && DistinctItems(items)
    requires forall j :: 0 <= j < k ==> items[j].1 < items[k].1
    requires forall x :: x in tail ==> x in RemoveAt(items, k)
    requires LeftOutTiesLater(tail, RemoveAt(items, k))
    ensures LeftOutTiesLater([items[k]] + tail, items)
  {
    var rest := RemoveAt(items, k);
    var r := [items[k]] + tail;
    RemoveAtDistinct(items, k);
    forall i, j, j' | 0 <= i < |r| && 0 <= j < |items| && 0 <= j' < |items| &&
        r[i] == items[j'] && items[j] !in r && items[j].1 == r[i].1
      ensures j' < j
    {
      if i == 0 {
        assert j' == k;
      } else {
        assert r[i] == tail[i - 1] && tail[i - 1] in rest;
        assert items[j] !in tail;
        PlaceInRest(items, k, j);
        PlaceInRest(items, k, j');
      }
    }
  }

  /** Ties keep tally order: of two kept entries with equal counts the
      earlier in the tally is listed first, and an entry left out has a later
      place in the tally than every kept entry of its count. */
  lemma {:induction false} MostCommonStable(items: seq<(string, nat)>, n: nat)
    requires DistinctItems(items)
    ensures TiesInOrder(MostCommon(items, n), items)
    ensures LeftOutTiesLater(MostCommon(items, n), items)
    decreases n
  {
    if n > 0 && items != [] {
      var k := FirstMaxIndex(items);
      RemoveAtDistinct(items, k);
      MostCommonStable(RemoveAt(items, k), n - 1);
      assert MostCommon(items, n) == [items[k]] + MostCommon(RemoveAt(items, k), n - 1);
      StableStepTies(items, k, MostCommon(RemoveAt(items, k), n - 1));
      StableStepLeftOut(items, k, MostCommon(RemoveAt(items, k), n - 1));
    }
  }

  /** The entries of a tally are distinct. */
  lemma TallyDistinct(words: seq<string>)
    ensures DistinctItems(Tally(words))
  {
  }

  /** A word found by the frequency pattern is a capitalised word of the
      sample, not a common word, of 4 to 29 characters, and it occurs at
      least twice. */
  lemma FrequentWordShape(sample: string)
    requires FrequentWord(sample).Some?
    ensures var w := FrequentWord(sample).value;
      var words := CapitalisedWords(sample);
      && w in words && IsCapitalisedWord(w)
      && w !in CommonWords
      && multiset(Candidates(words))[w] >= 2
      && 3 < |w| < 30
  {
    var words := CapitalisedWords(sample);
    var candidates := Candidates(words);
    var items := Tally(candidates);
    var top := MostCommon(items, 3);
    var w := FrequentWord(sample).value;
    var i :| 0 <= i < |top| && top[i].0 == w && top[i].1 >= 2 && 3 < |w| < 30;
    assert top[i] in items;
    var j :| 0 <= j < |items| && items[j] == top[i];
    assert w in candidates;
    var m :| 0 <= m < |candidates| && candidates[m] == w;
  }
}
