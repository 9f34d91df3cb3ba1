/** The output side of the agent: the position title read from the job
    description, the names of the text and PDF files, the report written to
    the text file, and the record `save_all_outputs` hands back. The file
    system, the clock and the PDF renderer appear as values passed in. */
module PdfOperations {
  import opened Wrappers
  import opened Text
  import opened WebOperations

  // ---------------------------------------------------------------------
  // Position title

  /** Lines whose lower-case form contains one of these are not titles. */
  const PositionMarkers: seq<string> := ["http", "www", "posted", "date", "company", "location"]
  const TitleLines: nat := 10
  const DefaultPosition: string := "Position"

  /** A line that reads like a job title. */
  predicate IsTitleLine(s: string) {
    5 < |s| < 100 && !ContainsAny(Lower(s), PositionMarkers)
  }

  /** What one line of the description contributes: its stripped form when
      that is a title line; blank lines are skipped like any other miss. */
  function TitleCandidate(line: string): (r: Option<string>)
    ensures r.Some? <==> IsTitleLine(Strip(line))
    ensures r.Some? ==> r.value == Strip(line)
  {
    var s := Strip(line);
    if s == "" then None
    else if IsTitleLine(s) then Some(s)
    else None
  }

  function TitleHits(lines: seq<string>): nat -> Option<string> {
    (i: nat) => if i < |lines| then TitleCandidate(lines[i]) else None
  }

  /** The title read from the lines of a description: the first title line
      among the first ten, else `"Position"`. */
  function TitleFromLines(lines: seq<string>): string {
    match FirstHit(TitleHits(lines), 0, Min(TitleLines, |lines|))
    case Some(t) => t
    case None => DefaultPosition
  }

  function PositionTitle(jobDescription: string): string {
    TitleFromLines(Split(jobDescription, '\n'))
  }

  /** The body of the loop of extract_position_title for one line: strip
      it, skip it when blank, and take it when its length is right and no
      marker occurs in its lower-case form. */
  method LineTitle(line: string) returns (r: Option<string>)
    ensures r == TitleCandidate(line)
  {
    var stripped := Strip(line);
    if stripped == "" {
      return None;
    }
    if 5 < |stripped| < 100 {
      var lower := Lower(stripped);
      var marked := AnyContained(lower, PositionMarkers);
      if !marked {
        return Some(stripped);
      }
    }
    return None;
  }

  /** The loop of extract_position_title over the first `n` lines: blank
      lines and lines that are not titles are skipped, and the first title
      line ends the loop. */
  method ScanTitles(lines: seq<string>, n: nat) returns (r: Option<string>)
    requires n <= |lines|
    ensures r == FirstHit(TitleHits(lines), 0, n)
  {
    ghost var hits := TitleHits(lines);
    for i := 0 to n
      invariant FirstHit(hits, i, n) == FirstHit(hits, 0, n)
    {
      var candidate := LineTitle(lines[i]);
      if candidate.None? {
        continue;
      }
      return candidate;
    }
    return None;
  }

  /** extract_position_title: the first title line among the first ten
      lines, or `"Position"`. */
  method ExtractPositionTitle(jobDescription: string) returns (r: string)
    ensures r == PositionTitle(jobDescription)
  {
    var lines := Split(jobDescription, '\n');
    var found := ScanTitles(lines, Min(TitleLines, |lines|));
    r := if found.Some? then found.value else DefaultPosition;
  }

  /** The title is `"Position"` or a stripped line of 6 to 99 characters
      free of the markers. */
  lemma {:induction false} PositionTitleShape(jobDescription: string)
    ensures var t := PositionTitle(jobDescription);
      t == DefaultPosition || (IsTitleLine(t) && IsStripped(t))
  {
    var lines := Split(jobDescription, '\n');
    var n := Min(TitleLines, |lines|);
    FirstHitIsFirst(TitleHits(lines), 0, n);
    var found := FirstHit(TitleHits(lines), 0, n);
    if found.Some? {
      var i :| 0 <= i < n && TitleHits(lines)(i) == found && forall j :: 0 <= j < i ==> TitleHits(lines)(j).None?;
      StripIsStripped(lines[i]);
    }
  }

  /** The title is the stripped form of the first title line among the first
      ten lines, and `"Position"` when none of them is one. */
  lemma {:induction false} TitleIsFirstTitleLine(lines: seq<string>)
    ensures var n := Min(TitleLines, |lines|);
      (TitleFromLines(lines) != DefaultPosition ==>
        exists i :: 0 <= i < n && TitleCandidate(lines[i]) == Some(TitleFromLines(lines))
          && forall j :: 0 <= j < i ==> TitleCandidate(lines[j]).None?)
      && ((forall j :: 0 <= j < n ==> TitleCandidate(lines[j]).None?) ==> TitleFromLines(lines) == DefaultPosition)
  {
    var n := Min(TitleLines, |lines|);
    var hits := TitleHits(lines);
    FirstHitIsFirst(hits, 0, n);
    assert forall j :: 0 <= j < n ==> hits(j) == TitleCandidate(lines[j]);
  }

  /** Lines from the eleventh on are never read. */
  lemma {:induction false} LaterLinesIgnored(lines: seq<string>, extra: seq<string>)
    requires |lines| >= TitleLines
    ensures TitleFromLines(lines + extra) == TitleFromLines(lines)
  {
    FirstHitAgree(TitleHits(lines + extra), TitleHits(lines), 0, TitleLines);
  }

  /** A description whose first line is empty and whose second is a title
      line is titled by its second line, as the sample description of the
      test script is. */
  lemma {:induction false} BlankThenTitle(lines: seq<string>, title: string)
    requires |lines| >= 2 && lines[0] == [] && TitleCandidate(lines[1]) == Some(title)
    ensures TitleFromLines(lines) == title
  {
    var hits := TitleHits(lines);
    assert hits(0) == None;
    assert hits(1) == Some(title);
    FirstHitPicks(hits, 0, Min(TitleLines, |lines|), 1);
  }

  /** A description that opens with a newline and then a title line is
      titled by that line, whatever follows it. */
  lemma {:induction false} OpeningTitle(line: string, rest: string)
    requires '\n' !in line && TitleCandidate(line).Some?
    ensures PositionTitle("\n" + line + "\n" + rest) == Strip(line)
  {
    assert "\n" + line + "\n" + rest == [] + ['\n'] + (line + ['\n'] + rest);
    SplitConcat([], '\n', line + ['\n'] + rest);
    SplitConcat(line, '\n', rest);
    var lines := Split("\n" + line + "\n" + rest, '\n');
    assert lines == [[], line] + Split(rest, '\n');
    BlankThenTitle(lines, Strip(line));
  }

  // ---------------------------------------------------------------------
  // File names

  /** A reading of the clock. */
  datatype DateTime = DateTime(year: nat, month: nat, day: nat, hour: nat, minute: nat, second: nat)

  predicate ValidDateTime(t: DateTime) {
    1000 <= t.year <= 9999 && 1 <= t.month <= 12 && 1 <= t.day <= 31
    && t.hour < 24 && t.minute < 60 && t.second < 60
  }

  /** `n` in decimal, zero-padded on the left to `width` digits. */
  function Padded(n: nat, width: nat): (r: string)
    ensures |r| >= width
    ensures forall i :: 0 <= i < |r| ==> IsAsciiDigit(r[i])
  {
    var digits := NatToString(n);
    if |digits| >= width then digits else seq(width - |digits|, _ => '0') + digits
  }

  /** `strftime("%Y%m%d_%H%M%S")`. */
  function FileStamp(t: DateTime): string {
    (Padded(t.year, 4) + Padded(t.month, 2) + Padded(t.day, 2)) + "_"
    + (Padded(t.hour, 2) + Padded(t.minute, 2) + Padded(t.second, 2))
  }

  /** `strftime("%Y-%m-%d %H:%M:%S")`. */
  function GeneratedStamp(t: DateTime): string {
    Padded(t.year, 4) + "-" + Padded(t.month, 2) + "-" + Padded(t.day, 2) + " "
    + Padded(t.hour, 2) + ":" + Padded(t.minute, 2) + ":" + Padded(t.second, 2)
  }

  /** The position part of a file name: sanitised, or `"Position"` when the
      position is empty. */
  function SafePosition(position: string): (r: string)
    ensures IsSafeName(r)
  {
    if position == "" then DefaultPosition else Sanitized(position)
  }

  const TextSuffix: string := "_tailored.txt"
  const PdfSuffix: string := "_CV.pdf"

  /** `f"{safe_company}_{safe_position}_{timestamp}{suffix}"`. */
  function ComposedName(safeCompany: string, safePosition: string, stamp: DateTime, suffix: string): string {
    safeCompany + "_" + safePosition + "_" + FileStamp(stamp) + suffix
  }

  function TextFileName(company: string, position: string, stamp: DateTime): string {
    ComposedName(Sanitized(company), SafePosition(position), stamp, TextSuffix)
  }

  function PdfFileName(company: string, position: string, stamp: DateTime): string {
    ComposedName(Sanitized(company), SafePosition(position), stamp, PdfSuffix)
  }

  /** A stamp holds digits and one underscore only. */
  lemma {:induction false} FileStampChars(stamp: DateTime)
    ensures forall c :: c in FileStamp(stamp) ==> IsAsciiDigit(c) || c == '_'
  {
    var y, mo, d := Padded(stamp.year, 4), Padded(stamp.month, 2), Padded(stamp.day, 2);
    var h, mi, sec := Padded(stamp.hour, 2), Padded(stamp.minute, 2), Padded(stamp.second, 2);
    assert FileStamp(stamp) == y + mo + d + "_" + h + mi + sec;
  }

  /** A composed name holds a separator only if one of its parts does. */
  lemma {:induction false} ComposedNameChars(a: string, b: string, stamp: DateTime, suffix: string, c: char)
    requires c != '_' && !IsAsciiDigit(c) && c !in a && c !in b && c !in suffix
    ensures c !in ComposedName(a, b, stamp, suffix)
  {
    FileStampChars(stamp);
  }

  /** A name composed of safe parts holds no path separator. */
  lemma {:induction false} SafePartsNoSeparator(a: string, b: string, stamp: DateTime, suffix: string)
    requires IsSafeName(a) && IsSafeName(b) && suffix in [TextSuffix, PdfSuffix]
    ensures '/' !in ComposedName(a, b, stamp, suffix)
  {
    assert '/' == InvalidChars[4];
    assert '/' !in a && '/' !in b;
    assert '/' !in suffix;
    ComposedNameChars(a, b, stamp, suffix, '/');
  }

  /** Neither file name holds a path separator, so both files land directly
      in the output directory. */
  lemma {:induction false} FileNamesHaveNoSeparator(company: string, position: string, stamp: DateTime)
    ensures '/' !in TextFileName(company, position, stamp)
    ensures '/' !in PdfFileName(company, position, stamp)
  {
    SafePartsNoSeparator(Sanitized(company), SafePosition(position), stamp, TextSuffix);
    SafePartsNoSeparator(Sanitized(company), SafePosition(position), stamp, PdfSuffix);
  }

  /** The joined path is the directory, a separator unless the directory is
      empty or already ends in one, and then the name. */
  lemma {:induction false} PathJoinParts(directory: string, name: string)
    ensures var p := PathJoin(directory, name);
      StartsWith(p, directory) && EndsWith(p, name)
      && (directory != [] ==> |p| > |name| && p[|p| - |name| - 1] == '/')
  {
    var p := PathJoin(directory, name);
    var sep: string := if directory == [] || directory[|directory| - 1] == '/' then [] else ['/'];
    assert p == directory + sep + name;
    assert |p| == |directory| + |sep| + |name|;
    assert p[..|directory|] == directory;
    assert p[|p| - |name|..] == name;
  }

  /** A zero-padded number of at most `width` digits takes exactly `width`
      characters and reads back as itself. */
  lemma {:induction false} PaddedValue(n: nat, width: nat)
    requires 1 <= width && n < Pow10(width)
    ensures |Padded(n, width)| == width
    ensures DigitsValue(Padded(n, width)) == n
  {
    NatToStringShort(n, width);
    NatToStringValue(n);
    var digits := NatToString(n);
    LeadingZerosValue(width - |digits|, digits);
    if |digits| == width {
      assert seq(0, _ => '0') + digits == digits;
    }
  }

  /** The stamp of a valid clock reading is fifteen characters long: eight
      digits of date, the underscore, six digits of time. */
  lemma {:induction false} FileStampFields(t: DateTime)
    requires ValidDateTime(t)
    ensures var f := FileStamp(t);
      |f| == 15 && f[8] == '_'
      && forall i :: 0 <= i < 15 && i != 8 ==> IsAsciiDigit(f[i])
  {
    PaddedValue(t.year, 4);
    PaddedValue(t.month, 2);
    PaddedValue(t.day, 2);
    PaddedValue(t.hour, 2);
    PaddedValue(t.minute, 2);
    PaddedValue(t.second, 2);
    var date := Padded(t.year, 4) + Padded(t.month, 2) + Padded(t.day, 2);
    var time := Padded(t.hour, 2) + Padded(t.minute, 2) + Padded(t.second, 2);
    assert forall i :: 0 <= i < |date| ==> IsAsciiDigit(date[i]);
    assert forall i :: 0 <= i < |time| ==> IsAsciiDigit(time[i]);
    assert FileStamp(t) == date + "_" + time;
  }

  /** Zero-padded fields of valid readings are equal only when the numbers
      are. */
  lemma {:induction false} PaddedFieldsAgree(n1: nat, n2: nat, m1: nat, m2: nat, k1: nat, k2: nat, w: nat)
    requires 1 <= w && n1 < Pow10(w) && n2 < Pow10(w) && m1 < 100 && m2 < 100 && k1 < 100 && k2 < 100
    requires Padded(n1, w) + Padded(m1, 2) + Padded(k1, 2) == Padded(n2, w) + Padded(m2, 2) + Padded(k2, 2)
    ensures n1 == n2 && m1 == m2 && k1 == k2
  {
    PaddedValue(n1, w); PaddedValue(n2, w);
    PaddedValue(m1, 2); PaddedValue(m2, 2);
    PaddedValue(k1, 2); PaddedValue(k2, 2);
    EqualLengthParts(Padded(n1, w), Padded(m1, 2), Padded(k1, 2), Padded(n2, w), Padded(m2, 2), Padded(k2, 2));
  }

  /** Different clock readings give different stamps. */
  lemma {:induction false} FileStampInjective(t1: DateTime, t2: DateTime)
    requires ValidDateTime(t1) && ValidDateTime(t2)
    requires FileStamp(t1) == FileStamp(t2)
    ensures t1 == t2
  {
    var date1 := Padded(t1.year, 4) + Padded(t1.month, 2) + Padded(t1.day, 2);
    var time1 := Padded(t1.hour, 2) + Padded(t1.minute, 2) + Padded(t1.second, 2);
    var date2 := Padded(t2.year, 4) + Padded(t2.month, 2) + Padded(t2.day, 2);
    var time2 := Padded(t2.hour, 2) + Padded(t2.minute, 2) + Padded(t2.second, 2);
    PaddedValue(t1.year, 4); PaddedValue(t2.year, 4);
    PaddedValue(t1.month, 2); PaddedValue(t2.month, 2);
    PaddedValue(t1.day, 2); PaddedValue(t2.day, 2);
    EqualLengthParts(date1, "_", time1, date2, "_", time2);
    assert Pow10(2) == 100;
    PaddedFieldsAgree(t1.year, t2.year, t1.month, t2.month, t1.day, t2.day, 4);
    PaddedFieldsAgree(t1.hour, t2.hour, t1.minute, t2.minute, t1.second, t2.second, 2);
  }

  /** Two saves at different moments never write the same file. */
  lemma {:induction false} NamesDistinctInTime(a: string, b: string, t1: DateTime, t2: DateTime, suffix: string)
    requires ValidDateTime(t1) && ValidDateTime(t2) && t1 != t2
    ensures ComposedName(a, b, t1, suffix) != ComposedName(a, b, t2, suffix)
  {
    var prefix := a + "_" + b + "_";
    FileStampFields(t1);
    FileStampFields(t2);
    assert ComposedName(a, b, t1, suffix) == prefix + FileStamp(t1) + suffix;
    assert ComposedName(a, b, t2, suffix) == prefix + FileStamp(t2) + suffix;
    if ComposedName(a, b, t1, suffix) == ComposedName(a, b, t2, suffix) {
      EqualLengthParts(prefix, FileStamp(t1), suffix, prefix, FileStamp(t2), suffix);
      FileStampInjective(t1, t2);
    }
  }

  lemma {:induction false} TextFilesDistinctInTime(company: string, position: string, t1: DateTime, t2: DateTime)
    requires ValidDateTime(t1) && ValidDateTime(t2) && t1 != t2
    ensures TextFileName(company, position, t1) != TextFileName(company, position, t2)
  {
    NamesDistinctInTime(Sanitized(company), SafePosition(position), t1, t2, TextSuffix);
  }

  /** The PDF never overwrites the text file: their paths differ in their
      last character. */
  lemma {:induction false} TextAndPdfPathsDiffer(outputDir: string, company: string, position: string, t1: DateTime, t2: DateTime)
    ensures PathJoin(outputDir, TextFileName(company, position, t1))
         != PathJoin(outputDir, PdfFileName(company, position, t2))
  {
    var a, b := Sanitized(company), SafePosition(position);
    var text := ComposedName(a, b, t1, TextSuffix);
    var pdf := ComposedName(a, b, t2, PdfSuffix);
    assert text[|text| - 1] == 't';
    assert pdf[|pdf| - 1] == 'f';
    PathsOfDifferentEndings(outputDir, text, pdf);
  }

  /** A joined path ends with the last character of the name. */
  lemma PathJoinLast(directory: string, name: string)
    requires name != []
    ensures var p := PathJoin(directory, name); p != [] && p[|p| - 1] == name[|name| - 1]
  {
  }

  /** Names that end differently give different paths in one directory. */
  lemma {:induction false} PathsOfDifferentEndings(directory: string, n1: string, n2: string)
    requires n1 != [] && n2 != [] && n1[|n1| - 1] != n2[|n2| - 1]
    ensures PathJoin(directory, n1) != PathJoin(directory, n2)
  {
    PathJoinLast(directory, n1);
    PathJoinLast(directory, n2);
  }

  // ---------------------------------------------------------------------
  // Text report

  /** The seven generated texts the agent hands to the output stage. */
  datatype TailoredContent = TailoredContent(
    keywordsAnalysis: string, tailoredSummary: string, tailoredSkills: string,
    tailoredExperience: string, tailoredNameDesc: string, coverLetter: string,
    interestAnswer: string)

  const RuleLength: nat := 80

  function Rule(): (r: string)
    ensures |r| == RuleLength
  {
    seq(RuleLength, _ => '=')
  }

  /** A title between two rules, each on its own line. */
  function Banner(title: string): string {
    Rule() + "\n" + title + "\n" + Rule() + "\n"
  }

  /** The sections of the report, in the order they are written. */
  function ReportSections(c: TailoredContent): seq<(string, string)> {
    [("KEYWORDS ANALYSIS", c.keywordsAnalysis),
     ("PROFESSIONAL TITLE & SPECIALIZATION", c.tailoredNameDesc),
     ("PROFESSIONAL SUMMARY", c.tailoredSummary),
     ("SKILLS", c.tailoredSkills),
     ("EXPERIENCE BULLETS", c.tailoredExperience),
     ("COVER LETTER", c.coverLetter),
     ("WHY ARE YOU INTERESTED IN THIS POSITION?", c.interestAnswer)]
  }

  /** One section: its banner, its text and a blank line. */
  function SectionText(section: (string, string)): string {
    Banner(section.0) + section.1 + "\n\n"
  }

  /** The sections, one after the other. */
  function SectionsText(sections: seq<(string, string)>): string {
    ConcatMap(SectionText, sections)
  }

  function ReportHeader(company: string, position: string, generated: DateTime): string {
    "\n" + Banner("TAILORED RESUME AND COVER LETTER")
    + "Company: " + company + "\n"
    + "Position: " + position + "\n"
    + "Generated: " + GeneratedStamp(generated) + "\n"
    + Rule() + "\n\n"
  }

  /** The content written by save_text_output: it opens with the title
      banner and the company and position lines, and closes with the end
      banner. */
  function TextReport(company: string, position: string, generated: DateTime, c: TailoredContent): (r: string)
    ensures StartsWith(r, "\n" + Banner("TAILORED RESUME AND COVER LETTER") + "Company: " + company + "\n" + "Position: " + position + "\n")
    ensures EndsWith(r, Banner("END OF DOCUMENT"))
  {
    var head := ReportHeader(company, position, generated);
    var opening := "\n" + Banner("TAILORED RESUME AND COVER LETTER") + "Company: " + company + "\n" + "Position: " + position + "\n";
    var body := SectionsText(ReportSections(c));
    var foot := Banner("END OF DOCUMENT");
    assert head == opening + ("Generated: " + GeneratedStamp(generated) + "\n" + Rule() + "\n\n");
    assert (head + body + foot)[..|opening|] == opening;
    assert (head + body + foot)[|head + body + foot| - |foot|..] == foot;
    head + body + foot
  }

  /** A section sits in any text made of something, the sections and
      something else. */
  lemma {:induction false} SectionInside(head: string, sections: seq<(string, string)>, foot: string, k: nat)
    requires k < |sections|
    ensures Contains(head + SectionsText(sections) + foot, Banner(sections[k].0) + sections[k].1)
  {
    var section := sections[k];
    var before, after := sections[..k], sections[k + 1..];
    assert sections == before + ([section] + after);
    ConcatMapAppend(SectionText, before, [section] + after);
    assert ([section] + after)[1..] == after;
    assert SectionsText([section] + after) == SectionText(section) + SectionsText(after);
    AppendAssoc(SectionsText(before), SectionText(section), SectionsText(after));
    ContainsPrefix(Banner(section.0) + section.1, "\n\n");
    ContainsWithin(SectionsText(before), SectionText(section), SectionsText(after), Banner(section.0) + section.1);
    ContainsWithin(head, SectionsText(sections), foot, Banner(section.0) + section.1);
  }

  /** Every generated text appears in the report under its own banner. */
  lemma {:induction false} ReportHoldsSection(company: string, position: string, generated: DateTime, c: TailoredContent, k: nat)
    requires k < |ReportSections(c)|
    ensures var section := ReportSections(c)[k];
      Contains(TextReport(company, position, generated, c), Banner(section.0) + section.1)
  {
    SectionInside(ReportHeader(company, position, generated), ReportSections(c), Banner("END OF DOCUMENT"), k);
  }

  // ---------------------------------------------------------------------
  // Saving

  /** A file the output stage writes: its path and what it holds. */
  datatype WrittenFile = WrittenFile(path: string, content: string)

  /** A path inside `directory` whose file name ends with `suffix`. */
  predicate FileIn(path: string, directory: string, suffix: string) {
    && StartsWith(path, directory)
    && EndsWith(path, suffix)
    && forall i :: |directory| < i < |path| ==> path[i] != '/'
  }

  /** A composed name ends with its suffix. */
  lemma ComposedNameEndsWith(a: string, b: string, stamp: DateTime, suffix: string)
    ensures EndsWith(ComposedName(a, b, stamp, suffix), suffix)
  {
    var name := ComposedName(a, b, stamp, suffix);
    assert name[|name| - |suffix|..] == suffix;
  }

  /** Joining a name free of `/` to a directory gives a file directly in it. */
  lemma {:induction false} JoinedFileIn(directory: string, name: string, suffix: string)
    requires EndsWith(name, suffix) && '/' !in name
    ensures FileIn(PathJoin(directory, name), directory, suffix)
  {
    var p := PathJoin(directory, name);
    var start := |p| - |name|;
    assert p[start..] == name;
    assert p[|p| - |suffix|..] == name[|name| - |suffix|..];
    forall i | |directory| < i < |p| ensures p[i] != '/' {
      assert p[i] == name[i - start];
    }
  }

  /** save_text_output: the file it writes; its path is what it returns. The
      path names a `_tailored.txt` file directly inside the output directory,
      and the file holds the report. */
  function SaveTextOutput(outputDir: string, company: string, position: string,
                          c: TailoredContent, stamp: DateTime, generated: DateTime): (r: WrittenFile)
    ensures FileIn(r.path, outputDir, TextSuffix)
    ensures r.content == TextReport(company, position, generated, c)
  {
    var name := TextFileName(company, position, stamp);
    FileNamesHaveNoSeparator(company, position, stamp);
    ComposedNameEndsWith(Sanitized(company), SafePosition(position), stamp, TextSuffix);
    JoinedFileIn(outputDir, name, TextSuffix);
    WrittenFile(PathJoin(outputDir, name), TextReport(company, position, generated, c))
  }

  /** create_tailored_cv_pdf: the path of the PDF when rendering succeeds,
      `None` when it raises. The path names a `_CV.pdf` file directly inside
      the output directory. */
  function CreateTailoredCvPdf(outputDir: string, company: string, position: string,
                               stamp: DateTime, rendered: bool): (r: Option<string>)
    ensures r.Some? <==> rendered
    ensures r.Some? ==> FileIn(r.value, outputDir, PdfSuffix)
  {
    if rendered then
      var name := PdfFileName(company, position, stamp);
      FileNamesHaveNoSeparator(company, position, stamp);
      ComposedNameEndsWith(Sanitized(company), SafePosition(position), stamp, PdfSuffix);
      JoinedFileIn(outputDir, name, PdfSuffix);
      Some(PathJoin(outputDir, name))
    else None
  }

  /** The dictionary returned by save_all_outputs. */
  datatype OutputFiles = OutputFiles(textFile: string, pdfFile: Option<string>, position: string)

  /** save_all_outputs, given the clock readings of the text file name, of
      its `Generated:` line and of the PDF name, and whether rendering
      succeeds. */
  function SaveAllOutputs(outputDir: string, company: string, jobDescription: string,
                          c: TailoredContent, textStamp: DateTime, generated: DateTime,
                          pdfStamp: DateTime, rendered: bool): (r: OutputFiles)
    ensures r.position == PositionTitle(jobDescription)
    ensures r.pdfFile.None? <==> !rendered
  {
    var position := PositionTitle(jobDescription);
    var text := SaveTextOutput(outputDir, company, position, c, textStamp, generated);
    var pdf := CreateTailoredCvPdf(outputDir, company, position, pdfStamp, rendered);
    OutputFiles(text.path, pdf, position)
  }

  /** The record names two different files whenever the PDF exists, and the
      text file is the one named after the extracted position and the first
      clock reading. */
  lemma {:induction false} SavedFilesDistinct(outputDir: string, company: string, jobDescription: string,
                           c: TailoredContent, textStamp: DateTime, generated: DateTime,
                           pdfStamp: DateTime, rendered: bool)
    ensures var r := SaveAllOutputs(outputDir, company, jobDescription, c, textStamp, generated, pdfStamp, rendered);
      (r.pdfFile.Some? ==> r.pdfFile.value != r.textFile)
      && r.textFile == PathJoin(outputDir, TextFileName(company, r.position, textStamp))
  {
    TextAndPdfPathsDiffer(outputDir, company, PositionTitle(jobDescription), textStamp, pdfStamp);
  }
}
