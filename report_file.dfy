/** The end of `generate_annual_report` in backend/your_pipeline.py: the
    Markdown lines are joined with blank lines, and the PDF is named after
    the company, with its spaces turned into underscores, and the fiscal
    year. Converting the Markdown to HTML and the HTML to PDF are left to
    outside libraries and are not part of this model. */
module ReportFile {
  import opened Upload
  import opened Numerals
  import opened Pipeline

  /** The separator of `"\n\n".join(md_lines)`: one blank line. */
  const BlankLine: string := "\n\n"

  /** Python's `sep.join(parts)`. */
  function Join(sep: string, parts: seq<string>): string
    decreases |parts|
  {
    if |parts| == 0 then ""
    else if |parts| == 1 then parts[0]
    else parts[0] + sep + Join(sep, parts[1..])
  }

  /** Where the `i`-th part starts in the joined text. */
  function Offset(sep: string, parts: seq<string>, i: nat): nat
    requires i <= |parts|
  {
    if i == 0 then 0 else Offset(sep, parts, i - 1) + |parts[i - 1]| + |sep|
  }

  lemma {:induction false} OffsetTail(sep: string, parts: seq<string>, i: nat)
    requires 1 <= i <= |parts|
    ensures Offset(sep, parts, i) == |parts[0]| + |sep| + Offset(sep, parts[1..], i - 1)
  {
    if i > 1 {
      OffsetTail(sep, parts, i - 1);
    }
  }

  /** A slice of the right operand of a concatenation, seen through the
      concatenation. */
  lemma SliceRight(a: string, b: string, lo: nat, hi: nat)
    requires lo <= hi <= |b|
    ensures (a + b)[|a| + lo..|a| + hi] == b[lo..hi]
  {
  }

  /** The joined text is as long as the parts plus one separator between
      each two neighbours. */
  lemma {:induction false} JoinLength(sep: string, parts: seq<string>)
    requires |parts| > 0
    ensures |Join(sep, parts)| + |sep| == Offset(sep, parts, |parts|)
    decreases |parts|
  {
    if |parts| > 1 {
      JoinLength(sep, parts[1..]);
      OffsetTail(sep, parts, |parts|);
    }
  }

  /** Each part appears whole at its offset. */
  lemma {:induction false} JoinPart(sep: string, parts: seq<string>, i: nat)
    requires i < |parts|
    ensures Offset(sep, parts, i) + |parts[i]| <= |Join(sep, parts)|
    ensures Join(sep, parts)[Offset(sep, parts, i)..Offset(sep, parts, i) + |parts[i]|] == parts[i]
    decreases i
  {
    var j := Join(sep, parts);
    if i == 0 {
      assert j[..|parts[0]|] == parts[0];
    } else {
      var tail := parts[1..];
      var head := parts[0] + sep;
      assert j == head + Join(sep, tail);
      JoinPart(sep, tail, i - 1);
      OffsetTail(sep, parts, i);
      var o := Offset(sep, tail, i - 1);
      assert tail[i - 1] == parts[i];
      SliceRight(head, Join(sep, tail), o, o + |parts[i]|);
    }
  }

  /** Between each part and the next there is exactly the separator. */
  lemma {:induction false} JoinSeparator(sep: string, parts: seq<string>, i: nat)
    requires i + 1 < |parts|
    ensures Offset(sep, parts, i + 1) <= |Join(sep, parts)|
    ensures Join(sep, parts)[Offset(sep, parts, i) + |parts[i]|..Offset(sep, parts, i + 1)] == sep
    decreases i
  {
    var j := Join(sep, parts);
    var tail := parts[1..];
    var head := parts[0] + sep;
    assert j == head + Join(sep, tail);
    if i == 0 {
      assert j[|parts[0]|..|head|] == sep;
    } else {
      JoinSeparator(sep, tail, i - 1);
      OffsetTail(sep, parts, i);
      OffsetTail(sep, parts, i + 1);
      var o := Offset(sep, tail, i - 1);
      assert tail[i - 1] == parts[i];
      SliceRight(head, Join(sep, tail), o + |parts[i]|, Offset(sep, tail, i));
    }
  }

  /** `company_name.replace(" ", "_")`: every space becomes an underscore,
      every other character stays. */
  function Slug(name: string): (slug: string)
    ensures |slug| == |name|
    ensures forall i :: 0 <= i < |name| ==>
      slug[i] == (if name[i] == ' ' then '_' else name[i])
    decreases |name|
  {
    if name == [] then []
    else [if name[0] == ' ' then '_' else name[0]] + Slug(name[1..])
  }

  /** The slug holds no space, so it stays one token in the file name. */
  lemma SlugHasNoSpace(name: string)
    ensures ' ' !in Slug(name)
  {
    var slug := Slug(name);
    forall i | 0 <= i < |slug| ensures slug[i] != ' ' {
    }
  }

  /** Slugging a slug changes nothing. */
  lemma SlugIdempotent(name: string)
    ensures Slug(Slug(name)) == Slug(name)
  {
    SlugHasNoSpace(name);
  }

  /** Names that differ only where one has a space and the other an
      underscore share a slug. */
  lemma SlugMergesSpaceAndUnderscore(a: string, b: string)
    requires |a| == |b|
    requires forall i :: 0 <= i < |a| ==>
      a[i] == b[i] || ((a[i] == ' ' || a[i] == '_') && (b[i] == ' ' || b[i] == '_'))
    ensures Slug(a) == Slug(b)
  {
    forall i | 0 <= i < |a| ensures Slug(a)[i] == Slug(b)[i] {
    }
  }

  /** Two distinct names that the slug merges: "A B" and "A_B". */
  lemma SlugCollision()
    ensures "A B" != "A_B" && Slug("A B") == Slug("A_B")
  {
    assert "A B"[1] != "A_B"[1];
    SlugMergesSpaceAndUnderscore("A B", "A_B");
  }

  const OutPrefix: string := "annual_report_"
  const OutSuffix: string := ".pdf"

  /** `f"annual_report_{company_slug}_{ar.fiscal_year_end.year}.pdf"`. */
  function OutName(ar: AnnualReport): string
  {
    OutPrefix + Slug(ar.companyName) + "_" + Decimal(ar.fiscalYearEnd.year) + OutSuffix
  }

  /** The position of the last `c` in `s`, if any. */
  function LastIndexOf(s: string, c: char): (r: Option<nat>)
    ensures r.Some? ==>
      r.value < |s| && s[r.value] == c && forall j :: r.value < j < |s| ==> s[j] != c
    ensures r.None? ==> c !in s
    decreases |s|
  {
    if s == [] then None
    else if s[|s| - 1] == c then Some(|s| - 1)
    else LastIndexOf(s[..|s| - 1], c)
  }

  /** Reads a file name of that form back into its slug and its year: the
      year is what follows the last underscore. */
  function ParseOutName(n: string): Option<(string, nat)>
  {
    if |n| < |OutPrefix| + |OutSuffix| || n[..|OutPrefix|] != OutPrefix
       || n[|n| - |OutSuffix|..] != OutSuffix
    then None
    else
      var mid := n[|OutPrefix|..|n| - |OutSuffix|];
      match LastIndexOf(mid, '_')
      case None => None
      case Some(k) =>
        match ParseDecimal(mid[k + 1..])
        case None => None
        case Some(year) => Some((mid[..k], year))
  }

  /** Digits after an underscore: the last underscore is that one. */
  lemma LastUnderscore(slug: string, digits: string)
    requires AllDigits(digits)
    ensures LastIndexOf(slug + "_" + digits, '_') == Some(|slug|)
  {
    var mid := slug + "_" + digits;
    assert mid[|slug|] == '_';
    assert '_' in mid;
    var k := LastIndexOf(mid, '_').value;
    assert k >= |slug|;
    if k > |slug| {
      assert false;
    }
  }

  /** Stripping the fixed prefix and suffix gives back what was between
      them. */
  lemma StripAffixes(mid: string)
    ensures var n := OutPrefix + mid + OutSuffix;
      n[..|OutPrefix|] == OutPrefix && n[|n| - |OutSuffix|..] == OutSuffix &&
      n[|OutPrefix|..|n| - |OutSuffix|] == mid
  {
  }

  /** A name made of the prefix, a slug, an underscore, the decimal year
      and the suffix reads back into that slug and year. */
  lemma ParseComposed(slug: string, year: nat)
    ensures ParseOutName(OutPrefix + (slug + "_" + Decimal(year)) + OutSuffix) == Some((slug, year))
  {
    var digits := Decimal(year);
    var mid := slug + "_" + digits;
    StripAffixes(mid);
    LastUnderscore(slug, digits);
    assert mid[|slug| + 1..] == digits && mid[..|slug|] == slug;
    ParseDecimalRoundTrip(year);
  }

  /** Two reports whose company names differ only by spaces against
      underscores, with the same fiscal year, are written to the same
      file. */
  lemma OutNameMerges(ar1: AnnualReport, ar2: AnnualReport)
    requires |ar1.companyName| == |ar2.companyName|
    requires forall i :: 0 <= i < |ar1.companyName| ==>
      ar1.companyName[i] == ar2.companyName[i] ||
      ((ar1.companyName[i] == ' ' || ar1.companyName[i] == '_') &&
       (ar2.companyName[i] == ' ' || ar2.companyName[i] == '_'))
    requires ar1.fiscalYearEnd.year == ar2.fiscalYearEnd.year
    ensures OutName(ar1) == OutName(ar2)
  {
    SlugMergesSpaceAndUnderscore(ar1.companyName, ar2.companyName);
  }

  /** The file name determines the slug of the company and the fiscal
      year: reading it back gives both. */
  lemma OutNameRoundTrip(ar: AnnualReport)
    ensures ParseOutName(OutName(ar)) == Some((Slug(ar.companyName), ar.fiscalYearEnd.year))
  {
    var slug := Slug(ar.companyName);
    var digits := Decimal(ar.fiscalYearEnd.year);
    assert OutName(ar) == OutPrefix + (slug + "_" + digits) + OutSuffix;
    ParseComposed(slug, ar.fiscalYearEnd.year);
  }

  /** The text handed to the Markdown converter: the lines joined with
      blank lines. It opens with the title line. */
  function Markdown(ar: AnnualReport, fmt: Formatting): (md: string)
    ensures |md| >= |TitleLine(ar)| && md[..|TitleLine(ar)|] == TitleLine(ar)
  {
    var lines := MarkdownLines(ar, fmt);
    HeaderFirst(ar, fmt);
    JoinPart(BlankLine, lines, 0);
    assert Offset(BlankLine, lines, 0) == 0;
    Join(BlankLine, lines)
  }

  /** The report half of `generate_annual_report`: the Markdown text and
      the name of the PDF it is written to. */
  method RenderReport(ar: AnnualReport, fmt: Formatting) returns (md: string, outName: string)
    ensures md == Markdown(ar, fmt)
    ensures outName == OutName(ar)
    ensures ParseOutName(outName) == Some((Slug(ar.companyName), ar.fiscalYearEnd.year))
  {
    var mdLines := BuildMarkdownLines(ar, fmt);
    md := Join(BlankLine, mdLines);
    outName := OutName(ar);
    OutNameRoundTrip(ar);
  }
}
