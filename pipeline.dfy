/** The report half of `generate_annual_report` in backend/your_pipeline.py:
    once the model's answer is parsed into an `AnnualReport`, the Markdown
    lines are assembled in a fixed order, some of them only when their field
    is present, joined with blank lines, and the output file is named after
    the company and the fiscal year.

    The specification of the assembly is `Layout`: every line the report can
    ever hold, in their fixed order (`Template`), kept only when its
    inclusion rule (`Included`) holds. `BuildMarkdownLines` assembles the
    lines the way the code does, append by append, and is proved to produce
    exactly the rendering of that layout. */
module Pipeline {
  import opened Upload
  import opened Numerals

  datatype Date = Date(year: nat, month: nat, day: nat)

  /** The parsed answer. Every field after `filingDate` may be missing. */
  datatype AnnualReport = AnnualReport(
    companyName: string,
    cik: string,
    fiscalYearEnd: Date,
    filingDate: Date,
    totalRevenue: Option<real>,
    netIncome: Option<real>,
    totalAssets: Option<real>,
    totalLiabilities: Option<real>,
    operatingCashFlow: Option<real>,
    cashAndEquivalents: Option<real>,
    numEmployees: Option<int>,
    auditor: Option<string>,
    businessDescription: Option<string>,
    riskFactors: Option<seq<string>>,
    managementDiscussion: Option<string>)

  /** The two renderings the code leaves to Python: the `,.2f` format of a
      float and `strftime('%Y-%m-%d')` of a date. They are inputs here. */
  datatype Formatting = Formatting(money: real -> string, isoDate: Date -> string)

  /** Python truthiness of an optional string: present and non-empty. */
  predicate Truthy(s: Option<string>)
  {
    s.Some? && s.value != ""
  }

  /** Python truthiness of the optional risk-factor list. */
  predicate HasRisks(ar: AnnualReport)
  {
    ar.riskFactors.Some? && |ar.riskFactors.value| > 0
  }

  function RiskCount(ar: AnnualReport): nat
  {
    if ar.riskFactors.Some? then |ar.riskFactors.value| else 0
  }

  datatype Field = Revenue | NetIncome | Assets | Liabilities | CashFlow | Cash | Employees

  /** A financial line is emitted when its field `is not None`, so a zero
      value is emitted too. */
  predicate Present(ar: AnnualReport, f: Field)
  {
    match f
    case Revenue => ar.totalRevenue.Some?
    case NetIncome => ar.netIncome.Some?
    case Assets => ar.totalAssets.Some?
    case Liabilities => ar.totalLiabilities.Some?
    case CashFlow => ar.operatingCashFlow.Some?
    case Cash => ar.cashAndEquivalents.Some?
    case Employees => ar.numEmployees.Some?
  }

  /** Where each line of the report comes from. */
  datatype Origin =
    | Title | Cik | FiscalYearEnd | FilingDate | FinancialsHeading
    | Financial(field: Field)
    | Auditor
    | BusinessHeading | BusinessBody
    | RiskHeading | RiskItem(index: nat)
    | DiscussionHeading | DiscussionBody

  /** The inclusion rule of each line: the header and the "Financials"
      heading always; a financial line when its field is present; the
      auditor line and the two prose sections when their text is truthy; the
      risk section, one item per factor, when the list is truthy. */
  predicate Included(ar: AnnualReport, o: Origin)
  {
    match o
    case Financial(f) => Present(ar, f)
    case Auditor => Truthy(ar.auditor)
    case BusinessHeading => Truthy(ar.businessDescription)
    case BusinessBody => Truthy(ar.businessDescription)
    case RiskHeading => HasRisks(ar)
    case RiskItem(i) => HasRisks(ar) && i < |ar.riskFactors.value|
    case DiscussionHeading => Truthy(ar.managementDiscussion)
    case DiscussionBody => Truthy(ar.managementDiscussion)
    case _ => true
  }

  /** The section order: header, financials, auditor, business description,
      risk factors, management discussion; `Minor` orders lines that share
      a rank. */
  function Rank(o: Origin): nat
  {
    match o
    case Title => 0
    case Cik => 1
    case FiscalYearEnd => 2
    case FilingDate => 3
    case FinancialsHeading => 4
    case Financial(f) => 5 + FieldIndex(f)
    case Auditor => 12
    case BusinessHeading => 13
    case BusinessBody => 14
    case RiskHeading => 15
    case RiskItem(_) => 16
    case DiscussionHeading => 17
    case DiscussionBody => 18
  }

  /** The order of the financial lines. */
  function FieldIndex(f: Field): nat
  {
    match f
    case Revenue => 0
    case NetIncome => 1
    case Assets => 2
    case Liabilities => 3
    case CashFlow => 4
    case Cash => 5
    case Employees => 6
  }

  function Minor(o: Origin): nat
  {
    if o.RiskItem? then o.index else 0
  }

  predicate Before(a: Origin, b: Origin)
  {
    Rank(a) < Rank(b) || (Rank(a) == Rank(b) && Minor(a) < Minor(b))
  }

  /** Strictly increasing in the section order: no line twice, none out of
      place. */
  predicate Ordered(s: seq<Origin>)
  {
    forall i, j :: 0 <= i < j < |s| ==> Before(s[i], s[j])
  }

  function RiskItems(n: nat): (s: seq<Origin>)
    ensures |s| == n && forall i :: 0 <= i < n ==> s[i] == RiskItem(i)
  {
    seq(n, i requires 0 <= i < n => RiskItem(i))
  }

  /** The lines before the risk items, in order. */
  const Leading: seq<Origin> := [
    Title, Cik, FiscalYearEnd, FilingDate, FinancialsHeading,
    Financial(Revenue), Financial(NetIncome), Financial(Assets),
    Financial(Liabilities), Financial(CashFlow), Financial(Cash),
    Financial(Employees), Auditor, BusinessHeading, BusinessBody, RiskHeading]

  /** The lines after the risk items, in order. */
  const Trailing: seq<Origin> := [DiscussionHeading, DiscussionBody]

  /** Every line the report of `ar` can hold, in order. */
  function Template(ar: AnnualReport): seq<Origin>
  {
    Leading + RiskItems(RiskCount(ar)) + Trailing
  }

  /** The lines of `s` whose inclusion rule holds, in their order. */
  function Keep(ar: AnnualReport, s: seq<Origin>): (r: seq<Origin>)
    ensures forall o :: o in r ==> Included(ar, o)
    decreases |s|
  {
    if s == [] then []
    else (if Included(ar, s[0]) then [s[0]] else []) + Keep(ar, s[1..])
  }

  /** The origins of the lines of the report, in order. */
  function Layout(ar: AnnualReport): (l: seq<Origin>)
    ensures forall o :: o in l ==> Included(ar, o)
  {
    Keep(ar, Template(ar))
  }

  function FieldLabel(f: Field): string
  {
    match f
    case Revenue => "- **Total Revenue:** $"
    case NetIncome => "- **Net Income:** $"
    case Assets => "- **Total Assets:** $"
    case Liabilities => "- **Total Liabilities:** $"
    case CashFlow => "- **Operating Cash Flow:** $"
    case Cash => "- **Cash & Equivalents:** $"
    case Employees => "- **Number of Employees:** "
  }

  /** The value part of a financial line: the formatted amount (its `$`
      is part of the label), or the plain employee count. */
  function FieldValue(ar: AnnualReport, fmt: Formatting, f: Field): string
    requires Present(ar, f)
  {
    match f
    case Revenue => fmt.money(ar.totalRevenue.value)
    case NetIncome => fmt.money(ar.netIncome.value)
    case Assets => fmt.money(ar.totalAssets.value)
    case Liabilities => fmt.money(ar.totalLiabilities.value)
    case CashFlow => fmt.money(ar.operatingCashFlow.value)
    case Cash => fmt.money(ar.cashAndEquivalents.value)
    case Employees => IntDecimal(ar.numEmployees.value)
  }

  function TitleLine(ar: AnnualReport): string
  {
    "# " + ar.companyName + " Annual Report " + Decimal(ar.fiscalYearEnd.year)
  }

  /** The text of the line of origin `o`. */
  function LineText(ar: AnnualReport, fmt: Formatting, o: Origin): string
    requires Included(ar, o)
  {
    match o
    case Title => TitleLine(ar)
    case Cik => "**CIK:** " + ar.cik
    case FiscalYearEnd => "**Fiscal Year End:** " + fmt.isoDate(ar.fiscalYearEnd)
    case FilingDate => "**Filing Date:** " + fmt.isoDate(ar.filingDate)
    case FinancialsHeading => "## Financials"
    case Financial(f) => FieldLabel(f) + FieldValue(ar, fmt, f)
    case Auditor => "- **Auditor:** " + ar.auditor.value
    case BusinessHeading => "\n## Business Description"
    case BusinessBody => ar.businessDescription.value
    case RiskHeading => "\n## Risk Factors"
    case RiskItem(i) => "- " + ar.riskFactors.value[i]
    case DiscussionHeading => "\n## Management Discussion & Analysis"
    case DiscussionBody => ar.managementDiscussion.value
  }

  function Render(ar: AnnualReport, fmt: Formatting, os: seq<Origin>): (lines: seq<string>)
    requires forall o :: o in os ==> Included(ar, o)
    ensures |lines| == |os|
    ensures forall i :: 0 <= i < |os| ==> lines[i] == LineText(ar, fmt, os[i])
  {
    seq(|os|, i requires 0 <= i < |os| => LineText(ar, fmt, os[i]))
  }

  /** The text of the lines of `s` whose inclusion rule holds, in order. */
  function Lines(ar: AnnualReport, fmt: Formatting, s: seq<Origin>): seq<string>
    decreases |s|
  {
    if s == [] then []
    else (if Included(ar, s[0]) then [LineText(ar, fmt, s[0])] else []) + Lines(ar, fmt, s[1..])
  }

  /** `md_lines` as the specification has it: the template, filtered by the
      inclusion rules and rendered. */
  function MarkdownLines(ar: AnnualReport, fmt: Formatting): seq<string>
  {
    Lines(ar, fmt, Template(ar))
  }

  // ---------------------------------------------------------------------
  // Properties of the layout

  lemma {:induction false} KeepAppend(ar: AnnualReport, a: seq<Origin>, b: seq<Origin>)
    ensures Keep(ar, a + b) == Keep(ar, a) + Keep(ar, b)
    decreases |a|
  {
    if a == [] {
      assert a + b == b;
    } else {
      assert (a + b)[0] == a[0] && (a + b)[1..] == a[1..] + b;
      KeepAppend(ar, a[1..], b);
    }
  }

  lemma {:induction false} KeepMembership(ar: AnnualReport, s: seq<Origin>, o: Origin)
    ensures o in Keep(ar, s) <==> o in s && Included(ar, o)
    decreases |s|
  {
    if s != [] {
      KeepMembership(ar, s[1..], o);
      assert s == [s[0]] + s[1..];
    }
  }

  lemma {:induction false} OrderedAppend(a: seq<Origin>, b: seq<Origin>)
    requires Ordered(a) && Ordered(b)
    requires forall i, j :: 0 <= i < |a| && 0 <= j < |b| ==> Before(a[i], b[j])
    ensures Ordered(a + b)
  {
    forall i, j | 0 <= i < j < |a + b|
      ensures Before((a + b)[i], (a + b)[j])
    {
      if j < |a| {
      } else if i >= |a| {
        assert (a + b)[i] == b[i - |a|] && (a + b)[j] == b[j - |a|];
      } else {
        assert (a + b)[j] == b[j - |a|];
      }
    }
  }

  lemma {:induction false} KeepOrdered(ar: AnnualReport, s: seq<Origin>)
    requires Ordered(s)
    ensures Ordered(Keep(ar, s))
    decreases |s|
  {
    if s != [] {
      var rest := Keep(ar, s[1..]);
      assert Ordered(s[1..]);
      KeepOrdered(ar, s[1..]);
      forall j | 0 <= j < |rest| ensures Before(s[0], rest[j]) {
        KeepMembership(ar, s[1..], rest[j]);
      }
      OrderedAppend(if Included(ar, s[0]) then [s[0]] else [], rest);
    }
  }

  lemma LeadingOrdered()
    ensures Ordered(Leading)
    ensures forall i :: 0 <= i < |Leading| ==> Rank(Leading[i]) == i
  {
    forall i | 0 <= i < |Leading| ensures Rank(Leading[i]) == i {
    }
  }

  lemma TemplateOrdered(ar: AnnualReport)
    ensures Ordered(Template(ar))
  {
    LeadingOrdered();
    var items := RiskItems(RiskCount(ar));
    OrderedAppend(Leading, items);
    var front := Leading + items;
    forall i | 0 <= i < |front| ensures Rank(front[i]) <= 16 {
      if i >= |Leading| {
        assert front[i] == items[i - |Leading|];
      }
    }
    OrderedAppend(front, Trailing);
  }

  /** The lines appear in the fixed section order, and within the risk
      section in the order of the factors. */
  lemma LayoutOrdered(ar: AnnualReport)
    ensures Ordered(Layout(ar))
  {
    TemplateOrdered(ar);
    KeepOrdered(ar, Template(ar));
  }

  /** A line is in the report exactly when its inclusion rule holds: the
      header and the "Financials" heading always, a financial line iff its
      field is not `None`, the auditor line and the prose sections iff
      their text is non-empty, the i-th risk item iff the list is non-empty
      and has an i-th factor. */
  lemma LayoutMembership(ar: AnnualReport, o: Origin)
    ensures o in Layout(ar) <==> Included(ar, o)
  {
    KeepMembership(ar, Template(ar), o);
    if Included(ar, o) {
      InTemplate(ar, o);
    }
  }

  /** Every line that can be included has its place in the template. */
  lemma InTemplate(ar: AnnualReport, o: Origin)
    requires Included(ar, o)
    ensures o in Template(ar)
  {
    var t := Template(ar);
    var n := RiskCount(ar);
    assert |t| == 18 + n;
    match o
    case Title => assert t[0] == o;
    case Cik => assert t[1] == o;
    case FiscalYearEnd => assert t[2] == o;
    case FilingDate => assert t[3] == o;
    case FinancialsHeading => assert t[4] == o;
    case Financial(f) => assert t[5 + FieldIndex(f)] == o;
    case Auditor => assert t[12] == o;
    case BusinessHeading => assert t[13] == o;
    case BusinessBody => assert t[14] == o;
    case RiskHeading => assert t[15] == o;
    case RiskItem(i) => assert t[16 + i] == o;
    case DiscussionHeading => assert t[16 + n] == o;
    case DiscussionBody => assert t[17 + n] == o;
  }

  /** The five lines that every report opens with. */
  lemma HeaderBlock(ar: AnnualReport, fmt: Formatting)
    ensures Lines(ar, fmt, Leading[..5]) == [
      TitleLine(ar),
      "**CIK:** " + ar.cik,
      "**Fiscal Year End:** " + fmt.isoDate(ar.fiscalYearEnd),
      "**Filing Date:** " + fmt.isoDate(ar.filingDate),
      "## Financials"]
  {
    var head := Leading[..5];
    LinesRenderKeep(ar, fmt, head);
    KeepAllIncluded(ar, head);
  }

  /** Whatever the optional fields hold, the report opens with the title,
      CIK, fiscal-year-end and filing-date lines and the "Financials"
      heading. */
  lemma HeaderFirst(ar: AnnualReport, fmt: Formatting)
    ensures |MarkdownLines(ar, fmt)| >= 5
    ensures MarkdownLines(ar, fmt)[..5] == [
      TitleLine(ar),
      "**CIK:** " + ar.cik,
      "**Fiscal Year End:** " + fmt.isoDate(ar.fiscalYearEnd),
      "**Filing Date:** " + fmt.isoDate(ar.filingDate),
      "## Financials"]
  {
    var head := Leading[..5];
    var rest := Leading[5..] + RiskItems(RiskCount(ar)) + Trailing;
    assert Template(ar) == head + rest;
    LinesAppend(ar, fmt, head, rest);
    HeaderBlock(ar, fmt);
  }

  lemma {:induction false} KeepAllIncluded(ar: AnnualReport, s: seq<Origin>)
    requires forall o :: o in s ==> Included(ar, o)
    ensures Keep(ar, s) == s
    decreases |s|
  {
    if s != [] {
      KeepAllIncluded(ar, s[1..]);
      assert s == [s[0]] + s[1..];
    }
  }

  lemma {:induction false} LinesAppend(ar: AnnualReport, fmt: Formatting, a: seq<Origin>, b: seq<Origin>)
    ensures Lines(ar, fmt, a + b) == Lines(ar, fmt, a) + Lines(ar, fmt, b)
    decreases |a|
  {
    if a == [] {
      assert a + b == b;
    } else {
      assert (a + b)[0] == a[0] && (a + b)[1..] == a[1..] + b;
      LinesAppend(ar, fmt, a[1..], b);
    }
  }

  lemma RenderAppend(ar: AnnualReport, fmt: Formatting, a: seq<Origin>, b: seq<Origin>)
    requires forall o :: o in a + b ==> Included(ar, o)
    ensures Render(ar, fmt, a + b) == Render(ar, fmt, a) + Render(ar, fmt, b)
  {
    assert forall o :: o in a ==> o in a + b;
    assert forall o :: o in b ==> o in a + b;
    var l, r := Render(ar, fmt, a + b), Render(ar, fmt, a) + Render(ar, fmt, b);
    forall i | 0 <= i < |l| ensures l[i] == r[i] {
      if i >= |a| {
        assert (a + b)[i] == b[i - |a|];
      }
    }
  }

  /** Filtering then rendering is rendering the kept lines. */
  lemma {:induction false} LinesRenderKeep(ar: AnnualReport, fmt: Formatting, s: seq<Origin>)
    ensures Lines(ar, fmt, s) == Render(ar, fmt, Keep(ar, s))
    decreases |s|
  {
    if s != [] {
      LinesRenderKeep(ar, fmt, s[1..]);
      var head := if Included(ar, s[0]) then [s[0]] else [];
      assert Keep(ar, s) == head + Keep(ar, s[1..]);
      RenderAppend(ar, fmt, head, Keep(ar, s[1..]));
    }
  }

  /** The i-th line of `md_lines` is the text of the i-th line of the
      layout: together with `LayoutMembership` and `LayoutOrdered` this
      says which lines the report holds and in what order. */
  lemma MarkdownLinesFollowLayout(ar: AnnualReport, fmt: Formatting)
    ensures |MarkdownLines(ar, fmt)| == |Layout(ar)|
    ensures forall i :: 0 <= i < |Layout(ar)| ==>
      MarkdownLines(ar, fmt)[i] == LineText(ar, fmt, Layout(ar)[i])
  {
    LinesRenderKeep(ar, fmt, Template(ar));
  }

  /** One line of the leading part of the template: the lines so far
      grow by that line's text exactly when its inclusion rule holds. */
  lemma Step(ar: AnnualReport, fmt: Formatting, k: nat)
    requires k < |Leading|
    ensures Lines(ar, fmt, Template(ar)[..k + 1]) == Lines(ar, fmt, Template(ar)[..k]) +
      (if Included(ar, Leading[k]) then [LineText(ar, fmt, Leading[k])] else [])
  {
    var t := Template(ar);
    assert t[..k + 1] == t[..k] + [Leading[k]];
    LinesAppend(ar, fmt, t[..k], [Leading[k]]);
    assert [Leading[k]][1..] == [];
  }

  lemma LeadingFinancial(f: Field)
    ensures Leading[5 + FieldIndex(f)] == Financial(f)
  {
    match f
    case Revenue =>
    case NetIncome =>
    case Assets =>
    case Liabilities =>
    case CashFlow =>
    case Cash =>
    case Employees =>
  }

  /** The financial line of `f` is appended when the field is not `None`. */
  lemma FinancialStep(ar: AnnualReport, fmt: Formatting, f: Field, before: seq<string>)
    requires before == Lines(ar, fmt, Template(ar)[..5 + FieldIndex(f)])
    ensures Lines(ar, fmt, Template(ar)[..6 + FieldIndex(f)]) == before +
      (if Present(ar, f) then [FieldLabel(f) + FieldValue(ar, fmt, f)] else [])
  {
    Step(ar, fmt, 5 + FieldIndex(f));
    LeadingFinancial(f);
  }

  /** The auditor line is appended when the auditor's name is non-empty. */
  lemma AuditorStep(ar: AnnualReport, fmt: Formatting, before: seq<string>)
    requires before == Lines(ar, fmt, Template(ar)[..12])
    ensures Lines(ar, fmt, Template(ar)[..13]) == before +
      (if Truthy(ar.auditor) then ["- **Auditor:** " + ar.auditor.value] else [])
  {
    Step(ar, fmt, 12);
  }

  /** The business-description section follows the auditor line. */
  lemma BusinessStep(ar: AnnualReport, fmt: Formatting, before: seq<string>)
    requires before == Lines(ar, fmt, Template(ar)[..13])
    ensures Lines(ar, fmt, Template(ar)[..15]) == before +
      (if Truthy(ar.businessDescription)
       then ["\n## Business Description", ar.businessDescription.value]
       else [])
  {
    var t := Template(ar);
    var block := [BusinessHeading, BusinessBody];
    assert t[..15] == t[..13] + block;
    LinesAppend(ar, fmt, t[..13], block);
    BusinessBlock(ar, fmt);
  }

  /** The risk section follows the business description. */
  lemma RiskStep(ar: AnnualReport, fmt: Formatting, before: seq<string>)
    requires before == Lines(ar, fmt, Template(ar)[..15])
    ensures Lines(ar, fmt, Template(ar)[..16 + RiskCount(ar)]) == before +
      (if HasRisks(ar) then ["\n## Risk Factors"] + Bullets(ar.riskFactors.value) else [])
  {
    var t := Template(ar);
    var block := [RiskHeading] + RiskItems(RiskCount(ar));
    assert t[..16 + RiskCount(ar)] == t[..15] + block;
    LinesAppend(ar, fmt, t[..15], block);
    RiskBlock(ar, fmt);
  }

  /** The management-discussion section closes the template. */
  lemma DiscussionStep(ar: AnnualReport, fmt: Formatting, before: seq<string>)
    requires before == Lines(ar, fmt, Template(ar)[..16 + RiskCount(ar)])
    ensures MarkdownLines(ar, fmt) == before +
      (if Truthy(ar.managementDiscussion)
       then ["\n## Management Discussion & Analysis", ar.managementDiscussion.value]
       else [])
  {
    var t := Template(ar);
    assert t == t[..16 + RiskCount(ar)] + Trailing;
    LinesAppend(ar, fmt, t[..16 + RiskCount(ar)], Trailing);
    DiscussionBlock(ar, fmt);
  }

  lemma {:induction false} KeepNoneIncluded(ar: AnnualReport, s: seq<Origin>)
    requires forall o :: o in s ==> !Included(ar, o)
    ensures Keep(ar, s) == []
    decreases |s|
  {
    if s != [] {
      KeepNoneIncluded(ar, s[1..]);
    }
  }

  /** The business-description section: its heading and its text, both or
      neither. */
  lemma BusinessBlock(ar: AnnualReport, fmt: Formatting)
    ensures Lines(ar, fmt, [BusinessHeading, BusinessBody]) ==
      if Truthy(ar.businessDescription)
      then ["\n## Business Description", ar.businessDescription.value]
      else []
  {
    var s := [BusinessHeading, BusinessBody];
    assert s[1..] == [BusinessBody] && s[1..][1..] == [];
  }

  /** The management-discussion section: its heading and its text, both or
      neither. */
  lemma DiscussionBlock(ar: AnnualReport, fmt: Formatting)
    ensures Lines(ar, fmt, Trailing) ==
      if Truthy(ar.managementDiscussion)
      then ["\n## Management Discussion & Analysis", ar.managementDiscussion.value]
      else []
  {
    assert Trailing[1..] == [DiscussionBody] && Trailing[1..][1..] == [];
  }

  /** The risk section: its heading and one item per factor, all or none. */
  lemma RiskBlock(ar: AnnualReport, fmt: Formatting)
    ensures Lines(ar, fmt, [RiskHeading] + RiskItems(RiskCount(ar))) ==
      if HasRisks(ar) then ["\n## Risk Factors"] + Bullets(ar.riskFactors.value) else []
  {
    var block := [RiskHeading] + RiskItems(RiskCount(ar));
    LinesRenderKeep(ar, fmt, block);
    forall o | o in block ensures Included(ar, o) == HasRisks(ar) {
      if o != RiskHeading {
        assert o in RiskItems(RiskCount(ar));
      }
    }
    if HasRisks(ar) {
      KeepAllIncluded(ar, block);
      var lines := Render(ar, fmt, block);
      var expected := ["\n## Risk Factors"] + Bullets(ar.riskFactors.value);
      assert |lines| == |expected|;
      forall i | 0 <= i < |lines| ensures lines[i] == expected[i] {
        if i > 0 {
          assert block[i] == RiskItem(i - 1);
        }
      }
    } else {
      KeepNoneIncluded(ar, block);
    }
  }

  // ---------------------------------------------------------------------
  // The assembly as the code performs it

  /** `md_lines` built as the code builds it: the five header lines, then
      one conditional append per financial field and for the auditor, then
      one conditional `+=` per optional section. The result is the
      rendering of the layout. */
  method BuildMarkdownLines(ar: AnnualReport, fmt: Formatting) returns (mdLines: seq<string>)
    ensures mdLines == MarkdownLines(ar, fmt)
  {
    mdLines := [
      "# " + ar.companyName + " Annual Report " + Decimal(ar.fiscalYearEnd.year),
      "**CIK:** " + ar.cik,
      "**Fiscal Year End:** " + fmt.isoDate(ar.fiscalYearEnd),
      "**Filing Date:** " + fmt.isoDate(ar.filingDate),
      "## Financials"
    ];
    HeaderBlock(ar, fmt);
    assert Template(ar)[..5] == Leading[..5];
    mdLines := AppendFinancial(ar, fmt, Revenue, mdLines);
    mdLines := AppendFinancial(ar, fmt, NetIncome, mdLines);
    mdLines := AppendFinancial(ar, fmt, Assets, mdLines);
    mdLines := AppendFinancial(ar, fmt, Liabilities, mdLines);
    mdLines := AppendFinancial(ar, fmt, CashFlow, mdLines);
    mdLines := AppendFinancial(ar, fmt, Cash, mdLines);
    mdLines := AppendFinancial(ar, fmt, Employees, mdLines);
    ghost var before := mdLines;
    if ar.auditor.Some? && ar.auditor.value != "" {
      mdLines := mdLines + ["- **Auditor:** " + ar.auditor.value];
    }
    AuditorStep(ar, fmt, before);
    mdLines := AppendSections(ar, fmt, mdLines);
  }

  /** One `if ar.<field> is not None: md_lines.append(...)` of the
      financial bullet list: the labelled, formatted value of `f` is
      appended exactly when the field is present. */
  method AppendFinancial(ar: AnnualReport, fmt: Formatting, f: Field, mdLines: seq<string>)
    returns (mdLines': seq<string>)
    requires mdLines == Lines(ar, fmt, Template(ar)[..5 + FieldIndex(f)])
    ensures mdLines' == Lines(ar, fmt, Template(ar)[..6 + FieldIndex(f)])
  {
    mdLines' := mdLines;
    if Present(ar, f) {
      mdLines' := mdLines + [FieldLabel(f) + FieldValue(ar, fmt, f)];
    }
    FinancialStep(ar, fmt, f, mdLines);
  }

  /** The three prose sections, each appended whole when its field is
      truthy: the business description, the risk factors with one bullet
      per factor, the management discussion. */
  method AppendSections(ar: AnnualReport, fmt: Formatting, financials: seq<string>)
    returns (mdLines: seq<string>)
    requires financials == Lines(ar, fmt, Template(ar)[..13])
    ensures mdLines == MarkdownLines(ar, fmt)
  {
    mdLines := financials;
    ghost var before := mdLines;
    if ar.businessDescription.Some? && ar.businessDescription.value != "" {
      mdLines := mdLines + ["\n## Business Description", ar.businessDescription.value];
    }
    BusinessStep(ar, fmt, before);
    before := mdLines;
    if ar.riskFactors.Some? && |ar.riskFactors.value| > 0 {
      mdLines := mdLines + (["\n## Risk Factors"] + Bullets(ar.riskFactors.value));
    }
    RiskStep(ar, fmt, before);
    before := mdLines;
    if ar.managementDiscussion.Some? && ar.managementDiscussion.value != "" {
      mdLines := mdLines + ["\n## Management Discussion & Analysis", ar.managementDiscussion.value];
    }
    DiscussionStep(ar, fmt, before);
  }

  /** `[f"- {rf}" for rf in risk_factors]`. */
  function Bullets(factors: seq<string>): (lines: seq<string>)
    ensures |lines| == |factors|
    ensures forall i :: 0 <= i < |factors| ==> lines[i] == "- " + factors[i]
  {
    seq(|factors|, i requires 0 <= i < |factors| => "- " + factors[i])
  }
}
