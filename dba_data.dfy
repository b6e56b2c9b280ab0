/** The Danish Business Authority (DBA) validation data extension: the
    taxonomy concepts the filing rules refer to, and two derived views of an
    instance that it computes once and caches, the per-context fact index
    and the sorted list of reporting-period contexts.

    The concepts that PluginValidationDataExtension.py declares are given
    here with its namespaces and local names. The concepts the rules use but
    that are declared elsewhere are given the local names that the rules'
    own documentation uses; what matters for the model is only that they are
    pairwise distinct, which their distinct local names guarantee. The
    concept lists, text values and thresholds declared elsewhere are the
    fields of `Settings`. */
module DbaData {
  import opened Seqs
  import opened Xbrl

  const NamespaceCmn := "http://xbrl.dcca.dk/cmn"
  const NamespaceFsa := "http://xbrl.dcca.dk/fsa"
  const NamespaceGsd := "http://xbrl.dcca.dk/gsd"
  const NamespaceSob := "http://xbrl.dcca.dk/sob"
  /** Not declared in the modelled files; follows the pattern of the four above. */
  const NamespaceArr := "http://xbrl.dcca.dk/arr"

  // Concepts declared by the data extension.
  const ConsolidatedSoloDimensionQn := QName(NamespaceCmn, "ConsolidatedSoloDimension")
  const ConsolidatedMemberQn := QName(NamespaceCmn, "ConsolidatedMember")
  const DateOfGeneralMeetingQn := QName(NamespaceGsd, "DateOfGeneralMeeting")
  const ExtraordinaryCostsQn := QName(NamespaceFsa, "ExtraordinaryCosts")
  const ExtraordinaryIncomeQn := QName(NamespaceFsa, "ExtraordinaryIncome")
  const ExtraordinaryResultBeforeTaxQn := QName(NamespaceFsa, "ExtraordinaryResultBeforeTax")
  const ProfitLossQn := QName(NamespaceFsa, "ProfitLoss")
  const TaxExpenseOnOrdinaryActivitiesQn := QName(NamespaceFsa, "TaxExpenseOnOrdinaryActivities")
  const TaxExpenseQn := QName(NamespaceFsa, "TaxExpense")

  /** `positiveProfitThreshold`, DKK 1000. */
  const PositiveProfitThreshold: real := 1000.0

  // Concepts the rules use that are declared outside the modelled files.
  const NameAndSurnameOfChairmanOfGeneralMeetingQn := QName(NamespaceGsd, "NameAndSurnameOfChairmanOfGeneralMeeting")
  const TypeOfAuditorAssistanceQn := QName(NamespaceCmn, "TypeOfAuditorAssistance")
  const DescriptionOfQualificationsOfAuditedFinancialStatementsQn :=
    QName(NamespaceArr, "DescriptionOfQualificationsOfAuditedFinancialStatements")
  const DescriptionOfQualificationsOfFinancialStatementsExtendedReviewQn :=
    QName(NamespaceArr, "DescriptionOfQualificationsOfFinancialStatementsExtendedReview")
  const DescriptionsOfQualificationsOfReviewedFinancialStatementsQn :=
    QName(NamespaceArr, "DescriptionsOfQualificationsOfReviewedFinancialStatements")
  const DescriptionOfQualificationsOfAssuranceEngagementPerformedQn :=
    QName(NamespaceArr, "DescriptionOfQualificationsOfAssuranceEngagementPerformed")
  const EquityQn := QName(NamespaceFsa, "Equity")
  const AssetsQn := QName(NamespaceFsa, "Assets")
  const NoncurrentAssetsQn := QName(NamespaceFsa, "NoncurrentAssets")
  const LongtermLiabilitiesOtherThanProvisionsQn := QName(NamespaceFsa, "LongtermLiabilitiesOtherThanProvisions")
  const ShorttermLiabilitiesOtherThanProvisionsQn := QName(NamespaceFsa, "ShorttermLiabilitiesOtherThanProvisions")
  const LiabilitiesOtherThanProvisionsQn := QName(NamespaceFsa, "LiabilitiesOtherThanProvisions")
  const LiabilitiesAndEquityQn := QName(NamespaceFsa, "LiabilitiesAndEquity")
  const LiabilitiesQn := QName(NamespaceFsa, "Liabilities")
  const ProvisionsQn := QName(NamespaceFsa, "Provisions")
  const ProposedExtraordinaryDividendRecognisedInLiabilitiesQn :=
    QName(NamespaceFsa, "ProposedExtraordinaryDividendRecognisedInLiabilities")
  const IdentificationNumberCvrOfAuditFirmQn := QName(NamespaceCmn, "IdentificationNumberCvrOfAuditFirm")
  const NameOfAuditFirmQn := QName(NamespaceCmn, "NameOfAuditFirm")
  const SignatureOfAuditorsDateQn := QName(NamespaceCmn, "SignatureOfAuditorsDate")
  const ReportingResponsibilitiesOnApprovedAuditorsReportAuditQn :=
    QName(NamespaceFsa, "ReportingResponsibilitiesAccordingToTheDanishExecutiveOrderOnApprovedAuditorsReportAudit")
  const ReportingResponsibilitiesOnApprovedAuditorsReportsExtendedReviewQn :=
    QName(NamespaceArr, "ReportingResponsibilitiesAccordingToTheDanishExecutiveOrderOnApprovedAuditorsReportsExtendedReview")
  const TypeOfBasisForModifiedOpinionOnFinancialStatementsReviewQn :=
    QName(NamespaceArr, "TypeOfBasisForModifiedOpinionOnFinancialStatementsReview")
  const EmployeeBenefitsExpenseQn := QName(NamespaceFsa, "EmployeeBenefitsExpense")
  const WagesAndSalariesQn := QName(NamespaceFsa, "WagesAndSalaries")
  const PostemploymentBenefitExpenseQn := QName(NamespaceFsa, "PostemploymentBenefitExpense")
  const OtherEmployeeExpenseQn := QName(NamespaceFsa, "OtherEmployeeExpense")
  const AverageNumberOfEmployeesQn := QName(NamespaceFsa, "AverageNumberOfEmployees")

  /** The values the rules take from declarations that are not part of this
      model: the plugin's concept lists and text values, and the constants
      `DANISH_CURRENCY_ID`, `ROUNDING_MARGIN` and `PERSONNEL_EXPENSE_THRESHOLD`. */
  datatype Settings = Settings(
    managementEndorsementQns: seq<QName>,
    accountingPolicyConceptQns: seq<QName>,
    distributionOfResultsQns: seq<QName>,
    balanceSheetQnLessThanOrEqualToAssets: seq<QName>,
    declarationObligationQns: seq<QName>,
    reportingObligationQns: seq<QName>,
    hasNotGivenRiseToReservationsText: seq<string>,
    auditedFinancialStatementsDanish: string,
    auditedFinancialStatementsEnglish: string,
    auditedExtendedReviewDanish: string,
    auditedExtendedReviewEnglish: string,
    independentAuditorsReportDanish: string,
    independentAuditorsReportEnglish: string,
    auditedAssuranceReportsDanish: string,
    auditedAssuranceReportsEnglish: string,
    auditedNonAssuranceReportsDanish: string,
    auditedNonAssuranceReportsEnglish: string,
    basisForAdverseOpinionDanish: string,
    basisForAdverseOpinionEnglish: string,
    basisForDisclaimerOpinionDanish: string,
    basisForDisclaimerOpinionEnglish: string,
    basisForQualifiedOpinionDanish: string,
    basisForQualifiedOpinionEnglish: string,
    danishCurrencyId: string,
    roundingMargin: real,
    personnelExpenseThreshold: real)

  type ContextFactIndex = map<string, map<QName, Fact>>

  /** The per-context fact index `contextId -> qname -> fact`: every fact is
      written into its slot in document order, so a later fact replaces an
      earlier one with the same context and concept. */
  function ContextFactMapOf(facts: seq<Fact>): ContextFactIndex {
    if facts == [] then map[]
    else
      var m := ContextFactMapOf(facts[..|facts| - 1]);
      var f := facts[|facts| - 1];
      var inner := if f.contextId in m then m[f.contextId] else map[];
      m[f.contextId := inner[f.qname := f]]
  }

  /** Reading slot (c, q) of the index, None when it is empty. */
  function Lookup(m: ContextFactIndex, c: string, q: QName): Option<Fact> {
    if c in m && q in m[c] then Some(m[c][q]) else None
  }

  /** Reference definition of a slot: the last fact of the instance with
      context `c` and concept `q`, found by searching from the end. */
  function LastFactOf(facts: seq<Fact>, c: string, q: QName): (r: Option<Fact>)
    ensures r.None? <==> forall f :: f in facts ==> !(f.contextId == c && f.qname == q)
    ensures r.Some? ==> r.value in facts && r.value.contextId == c && r.value.qname == q
  {
    if facts == [] then None
    else
      var f := facts[|facts| - 1];
      assert forall g :: g in facts <==> g in facts[..|facts| - 1] || g == f;
      if f.contextId == c && f.qname == q then Some(f)
      else LastFactOf(facts[..|facts| - 1], c, q)
  }

  /** The index holds, in each slot, the LAST fact of the instance with that
      context and concept, and a slot is empty exactly when no fact has them. */
  lemma {:induction false} ContextFactMapHoldsLastFact(facts: seq<Fact>, c: string, q: QName)
    ensures Lookup(ContextFactMapOf(facts), c, q) == LastFactOf(facts, c, q)
  {
    if facts != [] {
      ContextFactMapHoldsLastFact(facts[..|facts| - 1], c, q);
    }
  }

  /** The index has an entry for a context exactly when some fact refers to it. */
  lemma {:induction false} ContextFactMapKeys(facts: seq<Fact>, c: string)
    ensures c in ContextFactMapOf(facts) <==> exists f :: f in facts && f.contextId == c
  {
    if facts != [] {
      var f := facts[|facts| - 1];
      assert forall g :: g in facts <==> g in facts[..|facts| - 1] || g == f;
      ContextFactMapKeys(facts[..|facts| - 1], c);
    }
  }

  /** The slot found by a search from the end is followed by no other fact
      with the same context and concept. */
  lemma {:induction false} LastFactOfIsLast(facts: seq<Fact>, c: string, q: QName)
    requires LastFactOf(facts, c, q).Some?
    ensures exists i :: 0 <= i < |facts| && facts[i] == LastFactOf(facts, c, q).value
                        && forall j :: i < j < |facts| ==> !(facts[j].contextId == c && facts[j].qname == q)
  {
    var n := |facts| - 1;
    var init := facts[..n];
    var f := facts[n];
    if f.contextId == c && f.qname == q {
      assert facts[n] == LastFactOf(facts, c, q).value;
    } else {
      assert LastFactOf(facts, c, q) == LastFactOf(init, c, q);
      LastFactOfIsLast(init, c, q);
      var i :| 0 <= i < |init| && init[i] == LastFactOf(init, c, q).value
               && forall j :: i < j < |init| ==> !(init[j].contextId == c && init[j].qname == q);
      forall j | i < j < |facts| ensures !(facts[j].contextId == c && facts[j].qname == q) {
        if j < n {
          assert facts[j] == init[j];
        }
      }
      assert facts[i] == init[i];
    }
  }

  /** The period end used as the sort key (`endDatetime`); only durations are
      ever sorted. */
  function EndDate(c: Context): int {
    match c.period
    case Duration(_, end) => end
    case Instant(t) => t
    case Forever => 0
  }

  /** A context may be a reporting-period context: it is a duration, and it
      either has no dimensions or has exactly the consolidated/solo dimension
      with the consolidated member. */
  predicate IsReportingPeriodContext(c: Context) {
    && c.period.Duration?
    && (|c.dims| == 0
        || (c.dims.Keys == {ConsolidatedSoloDimensionQn}
            && c.dims[ConsolidatedSoloDimensionQn] == ConsolidatedMemberQn))
  }

  /** A typed dimension disqualifies a duration context: either it is another
      dimension than the consolidated/solo one, or it is that dimension with
      no member, which is never the consolidated member. */
  lemma TypedDimensionExcludes(c: Context, d: QName)
    requires d in c.dims && c.dims[d] == NoMemberQn
    ensures !IsReportingPeriodContext(c)
  {
    if c.dims.Keys == {ConsolidatedSoloDimensionQn} {
      assert d == ConsolidatedSoloDimensionQn;
      assert NoMemberQn.namespace != ConsolidatedMemberQn.namespace;
    }
  }

  /** The contexts kept by the filtering loop, in their original order. */
  function ReportingPeriodCandidates(contexts: seq<Context>): (r: seq<Context>)
    ensures forall c :: c in r <==> c in contexts && IsReportingPeriodContext(c)
  {
    if contexts == [] then []
    else
      var last := contexts[|contexts| - 1];
      assert forall c :: c in contexts <==> c in contexts[..|contexts| - 1] || c == last;
      ReportingPeriodCandidates(contexts[..|contexts| - 1])
        + (if IsReportingPeriodContext(last) then [last] else [])
  }

  /** Python's `sorted(..., key=endDatetime)`, a stable sort, written as an
      insertion sort: an element goes before the first element whose end is
      not earlier than its own, so it stays ahead of the equal ends that
      followed it in the input. */
  function InsertByEndDate(x: Context, sorted: seq<Context>): (r: seq<Context>)
    ensures multiset(r) == multiset(sorted) + multiset{x}
  {
    if sorted == [] || EndDate(x) <= EndDate(sorted[0]) then [x] + sorted
    else
      assert sorted == [sorted[0]] + sorted[1..];
      [sorted[0]] + InsertByEndDate(x, sorted[1..])
  }

  function SortByEndDate(s: seq<Context>): (r: seq<Context>)
    ensures multiset(r) == multiset(s)
  {
    if s == [] then []
    else
      assert s == [s[0]] + s[1..];
      InsertByEndDate(s[0], SortByEndDate(s[1..]))
  }

  ghost predicate SortedByEndDate(s: seq<Context>) {
    forall i, j :: 0 <= i < j < |s| ==> EndDate(s[i]) <= EndDate(s[j])
  }

  /** The head of a sorted list ends no later than any of its elements. */
  lemma SortedHeadLeast(sorted: seq<Context>)
    requires sorted != [] && SortedByEndDate(sorted)
    ensures forall y :: y in sorted ==> EndDate(sorted[0]) <= EndDate(y)
  {
    forall y | y in sorted ensures EndDate(sorted[0]) <= EndDate(y) {
      var k :| 0 <= k < |sorted| && sorted[k] == y;
    }
  }

  /** A context that ends no later than every element of a sorted list can
      go in front of it. */
  lemma SortedCons(first: Context, s: seq<Context>)
    requires SortedByEndDate(s)
    requires forall y :: y in s ==> EndDate(first) <= EndDate(y)
    ensures SortedByEndDate([first] + s)
  {
    var r := [first] + s;
    forall i, j | 0 <= i < j < |r| ensures EndDate(r[i]) <= EndDate(r[j]) {
      assert r[j] == s[j - 1];
      if i > 0 {
        assert r[i] == s[i - 1];
      }
    }
  }

  lemma SortedTail(sorted: seq<Context>)
    requires sorted != [] && SortedByEndDate(sorted)
    ensures SortedByEndDate(sorted[1..])
  {
    var rest := sorted[1..];
    forall i, j | 0 <= i < j < |rest| ensures EndDate(rest[i]) <= EndDate(rest[j]) {
      assert rest[i] == sorted[i + 1] && rest[j] == sorted[j + 1];
    }
  }

  lemma {:induction false} InsertKeepsSorted(x: Context, sorted: seq<Context>)
    requires SortedByEndDate(sorted)
    ensures SortedByEndDate(InsertByEndDate(x, sorted))
  {
    if sorted == [] {
      SortedCons(x, sorted);
    } else if EndDate(x) <= EndDate(sorted[0]) {
      SortedHeadLeast(sorted);
      SortedCons(x, sorted);
    } else {
      var first, rest := sorted[0], sorted[1..];
      SortedTail(sorted);
      InsertKeepsSorted(x, rest);
      var inserted := InsertByEndDate(x, rest);
      SortedHeadLeast(sorted);
      forall y | y in inserted ensures EndDate(first) <= EndDate(y) {
        assert y in multiset(inserted);
        if y != x {
          assert y in multiset(rest);
          assert y in sorted;
        }
      }
      SortedCons(first, inserted);
    }
  }

  /** The sorted list is ordered by end date. */
  lemma {:induction false} SortByEndDateSorted(s: seq<Context>)
    ensures SortedByEndDate(SortByEndDate(s))
  {
    if s != [] {
      SortByEndDateSorted(s[1..]);
      InsertKeepsSorted(s[0], SortByEndDate(s[1..]));
    }
  }

  /** The contexts of `s` that end at `end`, in their order in `s`. */
  function EndingAt(s: seq<Context>, end: int): seq<Context> {
    if s == [] then []
    else (if EndDate(s[0]) == end then [s[0]] else []) + EndingAt(s[1..], end)
  }

  lemma EndingAtCons(a: Context, s: seq<Context>, end: int)
    ensures EndingAt([a] + s, end) == (if EndDate(a) == end then [a] else []) + EndingAt(s, end)
  {
    assert ([a] + s)[1..] == s;
  }

  lemma {:induction false} InsertByEndDateStable(x: Context, sorted: seq<Context>, end: int)
    ensures EndingAt(InsertByEndDate(x, sorted), end)
            == (if EndDate(x) == end then [x] else []) + EndingAt(sorted, end)
  {
    if sorted == [] || EndDate(x) <= EndDate(sorted[0]) {
      EndingAtCons(x, sorted, end);
    } else {
      var first, rest := sorted[0], sorted[1..];
      var inserted := InsertByEndDate(x, rest);
      InsertByEndDateStable(x, rest, end);
      assert InsertByEndDate(x, sorted) == [first] + inserted;
      EndingAtCons(first, inserted, end);
      assert sorted == [first] + rest;
      EndingAtCons(first, rest, end);
    }
  }

  /** The sort is stable: for every end date, the contexts with that end date
      appear in the result in the same order as in the input. */
  lemma {:induction false} SortByEndDateStable(s: seq<Context>, end: int)
    ensures EndingAt(SortByEndDate(s), end) == EndingAt(s, end)
  {
    if s != [] {
      SortByEndDateStable(s[1..], end);
      InsertByEndDateStable(s[0], SortByEndDate(s[1..]), end);
    }
  }

  /** `getReportingPeriodContexts` before caching: the kept contexts sorted
      by end date. */
  function ReportingPeriodContextsOf(contexts: seq<Context>): seq<Context> {
    SortByEndDate(ReportingPeriodCandidates(contexts))
  }

  /** What `getReportingPeriodContexts` returns: only reporting-period
      contexts (never an instant or forever one), every kept context as often
      as it occurs in the input, ordered by end date, with ties left in input
      order. */
  lemma ReportingPeriodContextsSpec(contexts: seq<Context>)
    ensures forall c :: c in ReportingPeriodContextsOf(contexts) ==>
              IsReportingPeriodContext(c) && !c.period.Instant? && !c.period.Forever?
    ensures multiset(ReportingPeriodContextsOf(contexts)) == multiset(ReportingPeriodCandidates(contexts))
    ensures SortedByEndDate(ReportingPeriodContextsOf(contexts))
    ensures forall end :: EndingAt(ReportingPeriodContextsOf(contexts), end)
                          == EndingAt(ReportingPeriodCandidates(contexts), end)
  {
    var kept := ReportingPeriodCandidates(contexts);
    SortByEndDateSorted(kept);
    forall end ensures EndingAt(SortByEndDate(kept), end) == EndingAt(kept, end) {
      SortByEndDateStable(kept, end);
    }
    forall c | c in SortByEndDate(kept) ensures IsReportingPeriodContext(c) {
      assert c in multiset(SortByEndDate(kept));
    }
  }

  /** `getCurrentAndPreviousReportingPeriodContexts` on the list it is given:
      the last two elements, or all of them when there are fewer. */
  function LastTwo<T>(s: seq<T>): (r: seq<T>)
    ensures |r| == if |s| < 2 then |s| else 2
    ensures r == s[|s| - |r|..]
  {
    if |s| == 0 then s
    else if |s| > 2 then s[|s| - 2..]
    else s
  }

  /** The ids of the current and previous reporting-period contexts, as FR41
      and FR56 compute them. */
  function CurrentAndPreviousIds(contexts: seq<Context>): set<string> {
    set c | c in LastTwo(ReportingPeriodContextsOf(contexts)) :: c.id
  }

  /** In a list sorted by end date, nothing outside the last two ends later
      than what is inside them. */
  lemma LastTwoEndLatest(all: seq<Context>)
    requires SortedByEndDate(all)
    ensures forall c, d :: c in LastTwo(all) && d in all && d !in LastTwo(all) ==> EndDate(d) <= EndDate(c)
  {
    var last := LastTwo(all);
    forall c, d | c in last && d in all && d !in last ensures EndDate(d) <= EndDate(c) {
      var k :| 0 <= k < |last| && last[k] == c;
      var i :| 0 <= i < |all| && all[i] == d;
      assert all[|all| - |last| + k] == c;
    }
  }

  /** At most two ids come out of at most two contexts. */
  lemma LastTwoIds(last: seq<Context>)
    requires |last| <= 2
    ensures |set c | c in last :: c.id| <= 2
  {
    var ids := set c | c in last :: c.id;
    if |last| == 0 {
      assert ids == {};
    } else if |last| == 1 {
      assert ids == {last[0].id};
    } else {
      assert ids == {last[0].id, last[1].id};
    }
  }

  /** The current and previous contexts are reporting-period contexts of the
      instance, no other reporting-period context ends later than them, and
      there are at most two of them. */
  lemma CurrentAndPreviousAreLatest(contexts: seq<Context>)
    ensures forall c :: c in LastTwo(ReportingPeriodContextsOf(contexts)) ==>
              c in contexts && IsReportingPeriodContext(c)
    ensures forall c, d :: c in LastTwo(ReportingPeriodContextsOf(contexts))
                           && d in ReportingPeriodContextsOf(contexts)
                           && d !in LastTwo(ReportingPeriodContextsOf(contexts))
                           ==> EndDate(d) <= EndDate(c)
    ensures |CurrentAndPreviousIds(contexts)| <= 2
  {
    var kept := ReportingPeriodCandidates(contexts);
    var all := SortByEndDate(kept);
    var last := LastTwo(all);
    SortByEndDateSorted(kept);
    forall c | c in last ensures c in contexts && IsReportingPeriodContext(c) {
      assert c in all;
      assert c in multiset(all);
      assert c in multiset(kept);
    }
    LastTwoEndLatest(all);
    LastTwoIds(last);
  }

  /** The plugin's data object. The two derived views are computed on first
      use and kept in fields; a later call returns the kept value whatever
      instance it is passed. */
  class PluginValidationDataExtension {
    var contextFactMapCache: Option<ContextFactIndex>
    var reportingPeriodContextsCache: Option<seq<Context>>

    constructor ()
      ensures contextFactMapCache == None && reportingPeriodContextsCache == None
    {
      contextFactMapCache := None;
      reportingPeriodContextsCache := None;
    }

    /** `contextFactMap`: builds the index on first use, then returns the
        cached one. */
    method ContextFactMap(facts: seq<Fact>) returns (m: ContextFactIndex)
      modifies this
      ensures old(contextFactMapCache).Some? ==> m == old(contextFactMapCache).value
      ensures old(contextFactMapCache).None? ==> m == ContextFactMapOf(facts)
      ensures contextFactMapCache == Some(m)
      ensures reportingPeriodContextsCache == old(reportingPeriodContextsCache)
    {
      if contextFactMapCache.None? {
        var built: ContextFactIndex := map[];
        for i := 0 to |facts|
          invariant built == ContextFactMapOf(facts[..i])
        {
          assert facts[..i + 1][..i] == facts[..i];
          var f := facts[i];
          var inner := if f.contextId in built then built[f.contextId] else map[];
          built := built[f.contextId := inner[f.qname := f]];
        }
        assert facts[..|facts|] == facts;
        contextFactMapCache := Some(built);
      }
      m := contextFactMapCache.value;
    }

    /** `getReportingPeriodContexts`: filters and sorts on first use, then
        returns the cached list. */
    method GetReportingPeriodContexts(contexts: seq<Context>) returns (r: seq<Context>)
      modifies this
      ensures old(reportingPeriodContextsCache).Some? ==> r == old(reportingPeriodContextsCache).value
      ensures old(reportingPeriodContextsCache).None? ==> r == ReportingPeriodContextsOf(contexts)
      ensures reportingPeriodContextsCache == Some(r)
      ensures contextFactMapCache == old(contextFactMapCache)
    {
      if reportingPeriodContextsCache.Some? {
        return reportingPeriodContextsCache.value;
      }
      var kept: seq<Context> := [];
      for i := 0 to |contexts|
        invariant kept == ReportingPeriodCandidates(contexts[..i])
      {
        assert contexts[..i + 1][..i] == contexts[..i];
        var c := contexts[i];
        if c.period.Instant? || c.period.Forever? {
          continue;
        }
        if |c.dims| > 0 {
          if c.dims.Keys != {ConsolidatedSoloDimensionQn} {
            continue;
          }
          if c.dims[ConsolidatedSoloDimensionQn] != ConsolidatedMemberQn {
            continue;
          }
        }
        kept := kept + [c];
      }
      assert contexts[..|contexts|] == contexts;
      r := SortByEndDate(kept);
      reportingPeriodContextsCache := Some(r);
    }

    /** `getCurrentAndPreviousReportingPeriodContexts`: the most recent (at
        most two) reporting-period contexts. */
    method GetCurrentAndPreviousReportingPeriodContexts(contexts: seq<Context>) returns (r: seq<Context>)
      modifies this
      ensures reportingPeriodContextsCache.Some? && r == LastTwo(reportingPeriodContextsCache.value)
      ensures old(reportingPeriodContextsCache).Some? ==> reportingPeriodContextsCache == old(reportingPeriodContextsCache)
      ensures old(reportingPeriodContextsCache).None? ==>
                reportingPeriodContextsCache == Some(ReportingPeriodContextsOf(contexts))
      ensures contextFactMapCache == old(contextFactMapCache)
    {
      var all := GetReportingPeriodContexts(contexts);
      if |all| == 0 {
        return all;
      }
      if |all| > 2 {
        return all[|all| - 2..];
      }
      return all;
    }
  }

  /** Two calls on the same object agree, even when the second is given a
      different instance: both views are cached. */
  method CachedViewsAreStable(p: PluginValidationDataExtension, facts1: seq<Fact>, facts2: seq<Fact>,
                              contexts1: seq<Context>, contexts2: seq<Context>)
    returns (m1: ContextFactIndex, m2: ContextFactIndex, r1: seq<Context>, r2: seq<Context>)
    modifies p
    ensures m1 == m2 && r1 == r2
    ensures old(p.contextFactMapCache).None? ==> m1 == ContextFactMapOf(facts1)
    ensures old(p.reportingPeriodContextsCache).None? ==> r1 == ReportingPeriodContextsOf(contexts1)
    ensures p.contextFactMapCache == Some(m1) && p.reportingPeriodContextsCache == Some(r1)
  {
    m1 := p.ContextFactMap(facts1);
    m2 := p.ContextFactMap(facts2);
    r1 := p.GetReportingPeriodContexts(contexts1);
    r2 := p.GetReportingPeriodContexts(contexts2);
  }
}
