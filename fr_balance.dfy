/** The DBA filing rules that check the balance sheet context by context:
    provisions and liabilities against the balance sheet total minus equity
    (FR74, FR77), and the number of employees when personnel costs are high
    (FR75).

    Each rule groups the facts of a few concepts by context, in order of
    first appearance, and walks the group once with an `if`/`elif` chain
    that overwrites one local per concept, so the last matching fact of the
    group wins. */
module FrBalance {
  import opened Seqs
  import opened Xbrl
  import opened DbaData

  /** One of the two balance rules: the concepts it groups, the concept its
      chain matches as the balance sheet total, the two items checked against
      it, and the codes of the two checks. */
  datatype BalanceRule = BalanceRule(
    groupQns: seq<QName>,
    totalQn: QName,
    firstQn: QName,
    secondQn: QName,
    firstCode: string,
    secondCode: string)

  /** The four locals of the chain. */
  datatype BalanceSlots = BalanceSlots(equity: Option<Fact>, total: Option<Fact>, first: Option<Fact>, second: Option<Fact>)

  /** FR74 as written: the chain matches `liabilitiesQn`, a concept that the
      grouping does not include. */
  const Fr74AsWritten := BalanceRule(
    [EquityQn, LiabilitiesAndEquityQn, ProvisionsQn, LiabilitiesOtherThanProvisionsQn],
    LiabilitiesQn, ProvisionsQn, LiabilitiesOtherThanProvisionsQn, "DBA.FR74a", "DBA.FR74b")

  /** FR74 as its documentation describes it: the total is LiabilitiesAndEquity. */
  const Fr74Rule := Fr74AsWritten.(totalQn := LiabilitiesAndEquityQn)

  /** FR77 as written, with the same mismatch as FR74. */
  const Fr77AsWritten := BalanceRule(
    [EquityQn, LiabilitiesAndEquityQn, LongtermLiabilitiesOtherThanProvisionsQn, ShorttermLiabilitiesOtherThanProvisionsQn],
    LiabilitiesQn, LongtermLiabilitiesOtherThanProvisionsQn, ShorttermLiabilitiesOtherThanProvisionsQn,
    "DBA.FR77a", "DBA.FR77b")

  /** FR77 as its documentation describes it. */
  const Fr77Rule := Fr77AsWritten.(totalQn := LiabilitiesAndEquityQn)

  /** One turn of the chain: only facts in Danish kroner fill a slot. */
  function SlotStep(s: BalanceSlots, f: Fact, rule: BalanceRule, dkk: string): BalanceSlots {
    if f.qname == EquityQn && f.unitId == dkk then s.(equity := Some(f))
    else if f.qname == rule.totalQn && f.unitId == dkk then s.(total := Some(f))
    else if f.qname == rule.firstQn && f.unitId == dkk then s.(first := Some(f))
    else if f.qname == rule.secondQn && f.unitId == dkk then s.(second := Some(f))
    else s
  }

  /** The slots after the chain has seen every fact of `fs`. */
  function SlotsOf(fs: seq<Fact>, rule: BalanceRule, dkk: string): BalanceSlots {
    if fs == [] then BalanceSlots(None, None, None, None)
    else SlotStep(SlotsOf(fs[..|fs| - 1], rule, dkk), fs[|fs| - 1], rule, dkk)
  }

  /** The chain over one context's group. */
  method FillSlots(fs: seq<Fact>, rule: BalanceRule, dkk: string) returns (slots: BalanceSlots)
    ensures slots == SlotsOf(fs, rule, dkk)
  {
    var equityFact: Option<Fact> := None;
    var liabilityFact: Option<Fact> := None;
    var firstFact: Option<Fact> := None;
    var secondFact: Option<Fact> := None;
    for i := 0 to |fs|
      invariant BalanceSlots(equityFact, liabilityFact, firstFact, secondFact) == SlotsOf(fs[..i], rule, dkk)
    {
      assert fs[..i + 1][..i] == fs[..i];
      var f := fs[i];
      if f.qname == EquityQn && f.unitId == dkk {
        equityFact := Some(f);
      } else if f.qname == rule.totalQn && f.unitId == dkk {
        liabilityFact := Some(f);
      } else if f.qname == rule.firstQn && f.unitId == dkk {
        firstFact := Some(f);
      } else if f.qname == rule.secondQn && f.unitId == dkk {
        secondFact := Some(f);
      }
    }
    assert fs[..|fs|] == fs;
    slots := BalanceSlots(equityFact, liabilityFact, firstFact, secondFact);
  }

  /** A check fails: the three facts are there and valid, and the item is
      larger than the total minus equity by more than the rounding margin. */
  predicate Breached(equity: Option<Fact>, total: Option<Fact>, item: Option<Fact>, margin: real) {
    && equity.Some? && total.Some? && item.Some?
    && equity.value.valid && total.value.valid && item.value.valid
    && !(Amount(total.value) - Amount(equity.value) >= Amount(item.value) - margin)
  }

  /** The errors of one context: the first check, then the second. */
  function SlotDiagnostics(s: BalanceSlots, rule: BalanceRule, margin: real): seq<Diagnostic> {
    (if Breached(s.equity, s.total, s.first, margin)
     then [Diagnostic(rule.firstCode, Error, [s.equity.value, s.total.value, s.first.value])] else [])
    + (if Breached(s.equity, s.total, s.second, margin)
       then [Diagnostic(rule.secondCode, Error, [s.equity.value, s.total.value, s.second.value])] else [])
  }

  /** A context errs with a code exactly when that check is breached, and the
      error points at the equity, the total and the breaching item. */
  lemma SlotDiagnosticsMeaning(s: BalanceSlots, rule: BalanceRule, margin: real, d: Diagnostic)
    requires rule.firstCode != rule.secondCode
    ensures d in SlotDiagnostics(s, rule, margin) && d.code == rule.firstCode <==>
              Breached(s.equity, s.total, s.first, margin)
              && d == Diagnostic(rule.firstCode, Error, [s.equity.value, s.total.value, s.first.value])
    ensures d in SlotDiagnostics(s, rule, margin) && d.code == rule.secondCode <==>
              Breached(s.equity, s.total, s.second, margin)
              && d == Diagnostic(rule.secondCode, Error, [s.equity.value, s.total.value, s.second.value])
    ensures d in SlotDiagnostics(s, rule, margin) ==> d.code == rule.firstCode || d.code == rule.secondCode
  {
  }

  /** The two checks of one context, as the loop body runs them. */
  method CheckSlots(slots: BalanceSlots, rule: BalanceRule, margin: real) returns (ds: seq<Diagnostic>)
    ensures ds == SlotDiagnostics(slots, rule, margin)
  {
    ds := [];
    var e, t := slots.equity, slots.total;
    if e.Some? && t.Some? && slots.first.Some? && e.value.valid && t.value.valid && slots.first.value.valid {
      if !(Amount(t.value) - Amount(e.value) >= Amount(slots.first.value) - margin) {
        ds := ds + [Diagnostic(rule.firstCode, Error, [e.value, t.value, slots.first.value])];
      }
    }
    if e.Some? && t.Some? && slots.second.Some? && e.value.valid && t.value.valid && slots.second.value.valid {
      if !(Amount(t.value) - Amount(e.value) >= Amount(slots.second.value) - margin) {
        ds := ds + [Diagnostic(rule.secondCode, Error, [e.value, t.value, slots.second.value])];
      }
    }
  }

  /** The errors over the given contexts, in order. */
  function BalanceOver(keys: seq<string>, facts: seq<Fact>, rule: BalanceRule, dkk: string, margin: real)
    : seq<Diagnostic>
  {
    if keys == [] then []
    else
      var c := keys[|keys| - 1];
      BalanceOver(keys[..|keys| - 1], facts, rule, dkk, margin)
        + SlotDiagnostics(SlotsOf(ContextGroup(facts, rule.groupQns, c), rule, dkk), rule, margin)
  }

  /** What a balance rule reports for an instance. */
  function BalanceResult(facts: seq<Fact>, rule: BalanceRule, settings: Settings): seq<Diagnostic> {
    BalanceOver(GroupedContextIds(facts, rule.groupQns), facts, rule,
                settings.danishCurrencyId, settings.roundingMargin)
  }

  /** One more context appends its own errors. */
  lemma BalanceOverStep(keys: seq<string>, i: nat, facts: seq<Fact>, rule: BalanceRule, dkk: string, margin: real)
    requires i < |keys|
    ensures BalanceOver(keys[..i + 1], facts, rule, dkk, margin)
            == BalanceOver(keys[..i], facts, rule, dkk, margin)
               + SlotDiagnostics(SlotsOf(ContextGroup(facts, rule.groupQns, keys[i]), rule, dkk), rule, margin)
  {
    assert keys[..i + 1][..i] == keys[..i];
  }

  /** The facts one context's checks cast are numbers: each check casts its
      three facts once all three are present and valid, and the source
      raises on any value other than a decimal. */
  predicate SlotsCastNumbers(s: BalanceSlots) {
    && (s.equity.Some? && s.total.Some? && s.first.Some?
        && s.equity.value.valid && s.total.value.valid && s.first.value.valid
        ==> s.equity.value.value.Num? && s.total.value.value.Num? && s.first.value.value.Num?)
    && (s.equity.Some? && s.total.Some? && s.second.Some?
        && s.equity.value.valid && s.total.value.valid && s.second.value.valid
        ==> s.equity.value.value.Num? && s.total.value.value.Num? && s.second.value.value.Num?)
  }

  /** The facts FR74 or FR77 casts, over all grouped contexts, are numbers. */
  ghost predicate BalanceCastsNumbers(facts: seq<Fact>, rule: BalanceRule, dkk: string) {
    forall c :: c in GroupedContextIds(facts, rule.groupQns) ==>
      SlotsCastNumbers(SlotsOf(ContextGroup(facts, rule.groupQns, c), rule, dkk))
  }

  /** The loop over the contexts shared by FR74 and FR77. */
  method CheckBalance(facts: seq<Fact>, rule: BalanceRule, settings: Settings) returns (r: seq<Diagnostic>)
    requires BalanceCastsNumbers(facts, rule, settings.danishCurrencyId)
    ensures r == BalanceResult(facts, rule, settings)
  {
    var keys := GroupedContextIds(facts, rule.groupQns);
    r := [];
    for i := 0 to |keys|
      invariant r == BalanceOver(keys[..i], facts, rule, settings.danishCurrencyId, settings.roundingMargin)
    {
      BalanceOverStep(keys, i, facts, rule, settings.danishCurrencyId, settings.roundingMargin);
      var slots := FillSlots(ContextGroup(facts, rule.groupQns, keys[i]), rule, settings.danishCurrencyId);
      var ds := CheckSlots(slots, rule, settings.roundingMargin);
      r := r + ds;
    }
    assert keys[..|keys|] == keys;
  }

  /** FR74 (corrected): provisions and liabilities other than provisions
      against the balance sheet total minus equity. */
  method Fr74(facts: seq<Fact>, settings: Settings) returns (r: seq<Diagnostic>)
    requires BalanceCastsNumbers(facts, Fr74Rule, settings.danishCurrencyId)
    ensures r == BalanceResult(facts, Fr74Rule, settings)
  {
    r := CheckBalance(facts, Fr74Rule, settings);
  }

  /** FR77 (corrected): long-term and short-term liabilities against the
      balance sheet total minus equity. */
  method Fr77(facts: seq<Fact>, settings: Settings) returns (r: seq<Diagnostic>)
    requires BalanceCastsNumbers(facts, Fr77Rule, settings.danishCurrencyId)
    ensures r == BalanceResult(facts, Fr77Rule, settings)
  {
    r := CheckBalance(facts, Fr77Rule, settings);
  }

  /** Without a fact of the total's concept the total slot stays empty. */
  lemma {:induction false} SlotsWithoutTotal(fs: seq<Fact>, rule: BalanceRule, dkk: string)
    requires forall f :: f in fs ==> f.qname != rule.totalQn
    ensures SlotsOf(fs, rule, dkk).total.None?
  {
    if fs != [] {
      assert fs[|fs| - 1] in fs;
      SlotsWithoutTotal(fs[..|fs| - 1], rule, dkk);
    }
  }

  /** A rule whose total concept is not among the grouped ones reports
      nothing for any context. */
  lemma {:induction false} BalanceOverWithoutTotal(keys: seq<string>, facts: seq<Fact>, rule: BalanceRule,
                                                   dkk: string, margin: real)
    requires rule.totalQn !in rule.groupQns
    ensures BalanceOver(keys, facts, rule, dkk, margin) == []
  {
    if keys != [] {
      var c := keys[|keys| - 1];
      SlotsWithoutTotal(ContextGroup(facts, rule.groupQns, c), rule, dkk);
      BalanceOverWithoutTotal(keys[..|keys| - 1], facts, rule, dkk, margin);
    }
  }

  /** FR74 as written never reports anything, whatever the instance. */
  lemma Fr74AsWrittenNeverFires(facts: seq<Fact>, settings: Settings)
    ensures BalanceResult(facts, Fr74AsWritten, settings) == []
  {
    BalanceOverWithoutTotal(GroupedContextIds(facts, Fr74AsWritten.groupQns), facts, Fr74AsWritten,
                            settings.danishCurrencyId, settings.roundingMargin);
  }

  /** FR77 as written never reports anything, whatever the instance. */
  lemma Fr77AsWrittenNeverFires(facts: seq<Fact>, settings: Settings)
    ensures BalanceResult(facts, Fr77AsWritten, settings) == []
  {
    BalanceOverWithoutTotal(GroupedContextIds(facts, Fr77AsWritten.groupQns), facts, Fr77AsWritten,
                            settings.danishCurrencyId, settings.roundingMargin);
  }

  /** The last fact of `fs` with concept `qn` in unit `unit`. */
  function LastWith(fs: seq<Fact>, qn: QName, unit: string): (r: Option<Fact>)
    ensures r.Some? ==> r.value in fs && r.value.qname == qn && r.value.unitId == unit
  {
    if fs == [] then None
    else
      var f := fs[|fs| - 1];
      if f.qname == qn && f.unitId == unit then Some(f) else LastWith(fs[..|fs| - 1], qn, unit)
  }

  /** With four distinct concepts the chain keeps, in each slot, the last
      fact of that slot's concept in Danish kroner. */
  lemma {:induction false} SlotsAreLast(fs: seq<Fact>, rule: BalanceRule, dkk: string)
    requires EquityQn != rule.totalQn && EquityQn != rule.firstQn && EquityQn != rule.secondQn
    requires rule.totalQn != rule.firstQn && rule.totalQn != rule.secondQn && rule.firstQn != rule.secondQn
    ensures SlotsOf(fs, rule, dkk)
            == BalanceSlots(LastWith(fs, EquityQn, dkk), LastWith(fs, rule.totalQn, dkk),
                            LastWith(fs, rule.firstQn, dkk), LastWith(fs, rule.secondQn, dkk))
  {
    if fs != [] {
      SlotsAreLast(fs[..|fs| - 1], rule, dkk);
    }
  }

  /** The last fact of the instance with context `c`, concept `qn` and unit
      `unit`. */
  function LastInContext(facts: seq<Fact>, c: string, qn: QName, unit: string): Option<Fact> {
    if facts == [] then None
    else
      var f := facts[|facts| - 1];
      if f.contextId == c && f.qname == qn && f.unitId == unit then Some(f)
      else LastInContext(facts[..|facts| - 1], c, qn, unit)
  }

  /** Searching a context's group is searching the instance in that context. */
  lemma {:induction false} LastWithInGroup(facts: seq<Fact>, qns: seq<QName>, c: string, qn: QName, unit: string)
    requires qn in qns
    ensures LastWith(ContextGroup(facts, qns, c), qn, unit) == LastInContext(facts, c, qn, unit)
  {
    if facts != [] {
      var init := facts[..|facts| - 1];
      var f := facts[|facts| - 1];
      LastWithInGroup(init, qns, c, qn, unit);
      var all := FactsOfAny(init, qns);
      var g := Group(all, ContextIdOf, c);
      if f.qname in qns && f.contextId == c {
        assert FactsOfAny(facts, qns) == all + [f];
        GroupSnoc(all, ContextIdOf, f, c);
        assert ContextGroup(facts, qns, c) == g + [f];
        LastWithSnoc(g, f, qn, unit);
      } else if f.qname in qns {
        assert FactsOfAny(facts, qns) == all + [f];
        GroupSnoc(all, ContextIdOf, f, c);
        assert ContextGroup(facts, qns, c) == g;
        assert LastInContext(facts, c, qn, unit) == LastInContext(init, c, qn, unit);
      } else {
        assert FactsOfAny(facts, qns) == all;
        assert ContextGroup(facts, qns, c) == g;
        assert LastInContext(facts, c, qn, unit) == LastInContext(init, c, qn, unit);
      }
    }
  }

  lemma LastWithSnoc(g: seq<Fact>, f: Fact, qn: QName, unit: string)
    ensures LastWith(g + [f], qn, unit) == if f.qname == qn && f.unitId == unit then Some(f) else LastWith(g, qn, unit)
  {
    assert (g + [f])[..|g|] == g;
  }

  /** The slots of context `c` by the reference reading. */
  function ReferenceSlots(facts: seq<Fact>, c: string, rule: BalanceRule, dkk: string): BalanceSlots {
    BalanceSlots(LastInContext(facts, c, EquityQn, dkk), LastInContext(facts, c, rule.totalQn, dkk),
                 LastInContext(facts, c, rule.firstQn, dkk), LastInContext(facts, c, rule.secondQn, dkk))
  }

  /** Each context's errors come out of its slots. */
  lemma {:induction false} BalanceOverMembership(keys: seq<string>, facts: seq<Fact>, rule: BalanceRule,
                                                 dkk: string, margin: real, d: Diagnostic)
    ensures d in BalanceOver(keys, facts, rule, dkk, margin) <==>
              exists c :: c in keys && d in SlotDiagnostics(SlotsOf(ContextGroup(facts, rule.groupQns, c), rule, dkk), rule, margin)
  {
    if keys != [] {
      var c := keys[|keys| - 1];
      var init := keys[..|keys| - 1];
      assert forall k :: k in keys <==> k in init || k == c;
      BalanceOverMembership(init, facts, rule, dkk, margin, d);
    }
  }

  /** The corrected FR74: an FR74a error points at the last equity, total and
      provisions facts in kroner of some context, and there is one exactly
      when those facts are valid and provisions exceed the total minus equity
      by more than the rounding margin; FR74b likewise for liabilities other
      than provisions. */
  lemma Fr74Breaches(facts: seq<Fact>, settings: Settings, d: Diagnostic)
    ensures d in BalanceResult(facts, Fr74Rule, settings) <==>
              exists c :: c in GroupedContextIds(facts, Fr74Rule.groupQns)
                          && d in SlotDiagnostics(ReferenceSlots(facts, c, Fr74Rule, settings.danishCurrencyId),
                                                  Fr74Rule, settings.roundingMargin)
  {
    BalanceBreaches(facts, Fr74Rule, settings, d);
  }

  /** The corrected FR77, in the same terms for long-term and short-term
      liabilities. */
  lemma Fr77Breaches(facts: seq<Fact>, settings: Settings, d: Diagnostic)
    ensures d in BalanceResult(facts, Fr77Rule, settings) <==>
              exists c :: c in GroupedContextIds(facts, Fr77Rule.groupQns)
                          && d in SlotDiagnostics(ReferenceSlots(facts, c, Fr77Rule, settings.danishCurrencyId),
                                                  Fr77Rule, settings.roundingMargin)
  {
    BalanceBreaches(facts, Fr77Rule, settings, d);
  }

  /** A balance rule whose four concepts are distinct and grouped reads, in
      each context, the last fact of each concept in kroner. */
  lemma BalanceBreaches(facts: seq<Fact>, rule: BalanceRule, settings: Settings, d: Diagnostic)
    requires EquityQn in rule.groupQns && rule.totalQn in rule.groupQns
    requires rule.firstQn in rule.groupQns && rule.secondQn in rule.groupQns
    requires EquityQn != rule.totalQn && EquityQn != rule.firstQn && EquityQn != rule.secondQn
    requires rule.totalQn != rule.firstQn && rule.totalQn != rule.secondQn && rule.firstQn != rule.secondQn
    ensures d in BalanceResult(facts, rule, settings) <==>
              exists c :: c in GroupedContextIds(facts, rule.groupQns)
                          && d in SlotDiagnostics(ReferenceSlots(facts, c, rule, settings.danishCurrencyId),
                                                  rule, settings.roundingMargin)
  {
    var dkk := settings.danishCurrencyId;
    BalanceOverMembership(GroupedContextIds(facts, rule.groupQns), facts, rule, dkk, settings.roundingMargin, d);
    forall c ensures SlotsOf(ContextGroup(facts, rule.groupQns, c), rule, dkk) == ReferenceSlots(facts, c, rule, dkk) {
      var g := ContextGroup(facts, rule.groupQns, c);
      SlotsAreLast(g, rule, dkk);
      LastWithInGroup(facts, rule.groupQns, c, EquityQn, dkk);
      LastWithInGroup(facts, rule.groupQns, c, rule.totalQn, dkk);
      LastWithInGroup(facts, rule.groupQns, c, rule.firstQn, dkk);
      LastWithInGroup(facts, rule.groupQns, c, rule.secondQn, dkk);
    }
  }

  // ---- FR75 ----

  /** The concepts FR75 groups. */
  const Fr75Qns := [EmployeeBenefitsExpenseQn, WagesAndSalariesQn, AverageNumberOfEmployeesQn]

  /** A valid amount of concept `qn` in kroner of at least the threshold. */
  predicate HighCost(f: Fact, qn: QName, settings: Settings) {
    f.qname == qn && f.unitId == settings.danishCurrencyId && f.valid
    && Amount(f) >= settings.personnelExpenseThreshold
  }

  /** A valid employee benefits expense in kroner of at least the threshold. */
  predicate HighBenefits(f: Fact, settings: Settings) {
    HighCost(f, EmployeeBenefitsExpenseQn, settings)
  }

  /** A valid wages and salaries amount in kroner of at least the threshold. */
  predicate HighWages(f: Fact, settings: Settings) {
    HighCost(f, WagesAndSalariesQn, settings)
  }

  /** A valid, positive average number of employees, in any unit. */
  predicate HasEmployees(f: Fact) {
    f.qname == AverageNumberOfEmployeesQn && f.valid && Amount(f) > 0.0
  }

  datatype StaffSlots = StaffSlots(benefits: Option<Fact>, wages: Option<Fact>, employees: Option<Fact>)

  function StaffStep(s: StaffSlots, f: Fact, settings: Settings): StaffSlots {
    if HighBenefits(f, settings) then s.(benefits := Some(f))
    else if HighWages(f, settings) then s.(wages := Some(f))
    else if HasEmployees(f) then s.(employees := Some(f))
    else s
  }

  function StaffSlotsOf(fs: seq<Fact>, settings: Settings): StaffSlots {
    if fs == [] then StaffSlots(None, None, None)
    else StaffStep(StaffSlotsOf(fs[..|fs| - 1], settings), fs[|fs| - 1], settings)
  }

  /** The facts FR75's chain casts are numbers: valid kroner benefits and
      wages facts, and every valid average number of employees. A fact in
      another unit fails the unit test before its value is read. */
  ghost predicate StaffCastsNumbers(fs: seq<Fact>, settings: Settings) {
    forall f :: f in fs && f.valid
                && (((f.qname == EmployeeBenefitsExpenseQn || f.qname == WagesAndSalariesQn)
                     && f.unitId == settings.danishCurrencyId)
                    || f.qname == AverageNumberOfEmployeesQn)
                ==> f.value.Num?
  }

  /** The chain of FR75 over one context's group. */
  method FillStaffSlots(fs: seq<Fact>, settings: Settings) returns (slots: StaffSlots)
    requires StaffCastsNumbers(fs, settings)
    ensures slots == StaffSlotsOf(fs, settings)
  {
    var benefitsFact: Option<Fact> := None;
    var wagesFact: Option<Fact> := None;
    var employeesFact: Option<Fact> := None;
    var dkk := settings.danishCurrencyId;
    for i := 0 to |fs|
      invariant StaffSlots(benefitsFact, wagesFact, employeesFact) == StaffSlotsOf(fs[..i], settings)
    {
      assert fs[..i + 1][..i] == fs[..i];
      var f := fs[i];
      if f.qname == EmployeeBenefitsExpenseQn && f.unitId == dkk && f.valid
         && f.value.n >= settings.personnelExpenseThreshold {
        benefitsFact := Some(f);
      } else if f.qname == WagesAndSalariesQn && f.unitId == dkk && f.valid
                && f.value.n >= settings.personnelExpenseThreshold {
        wagesFact := Some(f);
      } else if f.qname == AverageNumberOfEmployeesQn && f.valid && f.value.n > 0.0 {
        employeesFact := Some(f);
      }
    }
    assert fs[..|fs|] == fs;
    slots := StaffSlots(benefitsFact, wagesFact, employeesFact);
  }

  /** The facts present among two optional ones (the source's message lists
      both, absent ones as None). */
  function Present(a: Option<Fact>, b: Option<Fact>): (r: seq<Fact>)
    ensures forall f :: f in r <==> (a == Some(f) || b == Some(f))
  {
    (if a.Some? then [a.value] else []) + (if b.Some? then [b.value] else [])
  }

  function StaffDiagnostics(s: StaffSlots): seq<Diagnostic> {
    if (s.benefits.Some? || s.wages.Some?) && s.employees.None?
    then [Diagnostic("DBA.FR75", Error, Present(s.benefits, s.wages))]
    else []
  }

  /** The errors FR75 reports for context `c`. */
  function Fr75ErrorsFor(facts: seq<Fact>, c: string, settings: Settings): seq<Diagnostic> {
    StaffDiagnostics(StaffSlotsOf(ContextGroup(facts, Fr75Qns, c), settings))
  }

  function Fr75Over(keys: seq<string>, facts: seq<Fact>, settings: Settings): seq<Diagnostic> {
    if keys == [] then []
    else
      var c := keys[|keys| - 1];
      Fr75Over(keys[..|keys| - 1], facts, settings) + Fr75ErrorsFor(facts, c, settings)
  }

  /** What FR75 reports for an instance. */
  function Fr75Result(facts: seq<Fact>, settings: Settings): seq<Diagnostic> {
    Fr75Over(GroupedContextIds(facts, Fr75Qns), facts, settings)
  }

  /** The test of one context, as the loop body runs it. */
  method CheckStaff(slots: StaffSlots) returns (ds: seq<Diagnostic>)
    ensures ds == StaffDiagnostics(slots)
  {
    ds := [];
    if (slots.benefits.Some? || slots.wages.Some?) && slots.employees.None? {
      ds := [Diagnostic("DBA.FR75", Error, Present(slots.benefits, slots.wages))];
    }
  }

  /** FR75 as the source runs it. */
  method Fr75(facts: seq<Fact>, settings: Settings) returns (r: seq<Diagnostic>)
    requires StaffCastsNumbers(facts, settings)
    ensures r == Fr75Result(facts, settings)
  {
    var keys := GroupedContextIds(facts, Fr75Qns);
    r := [];
    for i := 0 to |keys|
      invariant r == Fr75Over(keys[..i], facts, settings)
    {
      assert keys[..i + 1][..i] == keys[..i];
      var group := ContextGroup(facts, Fr75Qns, keys[i]);
      var slots := FillStaffSlots(group, settings);
      var ds := CheckStaff(slots);
      r := r + ds;
    }
    assert keys[..|keys|] == keys;
  }

  /** Each slot changes only for a fact of its own concept: the three
      conditions name distinct concepts. */
  lemma StaffStepSlots(s: StaffSlots, f: Fact, settings: Settings)
    ensures StaffStep(s, f, settings).benefits == if HighBenefits(f, settings) then Some(f) else s.benefits
    ensures StaffStep(s, f, settings).wages == if HighWages(f, settings) then Some(f) else s.wages
    ensures StaffStep(s, f, settings).employees == if HasEmployees(f) then Some(f) else s.employees
  {
  }

  lemma {:induction false} BenefitsSlot(fs: seq<Fact>, settings: Settings)
    ensures var b := StaffSlotsOf(fs, settings).benefits;
            && (b.Some? <==> exists f :: f in fs && HighBenefits(f, settings))
            && (b.Some? ==> b.value in fs && HighBenefits(b.value, settings))
  {
    if fs != [] {
      var init, last := fs[..|fs| - 1], fs[|fs| - 1];
      BenefitsSlot(init, settings);
      StaffStepSlots(StaffSlotsOf(init, settings), last, settings);
      assert forall f :: f in fs <==> f in init || f == last;
    }
  }

  lemma {:induction false} WagesSlot(fs: seq<Fact>, settings: Settings)
    ensures var w := StaffSlotsOf(fs, settings).wages;
            && (w.Some? <==> exists f :: f in fs && HighWages(f, settings))
            && (w.Some? ==> w.value in fs && HighWages(w.value, settings))
  {
    if fs != [] {
      var init, last := fs[..|fs| - 1], fs[|fs| - 1];
      WagesSlot(init, settings);
      StaffStepSlots(StaffSlotsOf(init, settings), last, settings);
      assert forall f :: f in fs <==> f in init || f == last;
    }
  }

  lemma {:induction false} EmployeesSlot(fs: seq<Fact>, settings: Settings)
    ensures StaffSlotsOf(fs, settings).employees.Some? <==> exists f :: f in fs && HasEmployees(f)
  {
    if fs != [] {
      var init, last := fs[..|fs| - 1], fs[|fs| - 1];
      EmployeesSlot(init, settings);
      StaffStepSlots(StaffSlotsOf(init, settings), last, settings);
      assert forall f :: f in fs <==> f in init || f == last;
    }
  }

  /** Whatever the order of the facts, a slot is filled exactly when some
      fact qualifies for it, and then holds a qualifying fact: the three
      conditions name distinct concepts, so the `elif` never hides one. */
  lemma StaffSlotsFilled(fs: seq<Fact>, settings: Settings)
    ensures var s := StaffSlotsOf(fs, settings);
            && (s.benefits.Some? <==> exists f :: f in fs && HighBenefits(f, settings))
            && (s.wages.Some? <==> exists f :: f in fs && HighWages(f, settings))
            && (s.employees.Some? <==> exists f :: f in fs && HasEmployees(f))
            && (s.benefits.Some? ==> s.benefits.value in fs && HighBenefits(s.benefits.value, settings))
            && (s.wages.Some? ==> s.wages.value in fs && HighWages(s.wages.value, settings))
  {
    BenefitsSlot(fs, settings);
    WagesSlot(fs, settings);
    EmployeesSlot(fs, settings);
  }

  /** Reference reading of FR75 for one context: some employee benefits or
      wages fact of the context is at least the threshold, and no average
      number of employees of the context is positive. */
  predicate Fr75WarnsFor(facts: seq<Fact>, c: string, settings: Settings) {
    && (exists f :: f in facts && f.contextId == c && (HighBenefits(f, settings) || HighWages(f, settings)))
    && !(exists g :: g in facts && g.contextId == c && HasEmployees(g))
  }

  /** Each context's error comes out of its slots. */
  lemma {:induction false} Fr75OverMembership(keys: seq<string>, facts: seq<Fact>, settings: Settings, d: Diagnostic)
    ensures d in Fr75Over(keys, facts, settings) <==> exists c :: c in keys && d in Fr75ErrorsFor(facts, c, settings)
  {
    if keys != [] {
      var c := keys[|keys| - 1];
      var init := keys[..|keys| - 1];
      assert forall k :: k in keys <==> k in init || k == c;
      Fr75OverMembership(init, facts, settings, d);
    }
  }

  /** The high personnel costs of a context's group are those of the context. */
  lemma ContextGroupHighCosts(facts: seq<Fact>, c: string, settings: Settings)
    ensures var g := ContextGroup(facts, Fr75Qns, c);
            ((exists f :: f in g && HighBenefits(f, settings)) || (exists f :: f in g && HighWages(f, settings)))
            <==> exists f :: f in facts && f.contextId == c && (HighBenefits(f, settings) || HighWages(f, settings))
  {
    var g := ContextGroup(facts, Fr75Qns, c);
    if exists f :: f in facts && f.contextId == c && (HighBenefits(f, settings) || HighWages(f, settings)) {
      var f :| f in facts && f.contextId == c && (HighBenefits(f, settings) || HighWages(f, settings));
      assert f in g;
    }
    if exists f :: f in g && HighBenefits(f, settings) {
      var f :| f in g && HighBenefits(f, settings);
      assert f in facts && f.contextId == c;
    }
    if exists f :: f in g && HighWages(f, settings) {
      var f :| f in g && HighWages(f, settings);
      assert f in facts && f.contextId == c;
    }
  }

  /** The employee counts of a context's group are those of the context. */
  lemma ContextGroupEmployees(facts: seq<Fact>, c: string)
    ensures var g := ContextGroup(facts, Fr75Qns, c);
            (exists f :: f in g && HasEmployees(f)) <==> exists f :: f in facts && f.contextId == c && HasEmployees(f)
  {
    var g := ContextGroup(facts, Fr75Qns, c);
    if exists f :: f in facts && f.contextId == c && HasEmployees(f) {
      var f :| f in facts && f.contextId == c && HasEmployees(f);
      assert f in g;
    }
    if exists f :: f in g && HasEmployees(f) {
      var f :| f in g && HasEmployees(f);
      assert f in facts && f.contextId == c;
    }
  }

  /** A context errs exactly when the reference reading warns for it. */
  lemma Fr75ErrorsForWhen(facts: seq<Fact>, c: string, settings: Settings)
    ensures Fr75ErrorsFor(facts, c, settings) != [] <==> Fr75WarnsFor(facts, c, settings)
  {
    StaffSlotsFilled(ContextGroup(facts, Fr75Qns, c), settings);
    ContextGroupHighCosts(facts, c, settings);
    ContextGroupEmployees(facts, c);
  }

  /** The error of filled slots points at the high personnel costs among
      the facts they were filled from. */
  lemma StaffDiagnosticsContent(s: StaffSlots, fs: seq<Fact>, settings: Settings)
    requires s.benefits.Some? ==> s.benefits.value in fs && HighBenefits(s.benefits.value, settings)
    requires s.wages.Some? ==> s.wages.value in fs && HighWages(s.wages.value, settings)
    ensures forall d :: d in StaffDiagnostics(s) ==>
              d.code == "DBA.FR75" && d.severity == Error && d.facts != []
              && forall f :: f in d.facts ==> f in fs && (HighBenefits(f, settings) || HighWages(f, settings))
  {
    if StaffDiagnostics(s) != [] {
      var facts := Present(s.benefits, s.wages);
      assert s.benefits.Some? ==> s.benefits.value in facts;
    }
  }

  /** The last fact of `fs` that is a high cost of concept `qn`. */
  function LastHighCost(fs: seq<Fact>, qn: QName, settings: Settings): (r: Option<Fact>)
    ensures r.Some? ==> r.value in fs && HighCost(r.value, qn, settings)
  {
    if fs == [] then None
    else
      var f := fs[|fs| - 1];
      if HighCost(f, qn, settings) then Some(f) else LastHighCost(fs[..|fs| - 1], qn, settings)
  }

  /** Later facts overwrite earlier ones: the benefits and wages slots hold
      the last qualifying fact of the group. */
  lemma {:induction false} StaffSlotsAreLast(fs: seq<Fact>, settings: Settings)
    ensures StaffSlotsOf(fs, settings).benefits == LastHighCost(fs, EmployeeBenefitsExpenseQn, settings)
    ensures StaffSlotsOf(fs, settings).wages == LastHighCost(fs, WagesAndSalariesQn, settings)
  {
    if fs != [] {
      StaffSlotsAreLast(fs[..|fs| - 1], settings);
      StaffStepSlots(StaffSlotsOf(fs[..|fs| - 1], settings), fs[|fs| - 1], settings);
    }
  }

  /** The last fact of the instance in context `c` that is a high cost of
      concept `qn`. */
  function LastHighCostIn(facts: seq<Fact>, c: string, qn: QName, settings: Settings): Option<Fact> {
    if facts == [] then None
    else
      var f := facts[|facts| - 1];
      if f.contextId == c && HighCost(f, qn, settings) then Some(f)
      else LastHighCostIn(facts[..|facts| - 1], c, qn, settings)
  }

  /** Searching a context's group is searching the instance in that context. */
  lemma {:induction false} LastHighCostInGroup(facts: seq<Fact>, c: string, qn: QName, settings: Settings)
    requires qn in Fr75Qns
    ensures LastHighCost(ContextGroup(facts, Fr75Qns, c), qn, settings) == LastHighCostIn(facts, c, qn, settings)
  {
    if facts != [] {
      var init := facts[..|facts| - 1];
      var f := facts[|facts| - 1];
      LastHighCostInGroup(init, c, qn, settings);
      var all := FactsOfAny(init, Fr75Qns);
      var g := Group(all, ContextIdOf, c);
      if f.qname in Fr75Qns && f.contextId == c {
        assert FactsOfAny(facts, Fr75Qns) == all + [f];
        GroupSnoc(all, ContextIdOf, f, c);
        assert ContextGroup(facts, Fr75Qns, c) == g + [f];
        LastHighCostSnoc(g, f, qn, settings);
      } else if f.qname in Fr75Qns {
        assert FactsOfAny(facts, Fr75Qns) == all + [f];
        GroupSnoc(all, ContextIdOf, f, c);
        assert ContextGroup(facts, Fr75Qns, c) == g;
        assert LastHighCostIn(facts, c, qn, settings) == LastHighCostIn(init, c, qn, settings);
      } else {
        assert FactsOfAny(facts, Fr75Qns) == all;
        assert ContextGroup(facts, Fr75Qns, c) == g;
        assert LastHighCostIn(facts, c, qn, settings) == LastHighCostIn(init, c, qn, settings);
      }
    }
  }

  lemma LastHighCostSnoc(g: seq<Fact>, f: Fact, qn: QName, settings: Settings)
    ensures LastHighCost(g + [f], qn, settings) == if HighCost(f, qn, settings) then Some(f) else LastHighCost(g, qn, settings)
  {
    assert (g + [f])[..|g|] == g;
  }

  /** The benefits and wages slots of a context's group hold the context's
      last high benefits fact and last high wages fact. */
  lemma StaffSlotsOfContext(facts: seq<Fact>, c: string, settings: Settings)
    ensures StaffSlotsOf(ContextGroup(facts, Fr75Qns, c), settings).benefits
            == LastHighCostIn(facts, c, EmployeeBenefitsExpenseQn, settings)
    ensures StaffSlotsOf(ContextGroup(facts, Fr75Qns, c), settings).wages
            == LastHighCostIn(facts, c, WagesAndSalariesQn, settings)
  {
    StaffSlotsAreLast(ContextGroup(facts, Fr75Qns, c), settings);
    LastHighCostInGroup(facts, c, EmployeeBenefitsExpenseQn, settings);
    LastHighCostInGroup(facts, c, WagesAndSalariesQn, settings);
  }

  /** A context's error points only at high personnel costs of that context. */
  lemma Fr75ErrorsForContent(facts: seq<Fact>, c: string, settings: Settings)
    ensures forall d :: d in Fr75ErrorsFor(facts, c, settings) ==>
              d.code == "DBA.FR75" && d.severity == Error && d.facts != []
              && forall f :: f in d.facts ==>
                   f in facts && f.contextId == c && (HighBenefits(f, settings) || HighWages(f, settings))
  {
    var g := ContextGroup(facts, Fr75Qns, c);
    BenefitsSlot(g, settings);
    WagesSlot(g, settings);
    StaffDiagnosticsContent(StaffSlotsOf(g, settings), g, settings);
  }

  /** What FR75 reports for context `c`: nothing, or, when the reference
      reading warns, one error pointing at the context's last high benefits
      fact and last high wages fact, in that order, whichever exist. */
  lemma Fr75ErrorsForExactly(facts: seq<Fact>, c: string, settings: Settings)
    ensures Fr75ErrorsFor(facts, c, settings)
            == if Fr75WarnsFor(facts, c, settings)
               then [Diagnostic("DBA.FR75", Error, Present(LastHighCostIn(facts, c, EmployeeBenefitsExpenseQn, settings),
                                                           LastHighCostIn(facts, c, WagesAndSalariesQn, settings)))]
               else []
  {
    Fr75ErrorsForWhen(facts, c, settings);
    StaffSlotsOfContext(facts, c, settings);
  }

  /** A context the reference reading warns for holds a fact FR75 groups. */
  lemma WarnedContextIsGrouped(facts: seq<Fact>, c: string, settings: Settings)
    requires Fr75WarnsFor(facts, c, settings)
    ensures c in GroupedContextIds(facts, Fr75Qns)
  {
    var f :| f in facts && f.contextId == c && (HighBenefits(f, settings) || HighWages(f, settings));
    assert f.qname in Fr75Qns;
  }

  /** FR75 reports exactly the errors of the contexts the reference reading
      warns for. */
  lemma Fr75Meaning(facts: seq<Fact>, settings: Settings, d: Diagnostic)
    ensures d in Fr75Result(facts, settings) <==>
              exists c :: Fr75WarnsFor(facts, c, settings) && d in Fr75ErrorsFor(facts, c, settings)
  {
    var keys := GroupedContextIds(facts, Fr75Qns);
    Fr75OverMembership(keys, facts, settings, d);
    if d in Fr75Result(facts, settings) {
      var c :| c in keys && d in Fr75ErrorsFor(facts, c, settings);
      Fr75ErrorsForWhen(facts, c, settings);
    }
    if exists c :: Fr75WarnsFor(facts, c, settings) && d in Fr75ErrorsFor(facts, c, settings) {
      var c :| Fr75WarnsFor(facts, c, settings) && d in Fr75ErrorsFor(facts, c, settings);
      WarnedContextIsGrouped(facts, c, settings);
    }
  }
}
