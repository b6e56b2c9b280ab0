/** The DBA filing rules that compare amounts across the whole instance:
    equity that is not zero needs other balance-sheet fields (FR34), no
    balance-sheet item may exceed the assets of its context (FR63), and
    personnel costs must not be negative (FR71). */
module FrAmounts {
  import opened Seqs
  import opened Xbrl
  import opened DbaData

  /** Python's `fact.xValue != 0`: true for every value but a decimal zero
      (a nil fact's None, or a string, is "not zero"). */
  predicate IsNonZero(v: Value) {
    !(v.Num? && v.n == 0.0)
  }

  /** The valid facts of `fs` whose value is not zero, in order. */
  function NonZeroOf(fs: seq<Fact>): (r: seq<Fact>)
    ensures forall f :: f in r <==> f in fs && f.valid && IsNonZero(f.value)
  {
    if fs == [] then []
    else
      var last := fs[|fs| - 1];
      assert forall f :: f in fs <==> f in fs[..|fs| - 1] || f == last;
      NonZeroOf(fs[..|fs| - 1]) + (if last.valid && IsNonZero(last.value) then [last] else [])
  }

  /** The loop that collects FR34's non-zero equity facts. */
  method NonZeroEquityFacts(facts: seq<Fact>) returns (r: seq<Fact>)
    ensures r == NonZeroOf(FactsOf(facts, EquityQn))
  {
    var equity := FactsOf(facts, EquityQn);
    r := [];
    for i := 0 to |equity|
      invariant r == NonZeroOf(equity[..i])
    {
      assert equity[..i + 1][..i] == equity[..i];
      if equity[i].valid && IsNonZero(equity[i].value) {
        r := r + [equity[i]];
      }
    }
    assert equity[..|equity|] == equity;
  }

  /** The balance-sheet fields of which FR34 wants at least one beside
      equity. */
  const Fr34OtherQns := [AssetsQn, NoncurrentAssetsQn, LongtermLiabilitiesOtherThanProvisionsQn,
                         ShorttermLiabilitiesOtherThanProvisionsQn, LiabilitiesOtherThanProvisionsQn,
                         LiabilitiesAndEquityQn]

  /** FR34: one error when some valid equity fact is not zero and none of the
      other balance-sheet fields is tagged; it points at every valid non-zero
      equity fact. */
  method Fr34(facts: seq<Fact>) returns (r: seq<Diagnostic>)
    ensures r != [] <==> (exists f :: f in facts && f.qname == EquityQn && f.valid && IsNonZero(f.value))
                         && !HasFactsOfAny(facts, Fr34OtherQns)
    ensures r != [] ==> |r| == 1 && r[0].code == "DBA.FR34" && r[0].severity == Error
                        && r[0].facts == NonZeroOf(FactsOf(facts, EquityQn))
                        && forall f :: f in r[0].facts <==>
                             f in facts && f.qname == EquityQn && f.valid && IsNonZero(f.value)
  {
    var nonZero := NonZeroEquityFacts(facts);
    r := [];
    if nonZero != [] {
      assert nonZero[0] in nonZero;
      if !HasFactsOfAny(facts, Fr34OtherQns) {
        r := [Diagnostic("DBA.FR34", Error, nonZero)];
      }
    }
  }

  /** A balance-sheet fact that is greater than the assets fact `asset` of
      the same context. */
  predicate ExceedsAssets(asset: Fact, g: Fact) {
    g.valid && g.value.Num? && g.contextId == asset.contextId && Amount(asset) < g.value.n
  }

  function ExceedingOf(asset: Fact, fs: seq<Fact>): (r: seq<Fact>)
    ensures forall g :: g in r <==> g in fs && ExceedsAssets(asset, g)
  {
    if fs == [] then []
    else
      var last := fs[|fs| - 1];
      assert forall g :: g in fs <==> g in fs[..|fs| - 1] || g == last;
      ExceedingOf(asset, fs[..|fs| - 1]) + (if ExceedsAssets(asset, last) then [last] else [])
  }

  /** FR63's `facts_in_error` for one assets fact: concept by concept, the
      facts of that concept that exceed it. */
  function Exceeding(asset: Fact, facts: seq<Fact>, qns: seq<QName>): (r: seq<Fact>)
    ensures forall g :: g in r <==> g in facts && g.qname in qns && ExceedsAssets(asset, g)
  {
    if qns == [] then []
    else
      var q := qns[|qns| - 1];
      assert forall x :: x in qns <==> x in qns[..|qns| - 1] || x == q;
      Exceeding(asset, facts, qns[..|qns| - 1]) + ExceedingOf(asset, FactsOf(facts, q))
  }

  /** The innermost loop of FR63: the facts of one concept that exceed the
      assets fact. */
  method ExceedingIn(asset: Fact, items: seq<Fact>) returns (inError: seq<Fact>)
    ensures inError == ExceedingOf(asset, items)
  {
    inError := [];
    for k := 0 to |items|
      invariant inError == ExceedingOf(asset, items[..k])
    {
      assert items[..k + 1][..k] == items[..k];
      var g := items[k];
      if g.valid && g.value.Num? && asset.contextId == g.contextId && Amount(asset) < g.value.n {
        inError := inError + [g];
      }
    }
    assert items[..|items|] == items;
  }

  lemma ExceedingStep(asset: Fact, facts: seq<Fact>, qns: seq<QName>, i: nat)
    requires i < |qns|
    ensures Exceeding(asset, facts, qns[..i + 1])
            == Exceeding(asset, facts, qns[..i]) + ExceedingOf(asset, FactsOf(facts, qns[i]))
  {
    assert qns[..i + 1][..i] == qns[..i];
  }

  /** The two inner loops of FR63 for one assets fact. */
  method CollectExceeding(asset: Fact, facts: seq<Fact>, qns: seq<QName>) returns (inError: seq<Fact>)
    ensures inError == Exceeding(asset, facts, qns)
  {
    inError := [];
    for i := 0 to |qns|
      invariant inError == Exceeding(asset, facts, qns[..i])
    {
      ExceedingStep(asset, facts, qns, i);
      var more := ExceedingIn(asset, FactsOf(facts, qns[i]));
      inError := inError + more;
    }
    assert qns[..|qns|] == qns;
  }

  /** FR63's errors for a list of assets facts: one per valid numeric assets
      fact that some item exceeds, pointing at those items. */
  function Fr63Over(assets: seq<Fact>, facts: seq<Fact>, qns: seq<QName>): seq<Diagnostic> {
    if assets == [] then []
    else
      var a := assets[|assets| - 1];
      Fr63Over(assets[..|assets| - 1], facts, qns)
        + (if a.valid && a.value.Num? && Exceeding(a, facts, qns) != []
           then [Diagnostic("DBA.FR63", Error, Exceeding(a, facts, qns))] else [])
  }

  /** An error is among FR63's errors exactly when it belongs to a valid
      numeric assets fact that some item exceeds, and lists those items. */
  lemma {:induction false} Fr63OverMembership(assets: seq<Fact>, facts: seq<Fact>, qns: seq<QName>, d: Diagnostic)
    ensures d in Fr63Over(assets, facts, qns) <==>
              exists a :: a in assets && a.valid && a.value.Num? && Exceeding(a, facts, qns) != []
                          && d == Diagnostic("DBA.FR63", Error, Exceeding(a, facts, qns))
  {
    if assets != [] {
      var init := assets[..|assets| - 1];
      assert forall x :: x in assets <==> x in init || x == assets[|assets| - 1];
      Fr63OverMembership(init, facts, qns, d);
    }
  }

  /** FR63: balance-sheet items must not exceed the assets of their context. */
  method Fr63(facts: seq<Fact>, settings: Settings) returns (r: seq<Diagnostic>)
    ensures r == Fr63Over(FactsOf(facts, AssetsQn), facts, settings.balanceSheetQnLessThanOrEqualToAssets)
  {
    var qns := settings.balanceSheetQnLessThanOrEqualToAssets;
    var assets := FactsOf(facts, AssetsQn);
    r := [];
    for i := 0 to |assets|
      invariant r == Fr63Over(assets[..i], facts, qns)
    {
      assert assets[..i + 1][..i] == assets[..i];
      var errors := AssetErrors(assets[i], facts, qns);
      r := r + errors;
    }
    assert assets[..|assets|] == assets;
  }

  /** The body of FR63's loop for one assets fact: the error listing the
      items that exceed it, if there are any and it is a valid number. */
  method AssetErrors(a: Fact, facts: seq<Fact>, qns: seq<QName>) returns (errors: seq<Diagnostic>)
    ensures errors == if a.valid && a.value.Num? && Exceeding(a, facts, qns) != []
                      then [Diagnostic("DBA.FR63", Error, Exceeding(a, facts, qns))] else []
  {
    errors := [];
    if a.valid && a.value.Num? {
      var inError := CollectExceeding(a, facts, qns);
      if |inError| > 0 {
        errors := [Diagnostic("DBA.FR63", Error, inError)];
      }
    }
  }

  /** The assets fact an FR63 error belongs to. */
  lemma {:induction false} Fr63Source(assets: seq<Fact>, facts: seq<Fact>, qns: seq<QName>, d: Diagnostic)
    returns (a: Fact)
    requires d in Fr63Over(assets, facts, qns)
    ensures a in assets && a.valid && a.value.Num? && Exceeding(a, facts, qns) != []
    ensures d == Diagnostic("DBA.FR63", Error, Exceeding(a, facts, qns))
  {
    var init, last := assets[..|assets| - 1], assets[|assets| - 1];
    if d in Fr63Over(init, facts, qns) {
      a := Fr63Source(init, facts, qns, d);
      assert a in assets;
    } else {
      a := last;
    }
  }

  /** Every FR63 error belongs to a valid numeric assets fact and points at
      valid numeric items of the checked concepts, in its context, that are
      greater than it. */
  lemma Fr63Sound(facts: seq<Fact>, qns: seq<QName>, d: Diagnostic)
    requires d in Fr63Over(FactsOf(facts, AssetsQn), facts, qns)
    ensures d.code == "DBA.FR63" && d.severity == Error && d.facts != []
    ensures exists a :: a in facts && a.qname == AssetsQn && a.valid && a.value.Num?
                        && forall g :: g in d.facts ==>
                             g in facts && g.qname in qns && g.valid && g.value.Num?
                             && g.contextId == a.contextId && a.value.n < g.value.n
  {
    var a := Fr63Source(FactsOf(facts, AssetsQn), facts, qns, d);
    assert a in facts && a.qname == AssetsQn;
    forall g | g in d.facts
      ensures g in facts && g.qname in qns && g.valid && g.value.Num?
              && g.contextId == a.contextId && a.value.n < g.value.n
    {
      assert ExceedsAssets(a, g);
    }
  }

  /** Every valid numeric assets fact that some item of its context exceeds
      draws the error that lists exactly those items. */
  lemma Fr63Complete(facts: seq<Fact>, qns: seq<QName>, a: Fact, g: Fact)
    requires a in facts && a.qname == AssetsQn && a.valid && a.value.Num?
    requires g in facts && g.qname in qns && g.valid && g.value.Num?
             && g.contextId == a.contextId && a.value.n < g.value.n
    ensures Diagnostic("DBA.FR63", Error, Exceeding(a, facts, qns)) in Fr63Over(FactsOf(facts, AssetsQn), facts, qns)
  {
    assert g in Exceeding(a, facts, qns);
    assert a in FactsOf(facts, AssetsQn);
    Fr63OverMembership(FactsOf(facts, AssetsQn), facts, qns, Diagnostic("DBA.FR63", Error, Exceeding(a, facts, qns)));
  }

  /** A valid decimal below zero. */
  predicate IsNegativeCost(f: Fact) {
    f.valid && f.value.Num? && f.value.n < 0.0
  }

  function NegativeOf(fs: seq<Fact>): (r: seq<Fact>)
    ensures forall f :: f in r <==> f in fs && IsNegativeCost(f)
  {
    if fs == [] then []
    else
      var last := fs[|fs| - 1];
      assert forall f :: f in fs <==> f in fs[..|fs| - 1] || f == last;
      NegativeOf(fs[..|fs| - 1]) + (if IsNegativeCost(last) then [last] else [])
  }

  /** FR71's `facts_in_error`: concept by concept, the negative costs. */
  function NegativeCosts(facts: seq<Fact>, qns: seq<QName>): (r: seq<Fact>)
    ensures forall f :: f in r <==> f in facts && f.qname in qns && IsNegativeCost(f)
  {
    if qns == [] then []
    else
      var q := qns[|qns| - 1];
      assert forall x :: x in qns <==> x in qns[..|qns| - 1] || x == q;
      NegativeCosts(facts, qns[..|qns| - 1]) + NegativeOf(FactsOf(facts, q))
  }

  lemma NegativeCostsStep(facts: seq<Fact>, qns: seq<QName>, i: nat)
    requires i < |qns|
    ensures NegativeCosts(facts, qns[..i + 1]) == NegativeCosts(facts, qns[..i]) + NegativeOf(FactsOf(facts, qns[i]))
  {
    assert qns[..i + 1][..i] == qns[..i];
  }

  /** The inner loop of FR71 over the facts of one concept. */
  method NegativeIn(costs: seq<Fact>) returns (inError: seq<Fact>)
    ensures inError == NegativeOf(costs)
  {
    inError := [];
    for k := 0 to |costs|
      invariant inError == NegativeOf(costs[..k])
    {
      assert costs[..k + 1][..k] == costs[..k];
      var f := costs[k];
      if f.valid && f.value.Num? && f.value.n < 0.0 {
        inError := inError + [f];
      }
    }
    assert costs[..|costs|] == costs;
  }

  /** The personnel costs FR71 checks: employee benefits, wages and salaries,
      pensions and other employee expense. */
  const PersonnelCostQns := [EmployeeBenefitsExpenseQn, WagesAndSalariesQn,
                             PostemploymentBenefitExpenseQn, OtherEmployeeExpenseQn]

  /** FR71: one warning pointing at every negative personnel cost, when there
      is one. */
  method Fr71(facts: seq<Fact>) returns (r: seq<Diagnostic>)
    ensures r != [] <==> exists f :: f in facts && f.qname in PersonnelCostQns && IsNegativeCost(f)
    ensures r != [] ==> |r| == 1 && r[0].code == "DBA.FR71" && r[0].severity == Warning
                        && r[0].facts == NegativeCosts(facts, PersonnelCostQns)
                        && forall f :: f in r[0].facts <==> f in facts && f.qname in PersonnelCostQns && IsNegativeCost(f)
  {
    var inError: seq<Fact> := [];
    var qns := PersonnelCostQns;
    for i := 0 to |qns|
      invariant inError == NegativeCosts(facts, qns[..i])
    {
      NegativeCostsStep(facts, qns, i);
      var more := NegativeIn(FactsOf(facts, qns[i]));
      inError := inError + more;
    }
    assert qns[..|qns|] == qns;
    r := [];
    if |inError| > 0 {
      assert inError[0] in inError;
      r := [Diagnostic("DBA.FR71", Warning, inError)];
    }
    if exists f :: f in facts && f.qname in PersonnelCostQns && IsNegativeCost(f) {
      var f :| f in facts && f.qname in PersonnelCostQns && IsNegativeCost(f);
      assert f in inError;
    }
  }
}
