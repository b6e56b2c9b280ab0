/** The DBA filing rules that look at the current and the previous reporting
    period only: tax on a profit above DKK 1000 (FR41) and the distribution
    of a profit or loss beyond DKK 1000 either way (FR56).

    Both ask the plugin object for the current and previous reporting-period
    contexts; FR41 also reads its per-context fact index. The plugin object
    belongs to one instance: its caches are empty or hold that instance's
    views. */
module FrPeriods {
  import opened Seqs
  import opened Xbrl
  import opened DbaData

  /** The caches of `p`, where present, are the views of this instance. */
  ghost predicate CachesOf(p: PluginValidationDataExtension, facts: seq<Fact>, contexts: seq<Context>)
    reads p
  {
    && (p.contextFactMapCache.None? || p.contextFactMapCache == Some(ContextFactMapOf(facts)))
    && (p.reportingPeriodContextsCache.None?
        || p.reportingPeriodContextsCache == Some(ReportingPeriodContextsOf(contexts)))
  }

  /** The keys of `keys` that are in `ids`, in their order: the dictionary
      comprehension that keeps the current and previous contexts. */
  function KeysIn(keys: seq<string>, ids: set<string>): (r: seq<string>)
    ensures forall c :: c in r <==> c in keys && c in ids
    ensures NoDuplicates(keys) ==> NoDuplicates(r)
  {
    if keys == [] then []
    else
      var last := keys[|keys| - 1];
      var init := keys[..|keys| - 1];
      assert forall c :: c in keys <==> c in init || c == last;
      var rest := KeysIn(init, ids);
      assert NoDuplicates(keys) ==> NoDuplicates(init) && last !in init by {
        if NoDuplicates(keys) {
          forall i, j | 0 <= i < j < |init| ensures init[i] != init[j] {
            assert init[i] == keys[i] && init[j] == keys[j];
          }
        }
      }
      rest + (if last in ids then [last] else [])
  }

  // ---- FR41 ----

  /** The `continue` tests of FR41 for one context of the index: there is a
      profit/loss fact, it is not a valid amount of at most DKK 1000, and
      neither tax concept has a non-nil fact. */
  predicate Fr41Fires(m: ContextFactIndex, c: string) {
    var profitLoss := Lookup(m, c, ProfitLossQn);
    var tax := Lookup(m, c, TaxExpenseQn);
    var taxOrdinary := Lookup(m, c, TaxExpenseOnOrdinaryActivitiesQn);
    && profitLoss.Some?
    && !(profitLoss.value.valid && Amount(profitLoss.value) <= PositiveProfitThreshold)
    && !(tax.Some? && !tax.value.isNil)
    && !(taxOrdinary.Some? && !taxOrdinary.value.isNil)
  }

  /** FR41's warnings for the given contexts of the index, in their order:
      one per context that fires, pointing at its profit/loss fact. */
  function Fr41Over(keys: seq<string>, m: ContextFactIndex): (r: seq<Diagnostic>)
    ensures |r| <= |keys|
    ensures forall d :: d in r <==>
              exists c :: c in keys && Fr41Fires(m, c)
                          && d == Diagnostic("DBA.FR41", Warning, [Lookup(m, c, ProfitLossQn).value])
  {
    if keys == [] then []
    else
      var c := keys[|keys| - 1];
      assert forall k :: k in keys <==> k in keys[..|keys| - 1] || k == c;
      Fr41Over(keys[..|keys| - 1], m)
        + (if Fr41Fires(m, c) then [Diagnostic("DBA.FR41", Warning, [Lookup(m, c, ProfitLossQn).value])] else [])
  }

  /** What FR41 reports for an instance. */
  function Fr41Result(facts: seq<Fact>, contexts: seq<Context>): seq<Diagnostic> {
    Fr41Over(KeysIn(KeyOrder(facts, ContextIdOf), CurrentAndPreviousIds(contexts)), ContextFactMapOf(facts))
  }

  /** The one profit/loss fact FR41 casts in each current or previous
      context, the valid one the index keeps, is a number: the source
      compares it through `cast(decimal.Decimal, ...)` and raises on any
      other value. */
  ghost predicate Fr41CastsNumbers(facts: seq<Fact>, contexts: seq<Context>) {
    forall c :: c in CurrentAndPreviousIds(contexts) && LastFactOf(facts, c, ProfitLossQn).Some?
                && LastFactOf(facts, c, ProfitLossQn).value.valid
                ==> LastFactOf(facts, c, ProfitLossQn).value.value.Num?
  }

  /** FR41 as the source runs it, on the plugin object. */
  method Fr41(p: PluginValidationDataExtension, facts: seq<Fact>, contexts: seq<Context>)
    returns (r: seq<Diagnostic>)
    requires CachesOf(p, facts, contexts)
    requires Fr41CastsNumbers(facts, contexts)
    modifies p
    ensures CachesOf(p, facts, contexts)
    ensures p.contextFactMapCache.Some? && p.reportingPeriodContextsCache.Some?
    ensures r == Fr41Result(facts, contexts)
  {
    var current := p.GetCurrentAndPreviousReportingPeriodContexts(contexts);
    var ids := set c | c in current :: c.id;
    var m := p.ContextFactMap(facts);
    r := Fr41Loop(m, KeysIn(KeyOrder(facts, ContextIdOf), ids));
  }

  /** FR41's loop over the current and previous contexts of the index, with
      its `continue` tests. */
  method Fr41Loop(m: ContextFactIndex, keys: seq<string>) returns (r: seq<Diagnostic>)
    ensures r == Fr41Over(keys, m)
  {
    r := [];
    for i := 0 to |keys|
      invariant r == Fr41Over(keys[..i], m)
    {
      assert keys[..i + 1][..i] == keys[..i];
      var c := keys[i];
      var profitLoss := Lookup(m, c, ProfitLossQn);
      if profitLoss.None? {
        continue;
      }
      if profitLoss.value.valid && Amount(profitLoss.value) <= PositiveProfitThreshold {
        continue;
      }
      var tax := Lookup(m, c, TaxExpenseQn);
      if tax.Some? && !tax.value.isNil {
        continue;
      }
      var taxOrdinary := Lookup(m, c, TaxExpenseOnOrdinaryActivitiesQn);
      if taxOrdinary.Some? && !taxOrdinary.value.isNil {
        continue;
      }
      r := r + [Diagnostic("DBA.FR41", Warning, [profitLoss.value])];
    }
    assert keys[..|keys|] == keys;
  }

  /** Reference reading of FR41 for one context, on the facts themselves:
      the last profit/loss fact of the context is not a valid amount of at
      most DKK 1000, and the last fact of each tax concept in the context is
      missing or nil. */
  predicate Fr41FiresFor(facts: seq<Fact>, c: string) {
    var profitLoss := LastFactOf(facts, c, ProfitLossQn);
    var tax := LastFactOf(facts, c, TaxExpenseQn);
    var taxOrdinary := LastFactOf(facts, c, TaxExpenseOnOrdinaryActivitiesQn);
    && profitLoss.Some?
    && !(profitLoss.value.valid && Amount(profitLoss.value) <= PositiveProfitThreshold)
    && (tax.None? || tax.value.isNil)
    && (taxOrdinary.None? || taxOrdinary.value.isNil)
  }

  /** FR41 warns exactly for the current and previous contexts that fire,
      each time pointing at the context's last profit/loss fact. */
  lemma Fr41Meaning(facts: seq<Fact>, contexts: seq<Context>, d: Diagnostic)
    ensures d in Fr41Result(facts, contexts) <==>
              exists c :: c in CurrentAndPreviousIds(contexts) && Fr41FiresFor(facts, c)
                          && d == Diagnostic("DBA.FR41", Warning, [LastFactOf(facts, c, ProfitLossQn).value])
  {
    var m := ContextFactMapOf(facts);
    var ids := CurrentAndPreviousIds(contexts);
    var keys := KeysIn(KeyOrder(facts, ContextIdOf), ids);
    forall c ensures Fr41Fires(m, c) == Fr41FiresFor(facts, c)
                     && Lookup(m, c, ProfitLossQn) == LastFactOf(facts, c, ProfitLossQn) {
      ContextFactMapHoldsLastFact(facts, c, ProfitLossQn);
      ContextFactMapHoldsLastFact(facts, c, TaxExpenseQn);
      ContextFactMapHoldsLastFact(facts, c, TaxExpenseOnOrdinaryActivitiesQn);
    }
    if exists c :: c in ids && Fr41FiresFor(facts, c)
                   && d == Diagnostic("DBA.FR41", Warning, [LastFactOf(facts, c, ProfitLossQn).value]) {
      var c :| c in ids && Fr41FiresFor(facts, c)
               && d == Diagnostic("DBA.FR41", Warning, [LastFactOf(facts, c, ProfitLossQn).value]);
      var f := LastFactOf(facts, c, ProfitLossQn).value;
      assert f in facts && f.contextId == c;
      assert c in KeyOrder(facts, ContextIdOf);
      assert c in keys;
    }
  }

  /** FR41 warns at most twice: once per context, for at most two contexts. */
  lemma Fr41AtMostTwo(facts: seq<Fact>, contexts: seq<Context>)
    ensures |Fr41Result(facts, contexts)| <= 2
  {
    var ids := CurrentAndPreviousIds(contexts);
    var keys := KeysIn(KeyOrder(facts, ContextIdOf), ids);
    CurrentAndPreviousAreLatest(contexts);
    NoDuplicatesLength(keys, ids);
  }

  // ---- FR56 ----

  /** A profit or loss beyond the threshold either way. */
  predicate OutsideThreshold(f: Fact) {
    f.valid && !(-PositiveProfitThreshold <= Amount(f) <= PositiveProfitThreshold)
  }

  /** The first valid profit/loss fact beyond the threshold, searched from
      the front. */
  function FirstOutside(fs: seq<Fact>): (r: Option<Fact>)
    ensures r.None? <==> forall f :: f in fs ==> !OutsideThreshold(f)
    ensures r.Some? ==> r.value in fs && OutsideThreshold(r.value)
  {
    if fs == [] then None
    else
      assert forall f :: f in fs <==> f == fs[0] || f in fs[1..];
      if OutsideThreshold(fs[0]) then Some(fs[0]) else FirstOutside(fs[1..])
  }

  /** No fact before the one found is beyond the threshold. */
  lemma {:induction false} FirstOutsideIsFirst(fs: seq<Fact>)
    requires FirstOutside(fs).Some?
    ensures exists i :: 0 <= i < |fs| && fs[i] == FirstOutside(fs).value
                        && forall j :: 0 <= j < i ==> !OutsideThreshold(fs[j])
  {
    if !OutsideThreshold(fs[0]) {
      FirstOutsideIsFirst(fs[1..]);
      var i :| 0 <= i < |fs[1..]| && fs[1..][i] == FirstOutside(fs[1..]).value
               && forall j :: 0 <= j < i ==> !OutsideThreshold(fs[1..][j]);
      assert fs[i + 1] == fs[1..][i];
      forall j | 0 <= j < i + 1 ensures !OutsideThreshold(fs[j]) {
        if j > 0 {
          assert fs[j] == fs[1..][j - 1];
        }
      }
    } else {
      assert fs[0] == FirstOutside(fs).value;
    }
  }

  /** The search loop of FR56, left with `break` at the first hit. */
  method FirstOutsideThreshold(fs: seq<Fact>) returns (r: Option<Fact>)
    ensures r == FirstOutside(fs)
  {
    r := None;
    for i := 0 to |fs|
      invariant FirstOutside(fs[i..]) == FirstOutside(fs)
    {
      assert fs[i..][1..] == fs[i + 1..];
      if fs[i].valid && !(-PositiveProfitThreshold <= Amount(fs[i]) <= PositiveProfitThreshold) {
        r := Some(fs[i]);
        break;
      }
    }
    if r.None? {
      assert FirstOutside(fs[|fs|..]) == None;
    }
  }

  /** Some distribution fact is not nil. */
  predicate HasNonNil(fs: seq<Fact>) {
    exists f :: f in fs && !f.isNil
  }

  /** The flag loop of FR56 over the distribution facts of a context. */
  method AnyNonNil(fs: seq<Fact>) returns (valid: bool)
    ensures valid == HasNonNil(fs)
  {
    valid := false;
    for i := 0 to |fs|
      invariant forall j :: 0 <= j < i ==> fs[j].isNil
    {
      if !fs[i].isNil {
        valid := true;
        break;
      }
    }
  }

  /** Whether FR56 warns for context `c`, and about which fact. */
  function Fr56For(facts: seq<Fact>, ids: set<string>, distributionQns: seq<QName>, c: string): Option<Fact> {
    var profitLoss := FirstOutside(ContextGroup(facts, [ProfitLossQn], c));
    if c in ids && profitLoss.Some? && !HasNonNil(ContextGroup(facts, distributionQns, c))
    then profitLoss else None
  }

  /** FR56's warnings over the contexts of the profit/loss facts, in order. */
  function Fr56Over(keys: seq<string>, facts: seq<Fact>, ids: set<string>, distributionQns: seq<QName>)
    : seq<Diagnostic>
  {
    if keys == [] then []
    else
      var c := keys[|keys| - 1];
      var hit := Fr56For(facts, ids, distributionQns, c);
      Fr56Over(keys[..|keys| - 1], facts, ids, distributionQns)
        + (if hit.Some? then [Diagnostic("DBA.FR56", Warning, [hit.value])] else [])
  }

  /** A context's warning is among FR56's warnings exactly when the context
      is among the keys and warns. */
  lemma {:induction false} Fr56OverMembership(keys: seq<string>, facts: seq<Fact>, ids: set<string>,
                                              distributionQns: seq<QName>, d: Diagnostic)
    ensures d in Fr56Over(keys, facts, ids, distributionQns) <==>
              exists c :: c in keys && Fr56For(facts, ids, distributionQns, c).Some?
                          && d == Diagnostic("DBA.FR56", Warning, [Fr56For(facts, ids, distributionQns, c).value])
  {
    if keys != [] {
      var c := keys[|keys| - 1];
      var init := keys[..|keys| - 1];
      assert forall k :: k in keys <==> k in init || k == c;
      Fr56OverMembership(init, facts, ids, distributionQns, d);
    }
  }

  /** What FR56 reports for an instance. */
  function Fr56Result(facts: seq<Fact>, contexts: seq<Context>, settings: Settings): seq<Diagnostic> {
    Fr56Over(GroupedContextIds(facts, [ProfitLossQn]), facts, CurrentAndPreviousIds(contexts),
             settings.distributionOfResultsQns)
  }

  /** The profit/loss facts FR56 casts are numbers: in a current or previous
      context, each valid one up to and including the first outside the
      threshold, where the search stops. */
  ghost predicate Fr56CastsNumbers(facts: seq<Fact>, contexts: seq<Context>) {
    forall i :: 0 <= i < |facts| && facts[i].qname == ProfitLossQn && facts[i].valid
                && facts[i].contextId in CurrentAndPreviousIds(contexts)
                && FirstOutside(ContextGroup(facts[..i], [ProfitLossQn], facts[i].contextId)).None?
                ==> facts[i].value.Num?
  }

  /** FR56 as the source runs it, on the plugin object. */
  method Fr56(p: PluginValidationDataExtension, facts: seq<Fact>, contexts: seq<Context>, settings: Settings)
    returns (r: seq<Diagnostic>)
    requires CachesOf(p, facts, contexts)
    requires Fr56CastsNumbers(facts, contexts)
    modifies p
    ensures CachesOf(p, facts, contexts)
    ensures p.reportingPeriodContextsCache.Some?
    ensures p.contextFactMapCache == old(p.contextFactMapCache)
    ensures r == Fr56Result(facts, contexts, settings)
  {
    var current := p.GetCurrentAndPreviousReportingPeriodContexts(contexts);
    var ids := set c | c in current :: c.id;
    r := Fr56Loop(facts, ids, settings.distributionOfResultsQns, GroupedContextIds(facts, [ProfitLossQn]));
  }

  /** FR56's loop over the contexts of the profit/loss facts. */
  method Fr56Loop(facts: seq<Fact>, ids: set<string>, distributionQns: seq<QName>, keys: seq<string>)
    returns (r: seq<Diagnostic>)
    ensures r == Fr56Over(keys, facts, ids, distributionQns)
  {
    r := [];
    for i := 0 to |keys|
      invariant r == Fr56Over(keys[..i], facts, ids, distributionQns)
    {
      assert keys[..i + 1][..i] == keys[..i];
      var hit := Fr56Context(facts, ids, distributionQns, keys[i]);
      if hit.Some? {
        r := r + [Diagnostic("DBA.FR56", Warning, [hit.value])];
      }
    }
    assert keys[..|keys|] == keys;
  }

  /** The body of FR56's loop for one context: skip a context outside the
      current and previous ones, look for a profit/loss fact beyond the
      threshold, and report it when no distribution fact is non-nil. */
  method Fr56Context(facts: seq<Fact>, ids: set<string>, distributionQns: seq<QName>, c: string)
    returns (hit: Option<Fact>)
    ensures hit == Fr56For(facts, ids, distributionQns, c)
  {
    hit := None;
    if c !in ids {
      return;
    }
    var profitLoss := FirstOutsideThreshold(ContextGroup(facts, [ProfitLossQn], c));
    if profitLoss.None? {
      return;
    }
    var valid := AnyNonNil(ContextGroup(facts, distributionQns, c));
    if !valid {
      hit := profitLoss;
    }
  }

  /** Reference reading of FR56 for one context, on the facts themselves: it
      is a current or previous context, some valid profit/loss fact of it is
      beyond DKK 1000 either way, and every distribution fact of it is nil. */
  predicate Fr56WarnsFor(facts: seq<Fact>, ids: set<string>, distributionQns: seq<QName>, c: string) {
    && c in ids
    && (exists f :: f in facts && f.qname == ProfitLossQn && f.contextId == c && OutsideThreshold(f))
    && (forall g :: g in facts && g.qname in distributionQns && g.contextId == c ==> g.isNil)
  }

  lemma Fr56ForMeaning(facts: seq<Fact>, ids: set<string>, distributionQns: seq<QName>, c: string)
    ensures Fr56For(facts, ids, distributionQns, c).Some? <==> Fr56WarnsFor(facts, ids, distributionQns, c)
    ensures Fr56For(facts, ids, distributionQns, c).Some? ==>
              Fr56For(facts, ids, distributionQns, c) == FirstOutside(ContextGroup(facts, [ProfitLossQn], c))
  {
    var group := ContextGroup(facts, [ProfitLossQn], c);
    if exists f :: f in facts && f.qname == ProfitLossQn && f.contextId == c && OutsideThreshold(f) {
      var f :| f in facts && f.qname == ProfitLossQn && f.contextId == c && OutsideThreshold(f);
      assert f in group;
    }
    var distribution := ContextGroup(facts, distributionQns, c);
    if HasNonNil(distribution) {
      var g :| g in distribution && !g.isNil;
    }
  }

  /** Every FR56 warning comes from a context the reference reading picks out. */
  lemma Fr56Sound(facts: seq<Fact>, contexts: seq<Context>, settings: Settings, d: Diagnostic)
    requires d in Fr56Result(facts, contexts, settings)
    ensures exists c :: Fr56WarnsFor(facts, CurrentAndPreviousIds(contexts), settings.distributionOfResultsQns, c)
                        && d == Diagnostic("DBA.FR56", Warning,
                                           [FirstOutside(ContextGroup(facts, [ProfitLossQn], c)).value])
  {
    var ids := CurrentAndPreviousIds(contexts);
    var qns := settings.distributionOfResultsQns;
    var keys := GroupedContextIds(facts, [ProfitLossQn]);
    Fr56OverMembership(keys, facts, ids, qns, d);
    var c :| c in keys && Fr56For(facts, ids, qns, c).Some?
             && d == Diagnostic("DBA.FR56", Warning, [Fr56For(facts, ids, qns, c).value]);
    Fr56ForMeaning(facts, ids, qns, c);
  }

  /** Every context the reference reading picks out gets its FR56 warning. */
  lemma Fr56Complete(facts: seq<Fact>, contexts: seq<Context>, settings: Settings, c: string)
    requires Fr56WarnsFor(facts, CurrentAndPreviousIds(contexts), settings.distributionOfResultsQns, c)
    ensures Diagnostic("DBA.FR56", Warning, [FirstOutside(ContextGroup(facts, [ProfitLossQn], c)).value])
            in Fr56Result(facts, contexts, settings)
  {
    var ids := CurrentAndPreviousIds(contexts);
    var qns := settings.distributionOfResultsQns;
    var keys := GroupedContextIds(facts, [ProfitLossQn]);
    Fr56ForMeaning(facts, ids, qns, c);
    var f :| f in facts && f.qname == ProfitLossQn && f.contextId == c && OutsideThreshold(f);
    assert c in keys;
    var d := Diagnostic("DBA.FR56", Warning, [FirstOutside(ContextGroup(facts, [ProfitLossQn], c)).value]);
    Fr56OverMembership(keys, facts, ids, qns, d);
  }

  /** FR56 warns exactly for the current and previous contexts that the
      reference reading picks out, pointing at the first valid profit/loss
      fact of the context beyond the threshold. */
  lemma Fr56Meaning(facts: seq<Fact>, contexts: seq<Context>, settings: Settings, d: Diagnostic)
    ensures d in Fr56Result(facts, contexts, settings) <==>
              exists c :: Fr56WarnsFor(facts, CurrentAndPreviousIds(contexts), settings.distributionOfResultsQns, c)
                          && d == Diagnostic("DBA.FR56", Warning,
                                             [FirstOutside(ContextGroup(facts, [ProfitLossQn], c)).value])
  {
    if d in Fr56Result(facts, contexts, settings) {
      Fr56Sound(facts, contexts, settings, d);
    }
    if exists c :: Fr56WarnsFor(facts, CurrentAndPreviousIds(contexts), settings.distributionOfResultsQns, c)
                   && d == Diagnostic("DBA.FR56", Warning, [FirstOutside(ContextGroup(facts, [ProfitLossQn], c)).value]) {
      var c :| Fr56WarnsFor(facts, CurrentAndPreviousIds(contexts), settings.distributionOfResultsQns, c)
               && d == Diagnostic("DBA.FR56", Warning, [FirstOutside(ContextGroup(facts, [ProfitLossQn], c)).value]);
      Fr56Complete(facts, contexts, settings, c);
    }
  }
}
