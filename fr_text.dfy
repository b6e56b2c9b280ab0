/** The DBA filing rules that look for forbidden wording in the description
    of an auditor's qualifications: FR36 and FR37 always, FR24 and FR25 only
    when the type of the auditor's assistance has given values.

    Every valid description fact is checked against every forbidden text;
    each text it contains draws one error pointing at the fact. */
module FrText {
  import opened Seqs
  import opened Xbrl
  import opened DbaData

  /** Python's `text in s` on strings: `text` occurs in `s` at some offset. */
  predicate ContainsText(text: string, s: string) {
    exists i :: 0 <= i <= |s| && text <= s[i..]
  }

  /** `str(fact.xValue)`. A string is itself and a missing value prints as
      "None"; the printed form of a decimal is not modelled (description
      concepts carry strings). */
  function ValueText(v: Value): string {
    match v
    case Str(s) => s
    case NoValue => "None"
    case Num(_) => ""
  }

  /** The description fact contains one of the forbidden texts. */
  predicate HasForbiddenText(f: Fact, texts: seq<string>) {
    exists t :: t in texts && ContainsText(t, ValueText(f.value))
  }

  /** The forbidden texts that occur in `s`, in their order:
      `[t for t in texts if t in s]`. */
  function FoundTexts(texts: seq<string>, s: string): seq<string> {
    if texts == [] then []
    else
      var last := texts[|texts| - 1];
      FoundTexts(texts[..|texts| - 1], s) + (if ContainsText(last, s) then [last] else [])
  }

  /** The filter keeps exactly the texts that occur in `s`. */
  lemma {:induction false} FoundTextsMeaning(texts: seq<string>, s: string)
    ensures forall t :: t in FoundTexts(texts, s) <==> t in texts && ContainsText(t, s)
  {
    if texts != [] {
      var init, last := texts[..|texts| - 1], texts[|texts| - 1];
      FoundTextsMeaning(init, s);
      assert forall t :: t in texts <==> t in init || t == last;
    }
  }

  /** The errors for one description fact: one per forbidden text it
      contains, in the order of the texts. */
  function TextHits(f: Fact, texts: seq<string>, code: string): (r: seq<Diagnostic>)
    ensures |r| <= |texts|
    ensures |r| == |FoundTexts(texts, ValueText(f.value))|
    ensures r != [] <==> HasForbiddenText(f, texts)
    ensures forall d :: d in r ==> d == Diagnostic(code, Error, [f])
  {
    if texts == [] then []
    else
      var last := texts[|texts| - 1];
      assert forall t :: t in texts <==> t in texts[..|texts| - 1] || t == last;
      TextHits(f, texts[..|texts| - 1], code)
        + (if ContainsText(last, ValueText(f.value)) then [Diagnostic(code, Error, [f])] else [])
  }

  /** The errors for a list of description facts, in order; invalid facts
      are skipped. */
  function DescriptionHits(descriptions: seq<Fact>, texts: seq<string>, code: string): (r: seq<Diagnostic>)
    ensures forall d :: d in r <==> exists f :: f in descriptions && f.valid && HasForbiddenText(f, texts)
                                               && d == Diagnostic(code, Error, [f])
  {
    if descriptions == [] then []
    else
      var last := descriptions[|descriptions| - 1];
      var init := descriptions[..|descriptions| - 1];
      assert forall f :: f in descriptions <==> f in init || f == last;
      var hits := if last.valid then TextHits(last, texts, code) else [];
      assert forall d :: d in hits <==> last.valid && HasForbiddenText(last, texts) && d == Diagnostic(code, Error, [last]) by {
        if last.valid && HasForbiddenText(last, texts) {
          assert hits[0] in hits;
        }
      }
      DescriptionHits(init, texts, code) + hits
  }

  /** A description fact draws as many errors as it contains forbidden
      texts, and no fact draws another fact's error. */
  lemma {:induction false} TextHitsCount(g: Fact, f: Fact, texts: seq<string>, code: string)
    ensures multiset(TextHits(g, texts, code))[Diagnostic(code, Error, [f])]
            == if g == f then |FoundTexts(texts, ValueText(f.value))| else 0
  {
    if texts != [] {
      TextHitsCount(g, f, texts[..|texts| - 1], code);
    }
  }

  /** Over a list of description facts, the errors pointing at `f` number
      the forbidden texts `f` contains, once for every time `f` occurs in the
      list, and none when `f` is invalid. */
  lemma {:induction false} DescriptionHitsCount(descriptions: seq<Fact>, texts: seq<string>, code: string, f: Fact)
    ensures multiset(DescriptionHits(descriptions, texts, code))[Diagnostic(code, Error, [f])]
            == if f.valid then |FoundTexts(texts, ValueText(f.value))| * multiset(descriptions)[f] else 0
  {
    if descriptions != [] {
      var init, last := descriptions[..|descriptions| - 1], descriptions[|descriptions| - 1];
      var x := Diagnostic(code, Error, [f]);
      var n := |FoundTexts(texts, ValueText(f.value))|;
      DescriptionHitsCount(init, texts, code, f);
      DescriptionHitsLastCount(descriptions, texts, code, f);
      MultisetLastCount(descriptions, f);
      if f.valid {
        ScaledCountStep(multiset(DescriptionHits(descriptions, texts, code))[x],
                        multiset(DescriptionHits(init, texts, code))[x],
                        multiset(descriptions)[f], multiset(init)[f], n, last == f);
      }
    }
  }

  /** The errors the last description fact adds for `f`. */
  lemma DescriptionHitsLastCount(descriptions: seq<Fact>, texts: seq<string>, code: string, f: Fact)
    requires descriptions != []
    ensures var last := descriptions[|descriptions| - 1];
            multiset(DescriptionHits(descriptions, texts, code))[Diagnostic(code, Error, [f])]
            == multiset(DescriptionHits(descriptions[..|descriptions| - 1], texts, code))[Diagnostic(code, Error, [f])]
               + if last.valid && last == f then |FoundTexts(texts, ValueText(f.value))| else 0
  {
    var last := descriptions[|descriptions| - 1];
    if last.valid {
      TextHitsCount(last, f, texts, code);
    }
  }

  /** The scan shared by the four rules: every valid fact of `descriptionQn`
      against every forbidden text. */
  method ScanDescriptions(facts: seq<Fact>, descriptionQn: QName, texts: seq<string>, code: string)
    returns (r: seq<Diagnostic>)
    ensures r == DescriptionHits(FactsOf(facts, descriptionQn), texts, code)
  {
    var descriptions := FactsOf(facts, descriptionQn);
    r := [];
    for i := 0 to |descriptions|
      invariant r == DescriptionHits(descriptions[..i], texts, code)
    {
      assert descriptions[..i + 1][..i] == descriptions[..i];
      var f := descriptions[i];
      if f.valid {
        r := ScanTexts(f, texts, code, r);
      }
    }
    assert descriptions[..|descriptions|] == descriptions;
  }

  /** The inner loop of the scan: one error per forbidden text the fact
      contains, appended to the diagnostics so far. */
  method ScanTexts(f: Fact, texts: seq<string>, code: string, before: seq<Diagnostic>)
    returns (r: seq<Diagnostic>)
    ensures r == before + TextHits(f, texts, code)
  {
    r := before;
    for k := 0 to |texts|
      invariant r == before + TextHits(f, texts[..k], code)
    {
      TextHitsStep(f, texts, k, code);
      if ContainsText(texts[k], ValueText(f.value)) {
        r := r + [Diagnostic(code, Error, [f])];
      }
    }
    assert texts[..|texts|] == texts;
  }

  /** One more forbidden text adds its error when the fact contains it. */
  lemma TextHitsStep(f: Fact, texts: seq<string>, k: nat, code: string)
    requires k < |texts|
    ensures TextHits(f, texts[..k + 1], code)
            == TextHits(f, texts[..k], code)
               + if ContainsText(texts[k], ValueText(f.value)) then [Diagnostic(code, Error, [f])] else []
  {
    assert texts[..k + 1][..k] == texts[..k];
  }

  /** FR36: the description of the qualifications of reviewed statements
      must not contain the forbidden texts. */
  method Fr36(facts: seq<Fact>, settings: Settings) returns (r: seq<Diagnostic>)
    ensures forall d :: d in r <==>
              exists f :: f in facts && f.qname == DescriptionsOfQualificationsOfReviewedFinancialStatementsQn
                          && f.valid && HasForbiddenText(f, settings.hasNotGivenRiseToReservationsText)
                          && d == Diagnostic("DBA.FR36", Error, [f])
    ensures r == DescriptionHits(FactsOf(facts, DescriptionsOfQualificationsOfReviewedFinancialStatementsQn),
                                 settings.hasNotGivenRiseToReservationsText, "DBA.FR36")
  {
    r := ScanDescriptions(facts, DescriptionsOfQualificationsOfReviewedFinancialStatementsQn,
                          settings.hasNotGivenRiseToReservationsText, "DBA.FR36");
  }

  /** FR37: the description of the qualifications of the assurance
      engagement must not contain the forbidden texts. */
  method Fr37(facts: seq<Fact>, settings: Settings) returns (r: seq<Diagnostic>)
    ensures forall d :: d in r <==>
              exists f :: f in facts && f.qname == DescriptionOfQualificationsOfAssuranceEngagementPerformedQn
                          && f.valid && HasForbiddenText(f, settings.hasNotGivenRiseToReservationsText)
                          && d == Diagnostic("DBA.FR37", Error, [f])
    ensures r == DescriptionHits(FactsOf(facts, DescriptionOfQualificationsOfAssuranceEngagementPerformedQn),
                                 settings.hasNotGivenRiseToReservationsText, "DBA.FR37")
  {
    r := ScanDescriptions(facts, DescriptionOfQualificationsOfAssuranceEngagementPerformedQn,
                          settings.hasNotGivenRiseToReservationsText, "DBA.FR37");
  }

  /** `s` written `n` times in a row. */
  function Repeat<T>(s: seq<T>, n: nat): seq<T> {
    if n == 0 then [] else Repeat(s, n - 1) + s
  }

  /** Each element occurs `n` times as often in `n` copies of `s`. */
  lemma {:induction false} RepeatCount<T>(s: seq<T>, n: nat, x: T)
    ensures multiset(Repeat(s, n))[x] == multiset(s)[x] * n
  {
    if n > 0 {
      RepeatCount(s, n - 1, x);
      assert multiset(Repeat(s, n)) == multiset(Repeat(s, n - 1)) + multiset(s);
      ScaledCountStep(multiset(Repeat(s, n))[x], multiset(Repeat(s, n - 1))[x], n, n - 1, multiset(s)[x], true);
    }
  }

  /** `n` copies of `s` are `n` times as long as `s` and hold exactly its
      elements, none when `n` is zero. */
  lemma {:induction false} RepeatMeaning<T>(s: seq<T>, n: nat)
    ensures |Repeat(s, n)| == n * |s|
    ensures forall x :: x in Repeat(s, n) <==> n > 0 && x in s
  {
    if n > 0 {
      RepeatMeaning(s, n - 1);
      assert (n - 1) * |s| + |s| == n * |s|;
    }
  }

  /** An assistance fact that declares the kind of assistance the rule is
      about: valid, with the Danish or the English wording. */
  predicate Qualifies(a: Fact, danish: string, english: string) {
    a.valid && (a.value == Str(danish) || a.value == Str(english))
  }

  /** The qualifying assistance facts, in document order. */
  function AssistanceFactsWith(assistance: seq<Fact>, danish: string, english: string): (r: seq<Fact>)
    ensures forall a :: a in r <==> a in assistance && Qualifies(a, danish, english)
  {
    if assistance == [] then []
    else
      var last := assistance[|assistance| - 1];
      assert forall a :: a in assistance <==> a in assistance[..|assistance| - 1] || a == last;
      AssistanceFactsWith(assistance[..|assistance| - 1], danish, english)
        + (if Qualifies(last, danish, english) then [last] else [])
  }

  /** The loop shared by FR24 and FR25: for every valid assistance fact with
      one of the two values, the whole scan of the description facts is
      repeated, so each (assistance fact, description fact, contained text)
      triple draws one error. */
  method ForbiddenTextWhenAssisted(facts: seq<Fact>, danish: string, english: string,
                                   descriptionQn: QName, texts: seq<string>, code: string)
    returns (r: seq<Diagnostic>)
    ensures r == Repeat(DescriptionHits(FactsOf(facts, descriptionQn), texts, code),
                        |AssistanceFactsWith(FactsOf(facts, TypeOfAuditorAssistanceQn), danish, english)|)
  {
    var assistance := FactsOf(facts, TypeOfAuditorAssistanceQn);
    ghost var n := 0;
    r := [];
    for i := 0 to |assistance|
      invariant n == |AssistanceFactsWith(assistance[..i], danish, english)|
      invariant r == Repeat(DescriptionHits(FactsOf(facts, descriptionQn), texts, code), n)
    {
      AssistanceFactsWithStep(assistance, i, danish, english);
      var a := assistance[i];
      if a.valid && (a.value == Str(danish) || a.value == Str(english)) {
        r := ScanAgain(facts, descriptionQn, texts, code, r, n);
        n := n + 1;
      }
    }
    assert assistance[..|assistance|] == assistance;
  }

  /** One more pass of the inner scan, appended to the diagnostics so far. */
  method ScanAgain(facts: seq<Fact>, descriptionQn: QName, texts: seq<string>, code: string,
                   r: seq<Diagnostic>, ghost n: nat)
    returns (r': seq<Diagnostic>)
    requires r == Repeat(DescriptionHits(FactsOf(facts, descriptionQn), texts, code), n)
    ensures r' == Repeat(DescriptionHits(FactsOf(facts, descriptionQn), texts, code), n + 1)
  {
    var hits := ScanDescriptions(facts, descriptionQn, texts, code);
    r' := r + hits;
  }

  /** One more assistance fact adds one to the count when it qualifies. */
  lemma AssistanceFactsWithStep(assistance: seq<Fact>, i: nat, danish: string, english: string)
    requires i < |assistance|
    ensures |AssistanceFactsWith(assistance[..i + 1], danish, english)|
            == |AssistanceFactsWith(assistance[..i], danish, english)|
               + if Qualifies(assistance[i], danish, english) then 1 else 0
  {
    assert assistance[..i + 1][..i] == assistance[..i];
  }

  /** The errors the nested loops yield for one description fact `f`: one
      for each qualifying assistance fact, each occurrence of `f` and each
      forbidden text `f` contains; none when `f` is invalid. */
  lemma AssistedHitsCount(facts: seq<Fact>, danish: string, english: string,
                          descriptionQn: QName, texts: seq<string>, code: string, f: Fact)
    ensures var descriptions := FactsOf(facts, descriptionQn);
            var n := |AssistanceFactsWith(FactsOf(facts, TypeOfAuditorAssistanceQn), danish, english)|;
            multiset(Repeat(DescriptionHits(descriptions, texts, code), n))[Diagnostic(code, Error, [f])]
            == if f.valid then |FoundTexts(texts, ValueText(f.value))| * multiset(descriptions)[f] * n else 0
  {
    var descriptions := FactsOf(facts, descriptionQn);
    var n := |AssistanceFactsWith(FactsOf(facts, TypeOfAuditorAssistanceQn), danish, english)|;
    RepeatCount(DescriptionHits(descriptions, texts, code), n, Diagnostic(code, Error, [f]));
    DescriptionHitsCount(descriptions, texts, code, f);
  }

  /** FR24: with audited financial statements, the description of their
      qualifications must not contain the forbidden texts. */
  method Fr24(facts: seq<Fact>, settings: Settings) returns (r: seq<Diagnostic>)
    ensures var qualifying := AssistanceFactsWith(FactsOf(facts, TypeOfAuditorAssistanceQn),
                                                  settings.auditedFinancialStatementsDanish,
                                                  settings.auditedFinancialStatementsEnglish);
            var hits := DescriptionHits(FactsOf(facts, DescriptionOfQualificationsOfAuditedFinancialStatementsQn),
                                        settings.hasNotGivenRiseToReservationsText, "DBA.FR24");
            |r| == |qualifying| * |hits|
    ensures r == Repeat(DescriptionHits(FactsOf(facts, DescriptionOfQualificationsOfAuditedFinancialStatementsQn),
                                        settings.hasNotGivenRiseToReservationsText, "DBA.FR24"),
                        |AssistanceFactsWith(FactsOf(facts, TypeOfAuditorAssistanceQn),
                                             settings.auditedFinancialStatementsDanish, settings.auditedFinancialStatementsEnglish)|)
    ensures forall d :: d in r <==>
              (exists a :: a in facts && a.qname == TypeOfAuditorAssistanceQn && a.valid
                           && (a.value == Str(settings.auditedFinancialStatementsDanish)
                               || a.value == Str(settings.auditedFinancialStatementsEnglish)))
              && exists f :: f in facts && f.qname == DescriptionOfQualificationsOfAuditedFinancialStatementsQn
                             && f.valid && HasForbiddenText(f, settings.hasNotGivenRiseToReservationsText)
                             && d == Diagnostic("DBA.FR24", Error, [f])
  {
    r := ForbiddenTextWhenAssisted(facts, settings.auditedFinancialStatementsDanish,
                                   settings.auditedFinancialStatementsEnglish,
                                   DescriptionOfQualificationsOfAuditedFinancialStatementsQn,
                                   settings.hasNotGivenRiseToReservationsText, "DBA.FR24");
    AssistedMeaning(facts, settings.auditedFinancialStatementsDanish, settings.auditedFinancialStatementsEnglish);
    RepeatMeaning(DescriptionHits(FactsOf(facts, DescriptionOfQualificationsOfAuditedFinancialStatementsQn),
                                  settings.hasNotGivenRiseToReservationsText, "DBA.FR24"),
                  |AssistanceFactsWith(FactsOf(facts, TypeOfAuditorAssistanceQn),
                                       settings.auditedFinancialStatementsDanish, settings.auditedFinancialStatementsEnglish)|);
  }

  /** FR25: with an extended review, the description of its qualifications
      must not contain the forbidden texts. */
  method Fr25(facts: seq<Fact>, settings: Settings) returns (r: seq<Diagnostic>)
    ensures var qualifying := AssistanceFactsWith(FactsOf(facts, TypeOfAuditorAssistanceQn),
                                                  settings.auditedExtendedReviewDanish,
                                                  settings.auditedExtendedReviewEnglish);
            var hits := DescriptionHits(FactsOf(facts, DescriptionOfQualificationsOfFinancialStatementsExtendedReviewQn),
                                        settings.hasNotGivenRiseToReservationsText, "DBA.FR25");
            |r| == |qualifying| * |hits|
    ensures r == Repeat(DescriptionHits(FactsOf(facts, DescriptionOfQualificationsOfFinancialStatementsExtendedReviewQn),
                                        settings.hasNotGivenRiseToReservationsText, "DBA.FR25"),
                        |AssistanceFactsWith(FactsOf(facts, TypeOfAuditorAssistanceQn),
                                             settings.auditedExtendedReviewDanish, settings.auditedExtendedReviewEnglish)|)
    ensures forall d :: d in r <==>
              (exists a :: a in facts && a.qname == TypeOfAuditorAssistanceQn && a.valid
                           && (a.value == Str(settings.auditedExtendedReviewDanish)
                               || a.value == Str(settings.auditedExtendedReviewEnglish)))
              && exists f :: f in facts && f.qname == DescriptionOfQualificationsOfFinancialStatementsExtendedReviewQn
                             && f.valid && HasForbiddenText(f, settings.hasNotGivenRiseToReservationsText)
                             && d == Diagnostic("DBA.FR25", Error, [f])
  {
    r := ForbiddenTextWhenAssisted(facts, settings.auditedExtendedReviewDanish,
                                   settings.auditedExtendedReviewEnglish,
                                   DescriptionOfQualificationsOfFinancialStatementsExtendedReviewQn,
                                   settings.hasNotGivenRiseToReservationsText, "DBA.FR25");
    AssistedMeaning(facts, settings.auditedExtendedReviewDanish, settings.auditedExtendedReviewEnglish);
    RepeatMeaning(DescriptionHits(FactsOf(facts, DescriptionOfQualificationsOfFinancialStatementsExtendedReviewQn),
                                  settings.hasNotGivenRiseToReservationsText, "DBA.FR25"),
                  |AssistanceFactsWith(FactsOf(facts, TypeOfAuditorAssistanceQn),
                                       settings.auditedExtendedReviewDanish, settings.auditedExtendedReviewEnglish)|);
  }

  /** Some assistance fact qualifies exactly when the filtered list is not
      empty. */
  lemma AssistedMeaning(facts: seq<Fact>, danish: string, english: string)
    ensures |AssistanceFactsWith(FactsOf(facts, TypeOfAuditorAssistanceQn), danish, english)| > 0
            <==> exists a :: a in facts && a.qname == TypeOfAuditorAssistanceQn && a.valid
                             && (a.value == Str(danish) || a.value == Str(english))
  {
    var qualifying := AssistanceFactsWith(FactsOf(facts, TypeOfAuditorAssistanceQn), danish, english);
    if |qualifying| > 0 {
      assert qualifying[0] in qualifying;
    }
  }
}
