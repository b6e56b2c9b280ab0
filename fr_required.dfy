/** The DBA filing rules that ask for the presence of facts: a concept that
    must accompany another (FR1, FR53, FR58, FR72, FR73, FR92), one of a list
    of concepts that must be tagged with a valid, non-nil fact (FR20, FR35),
    concepts that must not be used (FR48, FR52), and the language indication
    (FR81).

    A rule produces its diagnostics as a list, in the order the source
    yields them. */
module FrRequired {
  import opened Seqs
  import opened Xbrl
  import opened DbaData

  /** FR1: a general meeting date without the chairman's name. */
  function Fr1(facts: seq<Fact>): (r: seq<Diagnostic>)
    ensures r != [] <==> FactsOf(facts, DateOfGeneralMeetingQn) != []
                         && FactsOf(facts, NameAndSurnameOfChairmanOfGeneralMeetingQn) == []
    ensures r != [] ==> r == [Diagnostic("DBA.FR1", Error, [])]
  {
    if HasFacts(facts, DateOfGeneralMeetingQn) && !HasFacts(facts, NameAndSurnameOfChairmanOfGeneralMeetingQn)
    then [Diagnostic("DBA.FR1", Error, [])]
    else []
  }

  /** Some fact of one of `qns` is valid and not nil. */
  predicate HasValidNonNilFact(facts: seq<Fact>, qns: seq<QName>) {
    exists f :: f in facts && f.qname in qns && f.valid && !f.isNil
  }

  /** The loop shared by FR20 and FR35: the first valid, non-nil fact of one
      of the concepts ends the rule without a message; when there is none,
      one error. */
  method RequireValidNonNilFact(facts: seq<Fact>, qns: seq<QName>, code: string)
    returns (r: seq<Diagnostic>)
    ensures r == if HasValidNonNilFact(facts, qns) then [] else [Diagnostic(code, Error, [])]
  {
    for i := 0 to |qns|
      invariant forall f :: f in facts && f.qname in qns[..i] ==> !(f.valid && !f.isNil)
    {
      var candidates := FactsOf(facts, qns[i]);
      for k := 0 to |candidates|
        invariant forall j :: 0 <= j < k ==> !(candidates[j].valid && !candidates[j].isNil)
      {
        var f := candidates[k];
        if f.valid && !f.isNil {
          assert f in facts && f.qname in qns;
          return [];
        }
      }
      assert qns[..i + 1] == qns[..i] + [qns[i]];
      forall f | f in facts && f.qname == qns[i] ensures !(f.valid && !f.isNil) {
        assert f in candidates;
      }
    }
    assert qns[..|qns|] == qns;
    r := [Diagnostic(code, Error, [])];
  }

  /** FR20: a management endorsement must be tagged. */
  method Fr20(facts: seq<Fact>, settings: Settings) returns (r: seq<Diagnostic>)
    ensures r == [] <==> exists f :: f in facts && f.qname in settings.managementEndorsementQns
                                     && f.valid && !f.isNil
    ensures r != [] ==> r == [Diagnostic("DBA.FR20", Error, [])]
  {
    r := RequireValidNonNilFact(facts, settings.managementEndorsementQns, "DBA.FR20");
  }

  /** FR35: a section on the applied accounting practices must be tagged. */
  method Fr35(facts: seq<Fact>, settings: Settings) returns (r: seq<Diagnostic>)
    ensures r == [] <==> exists f :: f in facts && f.qname in settings.accountingPolicyConceptQns
                                     && f.valid && !f.isNil
    ensures r != [] ==> r == [Diagnostic("DBA.FR35", Error, [])]
  {
    r := RequireValidNonNilFact(facts, settings.accountingPolicyConceptQns, "DBA.FR35");
  }

  /** The loop shared by FR58 and FR73: when the indicator concept is tagged,
      the first tagged concept of `qns` ends the rule; when none is, one
      warning. */
  method RequireOneTaggedWhenTagged(facts: seq<Fact>, indicatorQn: QName, qns: seq<QName>, code: string)
    returns (r: seq<Diagnostic>)
    ensures r == if HasFacts(facts, indicatorQn) && !HasFactsOfAny(facts, qns)
                 then [Diagnostic(code, Warning, [])] else []
  {
    if FactsOf(facts, indicatorQn) == [] {
      return [];
    }
    for i := 0 to |qns|
      invariant forall f :: f in facts ==> f.qname !in qns[..i]
    {
      if FactsOf(facts, qns[i]) != [] {
        assert FactsOf(facts, qns[i])[0] in facts;
        return [];
      }
      assert qns[..i + 1] == qns[..i] + [qns[i]];
    }
    assert qns[..|qns|] == qns;
    r := [Diagnostic(code, Warning, [])];
  }

  /** FR58: declaration obligations (audit) need one of their sub-items. */
  method Fr58(facts: seq<Fact>, settings: Settings) returns (r: seq<Diagnostic>)
    ensures r != [] <==> HasFacts(facts, ReportingResponsibilitiesOnApprovedAuditorsReportAuditQn)
                         && forall f :: f in facts ==> f.qname !in settings.declarationObligationQns
    ensures r != [] ==> r == [Diagnostic("DBA.FR58", Warning, [])]
  {
    r := RequireOneTaggedWhenTagged(facts, ReportingResponsibilitiesOnApprovedAuditorsReportAuditQn,
                                    settings.declarationObligationQns, "DBA.FR58");
  }

  /** FR73: reporting obligations (extended review) need one of their sub-items. */
  method Fr73(facts: seq<Fact>, settings: Settings) returns (r: seq<Diagnostic>)
    ensures r != [] <==> HasFacts(facts, ReportingResponsibilitiesOnApprovedAuditorsReportsExtendedReviewQn)
                         && forall f :: f in facts ==> f.qname !in settings.reportingObligationQns
    ensures r != [] ==> r == [Diagnostic("DBA.FR73", Warning, [])]
  {
    r := RequireOneTaggedWhenTagged(facts, ReportingResponsibilitiesOnApprovedAuditorsReportsExtendedReviewQn,
                                    settings.reportingObligationQns, "DBA.FR73");
  }

  /** FR48: the extraordinary-items concepts must not be used. The source
      collects one list of facts per concept that is used; the message points
      at all of them, concept by concept. */
  function Fr48(facts: seq<Fact>): (r: seq<Diagnostic>)
    ensures r != [] <==> HasFactsOfAny(facts, [ExtraordinaryCostsQn, ExtraordinaryIncomeQn, ExtraordinaryResultBeforeTaxQn])
    ensures r != [] ==> |r| == 1 && r[0].code == "DBA.FR48" && r[0].severity == Warning
                        && forall f :: f in r[0].facts <==>
                             f in facts && f.qname in [ExtraordinaryCostsQn, ExtraordinaryIncomeQn, ExtraordinaryResultBeforeTaxQn]
  {
    var found := FactsOf(facts, ExtraordinaryCostsQn) + FactsOf(facts, ExtraordinaryIncomeQn)
                 + FactsOf(facts, ExtraordinaryResultBeforeTaxQn);
    if found != [] then
      [Diagnostic("DBA.FR48", Warning, found)]
    else
      assert !HasFactsOfAny(facts, [ExtraordinaryCostsQn, ExtraordinaryIncomeQn, ExtraordinaryResultBeforeTaxQn]) by {
        forall f | f in facts
          ensures f.qname !in [ExtraordinaryCostsQn, ExtraordinaryIncomeQn, ExtraordinaryResultBeforeTaxQn]
        {
          assert f !in FactsOf(facts, ExtraordinaryCostsQn) && f !in FactsOf(facts, ExtraordinaryIncomeQn)
                 && f !in FactsOf(facts, ExtraordinaryResultBeforeTaxQn);
        }
      }
      []
  }

  /** FR52: the proposed extraordinary dividend recognised in liabilities
      must not be used; the warning points at every such fact. */
  function Fr52(facts: seq<Fact>): (r: seq<Diagnostic>)
    ensures r != [] <==> HasFacts(facts, ProposedExtraordinaryDividendRecognisedInLiabilitiesQn)
    ensures r != [] ==> |r| == 1 && r[0].code == "DBA.FR52" && r[0].severity == Warning
                        && forall f :: f in r[0].facts <==>
                             f in facts && f.qname == ProposedExtraordinaryDividendRecognisedInLiabilitiesQn
  {
    var found := FactsOf(facts, ProposedExtraordinaryDividendRecognisedInLiabilitiesQn);
    if found != [] then [Diagnostic("DBA.FR52", Warning, found)]
    else
      assert forall f :: f in facts ==> f.qname != ProposedExtraordinaryDividendRecognisedInLiabilitiesQn
        by { forall f | f in facts ensures f.qname != ProposedExtraordinaryDividendRecognisedInLiabilitiesQn {
               assert f !in found;
             } }
      []
  }

  /** A fact language that states the language of the report. */
  predicate IsReportLanguage(lang: string) {
    lang == "da" || lang == "en"
  }

  /** FR81: some fact must carry the Danish or the English language. */
  function Fr81(facts: seq<Fact>): (r: seq<Diagnostic>)
    ensures r == [] <==> exists i :: 0 <= i < |facts| && (facts[i].lang == "da" || facts[i].lang == "en")
    ensures r != [] ==> r == [Diagnostic("DBA.FR81", Error, [])]
  {
    if exists f :: f in facts && IsReportLanguage(f.lang) then []
    else [Diagnostic("DBA.FR81", Error, [])]
  }

  /** The valid facts of `triggers` whose value is one of the listed texts,
      in document order. */
  function TriggeredFacts(triggers: seq<Fact>, values: seq<string>): (r: seq<Fact>)
    ensures forall f :: f in r <==> f in triggers && f.valid && f.value.Str? && f.value.s in values
  {
    if triggers == [] then []
    else
      var last := triggers[|triggers| - 1];
      assert forall f :: f in triggers <==> f in triggers[..|triggers| - 1] || f == last;
      TriggeredFacts(triggers[..|triggers| - 1], values)
        + (if last.valid && last.value.Str? && last.value.s in values then [last] else [])
  }

  /** The loop shared by FR53, FR72 and FR92: every valid fact of
      `triggerQn` whose value is one of `values` draws one message pointing at
      it when one of the `required` concepts is not tagged at all. */
  method RequiredWhenValue(facts: seq<Fact>, triggerQn: QName, values: seq<string>,
                           required: seq<QName>, code: string, severity: Severity)
    returns (r: seq<Diagnostic>)
    ensures var triggered := TriggeredFacts(FactsOf(facts, triggerQn), values);
            && |r| == (if exists q :: q in required && !HasFacts(facts, q) then |triggered| else 0)
            && forall i :: 0 <= i < |r| ==> r[i] == Diagnostic(code, severity, [triggered[i]])
  {
    var triggers := FactsOf(facts, triggerQn);
    var missing := false;
    for k := 0 to |required|
      invariant missing <==> exists q :: q in required[..k] && !HasFacts(facts, q)
    {
      assert required[..k + 1] == required[..k] + [required[k]];
      if FactsOf(facts, required[k]) == [] {
        missing := true;
      } else {
        assert FactsOf(facts, required[k])[0] in facts;
      }
    }
    assert required[..|required|] == required;
    r := [];
    for i := 0 to |triggers|
      invariant var triggered := TriggeredFacts(triggers[..i], values);
                && |r| == (if missing then |triggered| else 0)
                && forall j :: 0 <= j < |r| ==> r[j] == Diagnostic(code, severity, [triggered[j]])
    {
      assert triggers[..i + 1][..i] == triggers[..i];
      var f := triggers[i];
      if f.valid && f.value.Str? && f.value.s in values && missing {
        r := r + [Diagnostic(code, severity, [f])];
      }
    }
    assert triggers[..|triggers|] == triggers;
  }

  /** The auditor's assistance values after which FR53 asks for the audit
      firm: audited statements, extended review, independent auditor's
      review and other assurance reports, in Danish and in English. */
  function AssuranceValues(settings: Settings): seq<string> {
    [settings.auditedFinancialStatementsDanish, settings.auditedFinancialStatementsEnglish,
     settings.auditedExtendedReviewDanish, settings.auditedExtendedReviewEnglish,
     settings.independentAuditorsReportDanish, settings.independentAuditorsReportEnglish,
     settings.auditedAssuranceReportsDanish, settings.auditedAssuranceReportsEnglish]
  }

  /** FR53: one warning per valid assistance fact with an assurance value
      when the audit firm's CVR number or its name is not tagged. */
  method Fr53(facts: seq<Fact>, settings: Settings) returns (r: seq<Diagnostic>)
    ensures forall d :: d in r ==>
              && d.code == "DBA.FR53" && d.severity == Warning && |d.facts| == 1
              && d.facts[0] in facts && d.facts[0].qname == TypeOfAuditorAssistanceQn && d.facts[0].valid
              && d.facts[0].value.Str? && d.facts[0].value.s in AssuranceValues(settings)
    ensures r != [] <==> (!HasFacts(facts, IdentificationNumberCvrOfAuditFirmQn) || !HasFacts(facts, NameOfAuditFirmQn))
                         && exists f :: f in facts && f.qname == TypeOfAuditorAssistanceQn && f.valid
                                        && f.value.Str? && f.value.s in AssuranceValues(settings)
    ensures var triggered := TriggeredFacts(FactsOf(facts, TypeOfAuditorAssistanceQn), AssuranceValues(settings));
            && |r| == (if !HasFacts(facts, IdentificationNumberCvrOfAuditFirmQn) || !HasFacts(facts, NameOfAuditFirmQn)
                       then |triggered| else 0)
            && forall i :: 0 <= i < |r| ==> r[i] == Diagnostic("DBA.FR53", Warning, [triggered[i]])
  {
    var required := [IdentificationNumberCvrOfAuditFirmQn, NameOfAuditFirmQn];
    assert (exists q :: q in required && !HasFacts(facts, q))
           <==> !HasFacts(facts, IdentificationNumberCvrOfAuditFirmQn) || !HasFacts(facts, NameOfAuditFirmQn)
      by { assert required[0] in required && required[1] in required; }
    r := RequiredWhenValue(facts, TypeOfAuditorAssistanceQn, AssuranceValues(settings), required, "DBA.FR53", Warning);
    RequiredWhenValueMeaning(facts, TypeOfAuditorAssistanceQn, AssuranceValues(settings), required, "DBA.FR53", Warning, r);
  }

  /** The opinion values after which FR72 asks for the description of the
      qualifications: adverse, disclaimer and qualified, in both languages. */
  function ModifiedOpinionValues(settings: Settings): seq<string> {
    [settings.basisForAdverseOpinionDanish, settings.basisForAdverseOpinionEnglish,
     settings.basisForDisclaimerOpinionDanish, settings.basisForDisclaimerOpinionEnglish,
     settings.basisForQualifiedOpinionDanish, settings.basisForQualifiedOpinionEnglish]
  }

  /** FR72: one warning per valid modified-opinion fact when the description
      of the qualifications of the reviewed statements is not tagged. */
  method Fr72(facts: seq<Fact>, settings: Settings) returns (r: seq<Diagnostic>)
    ensures forall d :: d in r ==>
              && d.code == "DBA.FR72" && d.severity == Warning && |d.facts| == 1
              && d.facts[0] in facts && d.facts[0].qname == TypeOfBasisForModifiedOpinionOnFinancialStatementsReviewQn
              && d.facts[0].valid && d.facts[0].value.Str? && d.facts[0].value.s in ModifiedOpinionValues(settings)
    ensures r != [] <==> !HasFacts(facts, DescriptionsOfQualificationsOfReviewedFinancialStatementsQn)
                         && exists f :: f in facts && f.qname == TypeOfBasisForModifiedOpinionOnFinancialStatementsReviewQn
                                        && f.valid && f.value.Str? && f.value.s in ModifiedOpinionValues(settings)
    ensures var triggered := TriggeredFacts(FactsOf(facts, TypeOfBasisForModifiedOpinionOnFinancialStatementsReviewQn),
                                            ModifiedOpinionValues(settings));
            && |r| == (if !HasFacts(facts, DescriptionsOfQualificationsOfReviewedFinancialStatementsQn)
                       then |triggered| else 0)
            && forall i :: 0 <= i < |r| ==> r[i] == Diagnostic("DBA.FR72", Warning, [triggered[i]])
  {
    var required := [DescriptionsOfQualificationsOfReviewedFinancialStatementsQn];
    assert (exists q :: q in required && !HasFacts(facts, q))
           <==> !HasFacts(facts, DescriptionsOfQualificationsOfReviewedFinancialStatementsQn)
      by { assert required[0] in required; }
    r := RequiredWhenValue(facts, TypeOfBasisForModifiedOpinionOnFinancialStatementsReviewQn,
                           ModifiedOpinionValues(settings), required, "DBA.FR72", Warning);
    RequiredWhenValueMeaning(facts, TypeOfBasisForModifiedOpinionOnFinancialStatementsReviewQn,
                             ModifiedOpinionValues(settings), required, "DBA.FR72", Warning, r);
  }

  /** The assistance values after which FR92 asks for the signature date:
      those of FR53 and the non-assurance reports, in both languages. */
  function SignedReportValues(settings: Settings): seq<string> {
    AssuranceValues(settings) + [settings.auditedNonAssuranceReportsDanish, settings.auditedNonAssuranceReportsEnglish]
  }

  /** FR92: one error per valid assistance fact with one of those values when
      the auditor's signature date is not tagged. */
  method Fr92(facts: seq<Fact>, settings: Settings) returns (r: seq<Diagnostic>)
    ensures forall d :: d in r ==>
              && d.code == "DBA.FR92" && d.severity == Error && |d.facts| == 1
              && d.facts[0] in facts && d.facts[0].qname == TypeOfAuditorAssistanceQn && d.facts[0].valid
              && d.facts[0].value.Str? && d.facts[0].value.s in SignedReportValues(settings)
    ensures r != [] <==> !HasFacts(facts, SignatureOfAuditorsDateQn)
                         && exists f :: f in facts && f.qname == TypeOfAuditorAssistanceQn && f.valid
                                        && f.value.Str? && f.value.s in SignedReportValues(settings)
    ensures var triggered := TriggeredFacts(FactsOf(facts, TypeOfAuditorAssistanceQn), SignedReportValues(settings));
            && |r| == (if !HasFacts(facts, SignatureOfAuditorsDateQn) then |triggered| else 0)
            && forall i :: 0 <= i < |r| ==> r[i] == Diagnostic("DBA.FR92", Error, [triggered[i]])
  {
    var required := [SignatureOfAuditorsDateQn];
    assert (exists q :: q in required && !HasFacts(facts, q)) <==> !HasFacts(facts, SignatureOfAuditorsDateQn)
      by { assert required[0] in required; }
    r := RequiredWhenValue(facts, TypeOfAuditorAssistanceQn, SignedReportValues(settings), required, "DBA.FR92", Error);
    RequiredWhenValueMeaning(facts, TypeOfAuditorAssistanceQn, SignedReportValues(settings), required, "DBA.FR92", Error, r);
  }

  /** What the shared loop's result means: every message points at one
      triggering fact, and there is a message exactly when some required
      concept is missing and some fact triggers. */
  lemma RequiredWhenValueMeaning(facts: seq<Fact>, triggerQn: QName, values: seq<string>,
                                 required: seq<QName>, code: string, severity: Severity, r: seq<Diagnostic>)
    requires var triggered := TriggeredFacts(FactsOf(facts, triggerQn), values);
             && |r| == (if exists q :: q in required && !HasFacts(facts, q) then |triggered| else 0)
             && forall i :: 0 <= i < |r| ==> r[i] == Diagnostic(code, severity, [triggered[i]])
    ensures forall d :: d in r ==>
              && d.code == code && d.severity == severity && |d.facts| == 1
              && d.facts[0] in facts && d.facts[0].qname == triggerQn && d.facts[0].valid
              && d.facts[0].value.Str? && d.facts[0].value.s in values
    ensures r != [] <==> (exists q :: q in required && !HasFacts(facts, q))
                         && exists f :: f in facts && f.qname == triggerQn && f.valid
                                        && f.value.Str? && f.value.s in values
  {
    var triggered := TriggeredFacts(FactsOf(facts, triggerQn), values);
    forall d | d in r ensures d.facts[0] in triggered {
      var i :| 0 <= i < |r| && r[i] == d;
    }
    if r != [] {
      assert triggered[0] in triggered;
    }
    if exists f :: f in facts && f.qname == triggerQn && f.valid && f.value.Str? && f.value.s in values {
      var f :| f in facts && f.qname == triggerQn && f.valid && f.value.Str? && f.value.s in values;
      assert f in triggered;
    }
  }
}
