/** The part of the host's XBRL object model that the plugins read.

    A fact is a record: concept, context reference, unit reference, whether
    schema validation accepted it (`xValid >= VALID` in the host), its typed
    value, its nil flag and its language. A context has an id, a period and
    all its dimensions, explicit and typed (the host's `qnameDims`). */
module Xbrl {
  import opened Seqs

  /** An expanded name: namespace URI and local name. */
  datatype QName = QName(namespace: string, localName: string)

  /** A fact's typed value (`xValue`): an exact decimal, a string, or no value
      at all (the host's `None`, which is what a nil fact carries). */
  datatype Value = Num(n: real) | Str(s: string) | NoValue

  datatype Fact = Fact(
    qname: QName,
    contextId: string,
    unitId: string,
    valid: bool,
    value: Value,
    isNil: bool,
    lang: string)

  /** Section 4.7.2 of XBRL 2.1: an instant, a start/end duration, or forever.
      Dates are given as ordered integers (for instance, seconds since an epoch). */
  datatype Period = Instant(instant: int) | Duration(start: int, end: int) | Forever

  /** The member a typed dimension is mapped to. Typed dimensions have no
      member QName (the host's `dimMemberQname` gives `None` for them); the
      empty name is never the name of a concept in a taxonomy. */
  const NoMemberQn := QName("", "")

  /** `dims` maps each dimension of the context to its member: an explicit
      dimension to its member's name, a typed dimension to `NoMemberQn`. */
  datatype Context = Context(id: string, period: Period, dims: map<QName, QName>)

  datatype Severity = Error | Warning

  /** A validation message, reduced to its code, its severity and the facts it
      points at. */
  datatype Diagnostic = Diagnostic(code: string, severity: Severity, facts: seq<Fact>)

  /** The numeric value of a fact that carries one. Every caller either checks
      `value.Num?` first, as the source's `isinstance` tests do, or requires it,
      as the source's `cast(decimal.Decimal, ...)` assumes it. */
  function Amount(f: Fact): real {
    if f.value.Num? then f.value.n else 0.0
  }

  function ContextIdOf(f: Fact): string { f.contextId }

  /** The host's `factsByQname.get(qn)`: the facts of concept `qn`, in
      document order. The host yields None exactly when this is empty. */
  function FactsOf(facts: seq<Fact>, qn: QName): (r: seq<Fact>)
    ensures |r| <= |facts|
    ensures forall f :: f in r <==> f in facts && f.qname == qn
    ensures r != [] <==> HasFacts(facts, qn)
  {
    if facts == [] then []
    else
      var last := facts[|facts| - 1];
      assert forall f :: f in facts <==> f in facts[..|facts| - 1] || f == last;
      FactsOf(facts[..|facts| - 1], qn) + (if last.qname == qn then [last] else [])
  }

  /** `factsByQname.get(qn)` is not None. */
  predicate HasFacts(facts: seq<Fact>, qn: QName) {
    exists f :: f in facts && f.qname == qn
  }

  /** Some fact's concept is one of `qns`. */
  predicate HasFactsOfAny(facts: seq<Fact>, qns: seq<QName>) {
    exists f :: f in facts && f.qname in qns
  }

  /** The facts whose concept is one of `qns`, in document order. */
  function FactsOfAny(facts: seq<Fact>, qns: seq<QName>): (r: seq<Fact>)
    ensures forall f :: f in r <==> f in facts && f.qname in qns
  {
    if facts == [] then []
    else
      var last := facts[|facts| - 1];
      assert forall f :: f in facts <==> f in facts[..|facts| - 1] || f == last;
      FactsOfAny(facts[..|facts| - 1], qns) + (if last.qname in qns then [last] else [])
  }

  /** The keys of `getFactsGroupedByContextId(modelXbrl, *qns)`: the context
      ids of the facts of those concepts, in order of first appearance. */
  function GroupedContextIds(facts: seq<Fact>, qns: seq<QName>): (r: seq<string>)
    ensures NoDuplicates(r)
    ensures forall c :: c in r <==> exists f :: f in facts && f.qname in qns && f.contextId == c
  {
    KeyOrder(FactsOfAny(facts, qns), ContextIdOf)
  }

  /** The value of `getFactsGroupedByContextId(modelXbrl, *qns)` at `c`, or
      the `[]` default of `.get(c, [])`. */
  function ContextGroup(facts: seq<Fact>, qns: seq<QName>, c: string): (r: seq<Fact>)
    ensures forall f :: f in r <==> f in facts && f.qname in qns && f.contextId == c
  {
    Group(FactsOfAny(facts, qns), ContextIdOf, c)
  }
}
