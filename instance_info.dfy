/** The counting core of the instance-information plugin: statistics over the
    contexts, the index of facts by context and by aspect hash, the
    classification of duplicate facts as consistent or inconsistent, and the
    count of repeated inline `style` attributes.

    The plugin computes these as local counters, dictionaries and sets of one
    procedure; each stage is modelled as a method whose loops update the same
    locals, proved against a definition of what the counters hold. The host
    functions the classification calls (the aspect hash, the concept's
    numeric type, the inferred decimals of section 4.6.6 of XBRL 2.1, the
    value and value interval of a fact, and value equality) are parameters. */
module InstanceInfo {
  import opened Seqs
  import opened Xbrl

  // ---- Context statistics ----

  /** The total number of dimensions, explicit and typed, over all contexts. */
  function SumNumDims(cs: seq<Context>): nat {
    if cs == [] then 0 else SumNumDims(cs[..|cs| - 1]) + |cs[|cs| - 1].dims|
  }

  /** The number of contexts that carry dimension `q`. */
  function DimFrequency(cs: seq<Context>, q: QName): nat {
    if cs == [] then 0
    else DimFrequency(cs[..|cs| - 1], q) + (if q in cs[|cs| - 1].dims then 1 else 0)
  }

  /** The dimension counter holds exactly the dimensions some context uses,
      each with the number of contexts using it. */
  ghost predicate FrequencyOf(freq: map<QName, nat>, cs: seq<Context>) {
    forall q :: (q in freq <==> exists c :: c in cs && q in c.dims)
                && (q in freq ==> freq[q] == DimFrequency(cs, q))
  }

  /** The distinct instant dates. */
  function Instants(cs: seq<Context>): set<int> {
    set c | c in cs && c.period.Instant? :: c.period.instant
  }

  /** The distinct (start, end) pairs of duration periods. */
  function Durations(cs: seq<Context>): set<(int, int)> {
    set c | c in cs && c.period.Duration? :: (c.period.start, c.period.end)
  }

  /** The bytes saved by shortening every context id longer than
      `shortLen` to `shortLen` characters. */
  function ContextIdSavings(cs: seq<Context>, shortLen: int): int {
    if cs == [] then 0
    else
      var id := cs[|cs| - 1].id;
      ContextIdSavings(cs[..|cs| - 1], shortLen) + (if |id| > shortLen then |id| - shortLen else 0)
  }

  /** The dimension counter with one more context's dimensions counted. */
  function AddDims(freq: map<QName, nat>, dims: set<QName>): map<QName, nat> {
    map q | q in freq.Keys + dims :: (if q in freq then freq[q] else 0) + (if q in dims then 1 else 0)
  }

  /** The dimension counter after every context has been counted. */
  function FrequencyMap(cs: seq<Context>): map<QName, nat> {
    if cs == [] then map[] else AddDims(FrequencyMap(cs[..|cs| - 1]), cs[|cs| - 1].dims.Keys)
  }

  /** The inner loop: one context's dimensions added to the counter. */
  method CountDims(freq: map<QName, nat>, dims: set<QName>) returns (counted: map<QName, nat>)
    ensures counted == AddDims(freq, dims)
  {
    counted := freq;
    var pending := dims;
    while pending != {}
      invariant pending <= dims
      invariant counted == AddDims(freq, dims - pending)
      decreases pending
    {
      var q :| q in pending;
      assert AddDims(freq, dims - (pending - {q})) == AddDims(freq, dims - pending)[q := (if q in counted then counted[q] else 0) + 1];
      counted := counted[q := (if q in counted then counted[q] else 0) + 1];
      pending := pending - {q};
    }
    assert dims - {} == dims;
  }

  /** The counter holds exactly the dimensions some context uses, each with
      the number of contexts that use it. */
  lemma {:induction false} FrequencyMapCounts(cs: seq<Context>)
    ensures FrequencyOf(FrequencyMap(cs), cs)
  {
    if cs != [] {
      var init := cs[..|cs| - 1];
      var c := cs[|cs| - 1];
      FrequencyMapCounts(init);
      FrequencyOfSnoc(FrequencyMap(init), FrequencyMap(cs), init, c);
      assert init + [c] == cs;
    }
  }

  /** One more context adds one to the count of each of its dimensions. */
  lemma FrequencyOfSnoc(freq: map<QName, nat>, counted: map<QName, nat>, cs: seq<Context>, c: Context)
    requires FrequencyOf(freq, cs)
    requires counted == AddDims(freq, c.dims.Keys)
    ensures FrequencyOf(counted, cs + [c])
  {
    assert (cs + [c])[..|cs|] == cs;
    forall q ensures (q in counted <==> exists x :: x in cs + [c] && q in x.dims)
                     && (q in counted ==> counted[q] == DimFrequency(cs + [c], q)) {
      assert c in cs + [c];
      if exists x :: x in cs && q in x.dims {
        var x :| x in cs && q in x.dims;
        assert x in cs + [c];
      }
      if exists x :: x in cs + [c] && q in x.dims {
        var x :| x in cs + [c] && q in x.dims;
        assert x in cs || x == c;
      }
      if q !in freq {
        DimFrequencyZero(cs, q);
      }
    }
  }

  /** A dimension no context uses has frequency zero. */
  lemma {:induction false} DimFrequencyZero(cs: seq<Context>, q: QName)
    requires forall c :: c in cs ==> q !in c.dims
    ensures DimFrequency(cs, q) == 0
  {
    if cs != [] {
      assert cs[|cs| - 1] in cs;
      DimFrequencyZero(cs[..|cs| - 1], q);
    }
  }

  /** One more context adds its dimensions to the counts and its id to the
      savings. */
  lemma ContextStep(cs: seq<Context>, i: nat, shortLen: int)
    requires i < |cs|
    ensures SumNumDims(cs[..i + 1]) == SumNumDims(cs[..i]) + |cs[i].dims|
    ensures FrequencyMap(cs[..i + 1]) == AddDims(FrequencyMap(cs[..i]), cs[i].dims.Keys)
    ensures ContextIdSavings(cs[..i + 1], shortLen)
            == ContextIdSavings(cs[..i], shortLen) + (if |cs[i].id| > shortLen then |cs[i].id| - shortLen else 0)
  {
    assert cs[..i + 1][..i] == cs[..i];
  }

  /** One more context adds its period to the instants or to the durations. */
  lemma PeriodStep(cs: seq<Context>, i: nat)
    requires i < |cs|
    ensures Instants(cs[..i + 1])
            == if cs[i].period.Instant? then Instants(cs[..i]) + {cs[i].period.instant} else Instants(cs[..i])
    ensures Durations(cs[..i + 1])
            == if cs[i].period.Duration? then Durations(cs[..i]) + {(cs[i].period.start, cs[i].period.end)}
               else Durations(cs[..i])
  {
    assert cs[..i + 1] == cs[..i] + [cs[i]];
    assert forall x :: x in cs[..i + 1] <==> x in cs[..i] || x == cs[i];
  }

  /** The loop over the contexts: the number of dimensions, how often each
      dimension is used, the distinct instants and durations, and the bytes
      saved by short context ids. `shortLen` is the plugin's
      `int(log10(number of contexts)) + 2`. */
  method ContextStatistics(contexts: seq<Context>, shortLen: int)
    returns (sumNumDims: nat, frequencyOfDims: map<QName, nat>, distinctInstants: set<int>,
             distinctDurations: set<(int, int)>, bytesSaveable: int)
    ensures sumNumDims == SumNumDims(contexts)
    ensures frequencyOfDims == FrequencyMap(contexts)
    ensures distinctInstants == Instants(contexts)
    ensures distinctDurations == Durations(contexts)
    ensures bytesSaveable == ContextIdSavings(contexts, shortLen)
  {
    sumNumDims, frequencyOfDims, distinctInstants, distinctDurations, bytesSaveable := 0, map[], {}, {}, 0;
    for i := 0 to |contexts|
      invariant sumNumDims == SumNumDims(contexts[..i])
      invariant frequencyOfDims == FrequencyMap(contexts[..i])
      invariant distinctInstants == Instants(contexts[..i])
      invariant distinctDurations == Durations(contexts[..i])
      invariant bytesSaveable == ContextIdSavings(contexts[..i], shortLen)
    {
      var c := contexts[i];
      ContextStep(contexts, i, shortLen);
      PeriodStep(contexts, i);
      sumNumDims := sumNumDims + |c.dims|;
      frequencyOfDims := CountDims(frequencyOfDims, c.dims.Keys);
      if c.period.Instant? {
        distinctInstants := distinctInstants + {c.period.instant};
      } else if c.period.Duration? {
        distinctDurations := distinctDurations + {(c.period.start, c.period.end)};
      }
      if |c.id| > shortLen {
        bytesSaveable := bytesSaveable + |c.id| - shortLen;
      }
    }
    assert contexts[..|contexts|] == contexts;
  }

  /** Every context that uses a dimension adds at least one to the number of
      dimensions, so no dimension is used more often than there are
      dimensions in all. */
  lemma {:induction false} DimFrequencyAtMostSum(cs: seq<Context>, q: QName)
    ensures DimFrequency(cs, q) <= SumNumDims(cs)
  {
    if cs != [] {
      DimFrequencyAtMostSum(cs[..|cs| - 1], q);
      var dims := cs[|cs| - 1].dims;
      if q in dims {
        assert q in dims.Keys;
        assert |dims.Keys| >= 1;
      }
    }
  }

  /** The context ids save nothing exactly when none is longer than
      `shortLen`; otherwise they save a positive number of bytes. */
  lemma {:induction false} ContextIdSavingsZero(cs: seq<Context>, shortLen: int)
    ensures ContextIdSavings(cs, shortLen) >= 0
    ensures ContextIdSavings(cs, shortLen) == 0 <==> forall c :: c in cs ==> |c.id| <= shortLen
  {
    if cs != [] {
      var init := cs[..|cs| - 1];
      assert forall c :: c in cs <==> c in init || c == cs[|cs| - 1];
      ContextIdSavingsZero(init, shortLen);
    }
  }

  // ---- Fact index ----

  /** How a numeric fact's precision is inferred (section 4.6.6 of XBRL 2.1):
      a number of decimal places, exact, or undetermined (the host gives a
      floating-point NaN, for a precision of zero). */
  datatype Decimals = Places(n: int) | Exact | Undetermined

  /** Python's `==` on inferred decimals: as floats, NaN equals nothing, not
      even itself. */
  predicate DecimalsEqual(a: Decimals, b: Decimals) {
    a == b && !a.Undetermined?
  }

  /** The host functions the statistics call. */
  datatype Host = Host(
    /** The fact's context and concept both resolve. */
    resolved: Fact -> bool,
    /** The hash of concept, context, unit and language. */
    aspectHash: Fact -> int,
    /** The concept's type is numeric. */
    isNumeric: QName -> bool,
    /** The inferred decimals of the fact. */
    inferredDecimals: Fact -> Decimals,
    /** The value of the fact's lexical form. */
    rangeValue: Fact -> real,
    /** The interval of values its lexical form stands for at its inferred
        decimals: lower and upper bound. */
    rangeBounds: Fact -> (real, real),
    /** Value equality of two facts. */
    isVEqualTo: (Fact, Fact) -> bool)

  /** The facts whose context and concept resolve, in document order. */
  function Resolved(facts: seq<Fact>, host: Host): (r: seq<Fact>)
    ensures forall f :: f in r <==> f in facts && host.resolved(f)
  {
    if facts == [] then []
    else
      var last := facts[|facts| - 1];
      assert forall f :: f in facts <==> f in facts[..|facts| - 1] || f == last;
      Resolved(facts[..|facts| - 1], host) + (if host.resolved(last) then [last] else [])
  }

  /** What the fact loop adds to the saveable bytes: for every resolved fact,
      its context id's length minus `shortLen`, with no check that the id is
      longer. */
  function FactIdSavings(fs: seq<Fact>, shortLen: int): int {
    if fs == [] then 0
    else FactIdSavings(fs[..|fs| - 1], shortLen) + |fs[|fs| - 1].contextId| - shortLen
  }

  /** The same sum counting only ids longer than `shortLen`, as the context
      loop does. */
  function GuardedFactIdSavings(fs: seq<Fact>, shortLen: int): int {
    if fs == [] then 0
    else
      var id := fs[|fs| - 1].contextId;
      GuardedFactIdSavings(fs[..|fs| - 1], shortLen) + (if |id| > shortLen then |id| - shortLen else 0)
  }

  /** Counts one more fact of its context. */
  method CountFact(factsPerContext: map<string, nat>, ghost before: seq<Fact>, f: Fact)
    returns (counted: map<string, nat>)
    requires factsPerContext == CountsOf(before, ContextIdOf)
    ensures counted == CountsOf(before + [f], ContextIdOf)
  {
    CountsOfSnoc(before, ContextIdOf, f);
    var c := f.contextId;
    counted := factsPerContext[c := (if c in factsPerContext then factsPerContext[c] else 0) + 1];
  }

  /** Appends one more fact to the bucket of its aspect hash. */
  method FileFact(buckets: map<int, seq<Fact>>, ghost bucketOrder: seq<int>, ghost before: seq<Fact>, f: Fact, host: Host)
    returns (filed: map<int, seq<Fact>>, ghost filedOrder: seq<int>)
    requires buckets == GroupsOf(before, host.aspectHash)
    requires bucketOrder == KeyOrder(before, host.aspectHash)
    ensures filed == GroupsOf(before + [f], host.aspectHash)
    ensures filedOrder == KeyOrder(before + [f], host.aspectHash)
  {
    GroupsOfSnoc(before, host.aspectHash, f);
    KeyOrderSnoc(before, host.aspectHash, f);
    GroupsOfKey(before, host.aspectHash, host.aspectHash(f));
    var h := host.aspectHash(f);
    filedOrder := if h in buckets then bucketOrder else bucketOrder + [h];
    filed := buckets[h := (if h in buckets then buckets[h] else []) + [f]];
  }

  /** The loop over the facts, restricted to the resolved facts: it counts
      the facts of each context, files each fact under its aspect hash, and
      adds to the saveable bytes. */
  method IndexFacts(facts: seq<Fact>, host: Host, shortLen: int, bytesBefore: int)
    returns (factsPerContext: map<string, nat>, buckets: map<int, seq<Fact>>, ghost bucketOrder: seq<int>,
             bytesSaveable: int)
    ensures factsPerContext == CountsOf(Resolved(facts, host), ContextIdOf)
    ensures buckets == GroupsOf(Resolved(facts, host), host.aspectHash)
    ensures bucketOrder == KeyOrder(Resolved(facts, host), host.aspectHash)
    ensures bytesSaveable == bytesBefore + FactIdSavings(Resolved(facts, host), shortLen)
  {
    factsPerContext, buckets, bucketOrder, bytesSaveable := map[], map[], [], bytesBefore;
    for i := 0 to |facts|
      invariant factsPerContext == CountsOf(Resolved(facts[..i], host), ContextIdOf)
      invariant buckets == GroupsOf(Resolved(facts[..i], host), host.aspectHash)
      invariant bucketOrder == KeyOrder(Resolved(facts[..i], host), host.aspectHash)
      invariant bytesSaveable == bytesBefore + FactIdSavings(Resolved(facts[..i], host), shortLen)
    {
      var f := facts[i];
      ghost var before := Resolved(facts[..i], host);
      ResolvedStep(facts, i, host, shortLen);
      if host.resolved(f) {
        factsPerContext := CountFact(factsPerContext, before, f);
        buckets, bucketOrder := FileFact(buckets, bucketOrder, before, f, host);
        bytesSaveable := bytesSaveable + |f.contextId| - shortLen;
      }
    }
    assert facts[..|facts|] == facts;
  }

  /** What the fact loop builds: every context's number of resolved facts,
      and every aspect hash's resolved facts in document order, with the
      hashes in order of first appearance. */
  lemma IndexMeaning(facts: seq<Fact>, host: Host)
    ensures CountedAs(CountsOf(Resolved(facts, host), ContextIdOf), Resolved(facts, host), ContextIdOf)
    ensures GroupedAs(GroupsOf(Resolved(facts, host), host.aspectHash), KeyOrder(Resolved(facts, host), host.aspectHash),
                      Resolved(facts, host), host.aspectHash)
  {
    CountsOfCounts(Resolved(facts, host), ContextIdOf);
    GroupsOfGroups(Resolved(facts, host), host.aspectHash);
  }

  /** One more fact extends the resolved facts, and their savings, by itself
      if it resolves. */
  lemma ResolvedStep(facts: seq<Fact>, i: nat, host: Host, shortLen: int)
    requires i < |facts|
    ensures Resolved(facts[..i + 1], host)
            == if host.resolved(facts[i]) then Resolved(facts[..i], host) + [facts[i]] else Resolved(facts[..i], host)
    ensures FactIdSavings(Resolved(facts[..i + 1], host), shortLen)
            == FactIdSavings(Resolved(facts[..i], host), shortLen)
               + (if host.resolved(facts[i]) then |facts[i].contextId| - shortLen else 0)
  {
    assert facts[..i + 1][..i] == facts[..i];
    var before := Resolved(facts[..i], host);
    assert (before + [facts[i]])[..|before|] == before;
  }

  /** The fact loop's sum is never more than the guarded one, and equals it
      exactly when no resolved fact's context id is shorter than `shortLen`:
      every shorter id makes the plugin's total smaller. */
  lemma {:induction false} FactIdSavingsUnguarded(fs: seq<Fact>, shortLen: int)
    ensures FactIdSavings(fs, shortLen) <= GuardedFactIdSavings(fs, shortLen)
    ensures FactIdSavings(fs, shortLen) == GuardedFactIdSavings(fs, shortLen)
            <==> forall f :: f in fs ==> |f.contextId| >= shortLen
  {
    if fs != [] {
      var init := fs[..|fs| - 1];
      assert forall f :: f in fs <==> f in init || f == fs[|fs| - 1];
      FactIdSavingsUnguarded(init, shortLen);
    }
  }

  // ---- Duplicate facts ----

  /** What makes facts duplicates of each other: concept, context, unit and
      language. */
  datatype AspectKey = AspectKey(qname: QName, contextId: string, unitId: string, lang: string)

  function AspectOf(f: Fact): AspectKey {
    AspectKey(f.qname, f.contextId, f.unitId, f.lang)
  }

  function Lower(host: Host, f: Fact): real { host.rangeBounds(f).0 }

  function Upper(host: Host, f: Fact): real { host.rangeBounds(f).1 }

  /** The largest lower bound among the facts' intervals. */
  function MaxLower(g: seq<Fact>, host: Host): real
    requires g != []
  {
    if |g| == 1 then Lower(host, g[0])
    else
      var a, m := Lower(host, g[|g| - 1]), MaxLower(g[..|g| - 1], host);
      if a > m then a else m
  }

  /** The smallest upper bound among the facts' intervals. */
  function MinUpper(g: seq<Fact>, host: Host): real
    requires g != []
  {
    if |g| == 1 then Upper(host, g[0])
    else
      var b, m := Upper(host, g[|g| - 1]), MinUpper(g[..|g| - 1], host);
      if b < m then b else m
  }

  /** The largest lower bound bounds every lower bound and is one of them;
      the same for the smallest upper bound. */
  lemma {:induction false} BoundsAttained(g: seq<Fact>, host: Host)
    requires g != []
    ensures forall f :: f in g ==> Lower(host, f) <= MaxLower(g, host)
    ensures exists f :: f in g && Lower(host, f) == MaxLower(g, host)
    ensures forall f :: f in g ==> MinUpper(g, host) <= Upper(host, f)
    ensures exists f :: f in g && Upper(host, f) == MinUpper(g, host)
  {
    if |g| == 1 {
      assert g[0] in g;
      assert forall f :: f in g ==> f == g[0];
    } else {
      var init, last := g[..|g| - 1], g[|g| - 1];
      assert g == init + [last];
      assert forall f :: f in g <==> f in init || f == last;
      BoundsAttained(init, host);
      var fl :| fl in init && Lower(host, fl) == MaxLower(init, host);
      var fu :| fu in init && Upper(host, fu) == MinUpper(init, host);
      assert fl in g && fu in g && last in g;
    }
  }

  /** `x` lies in every fact's interval. */
  predicate CommonPoint(g: seq<Fact>, host: Host, x: real) {
    forall f :: f in g ==> Lower(host, f) <= x <= Upper(host, f)
  }

  /** The facts after the first have the first one's inferred decimals. */
  predicate SameDecimals(g: seq<Fact>, host: Host)
    requires g != []
  {
    forall f :: f in g[1..] ==> DecimalsEqual(host.inferredDecimals(f), host.inferredDecimals(g[0]))
  }

  /** A duplicate whose decimals are undetermined always sends its group to
      the interval comparison, even when every fact of the group has the same
      (undetermined) decimals. */
  lemma UndeterminedDecimalsMixed(g: seq<Fact>, host: Host, i: nat)
    requires 0 < i < |g| && host.inferredDecimals(g[i]).Undetermined?
    ensures !SameDecimals(g, host)
  {
    assert g[1..][i - 1] == g[i];
  }

  /** Whether a group of duplicate facts is inconsistent: for a numeric
      concept, by the nil facts, else by the values when all decimals agree,
      else by the value intervals; otherwise by value equality with the first
      fact. */
  function Inconsistent(g: seq<Fact>, host: Host): bool {
    if g == [] then false
    else if host.isNumeric(g[0].qname) then
      if exists f :: f in g && f.isNil then exists f :: f in g && !f.isNil
      else if SameDecimals(g, host) then exists f :: f in g[1..] && host.rangeValue(f) != host.rangeValue(g[0])
      else MinUpper(g, host) < MaxLower(g, host)
    else exists f :: f in g[1..] && !host.isVEqualTo(f, g[0])
  }

  /** The intervals have a point in common exactly when the largest lower
      bound does not exceed the smallest upper bound. */
  lemma IntervalsMeet(g: seq<Fact>, host: Host)
    requires g != []
    ensures !(MinUpper(g, host) < MaxLower(g, host)) <==> exists x :: CommonPoint(g, host, x)
  {
    var lo, hi := MaxLower(g, host), MinUpper(g, host);
    BoundsAttained(g, host);
    if lo <= hi {
      assert CommonPoint(g, host, lo);
    }
    if exists x :: CommonPoint(g, host, x) {
      var x :| CommonPoint(g, host, x);
      var fl :| fl in g && Lower(host, fl) == lo;
      var fh :| fh in g && Upper(host, fh) == hi;
      assert lo <= x <= hi;
    }
  }

  /** The three numeric branches and the non-numeric one, as the plugin
      intends them: a group with a nil fact is inconsistent exactly when not
      all are nil; with equal decimals, exactly when some value differs from
      the first; with mixed decimals, exactly when the value intervals have
      no point in common; and a non-numeric group exactly when some value
      differs from the first. A single fact is never inconsistent. */
  lemma InconsistentMeaning(g: seq<Fact>, host: Host)
    requires g != []
    ensures host.isNumeric(g[0].qname) && (exists f :: f in g && f.isNil) ==>
              (Inconsistent(g, host) <==> !forall f :: f in g ==> f.isNil)
    ensures host.isNumeric(g[0].qname) && (forall f :: f in g ==> !f.isNil) && SameDecimals(g, host) ==>
              (Inconsistent(g, host) <==> exists f :: f in g && host.rangeValue(f) != host.rangeValue(g[0]))
    ensures host.isNumeric(g[0].qname) && (forall f :: f in g ==> !f.isNil) && !SameDecimals(g, host) ==>
              (Inconsistent(g, host) <==> !exists x :: CommonPoint(g, host, x))
    ensures !host.isNumeric(g[0].qname) ==>
              (Inconsistent(g, host) <==> exists f :: f in g[1..] && !host.isVEqualTo(f, g[0]))
    ensures |g| == 1 ==> !Inconsistent(g, host)
  {
    IntervalsMeet(g, host);
    if exists f :: f in g && host.rangeValue(f) != host.rangeValue(g[0]) {
      var f :| f in g && host.rangeValue(f) != host.rangeValue(g[0]);
      assert f != g[0];
      var i :| 0 <= i < |g| && g[i] == f;
      assert g[1..][i - 1] == f;
    }
    if |g| == 1 {
      assert g[1..] == [];
      assert SameDecimals(g, host);
    }
  }

  /** The `aMax`/`bMin` loop over a group with mixed decimals: the largest
      lower and the smallest upper bound of the value intervals. */
  method IntervalBounds(fList: seq<Fact>, host: Host) returns (aMax: real, bMin: real)
    requires fList != []
    ensures aMax == MaxLower(fList, host) && bMin == MinUpper(fList, host)
  {
    aMax, bMin := Lower(host, fList[0]), Upper(host, fList[0]);
    assert fList[..1] == [fList[0]];
    for i := 1 to |fList|
      invariant aMax == MaxLower(fList[..i], host)
      invariant bMin == MinUpper(fList[..i], host)
    {
      assert fList[..i + 1][..i] == fList[..i];
      var a, b := Lower(host, fList[i]), Upper(host, fList[i]);
      if a > aMax {
        aMax := a;
      }
      if b < bMin {
        bMin := b;
      }
    }
    assert fList[..|fList|] == fList;
  }

  /** The classification of one group of duplicate facts. */
  method ClassifyGroup(fList: seq<Fact>, host: Host) returns (inconsistent: bool)
    requires fList != []
    ensures inconsistent == Inconsistent(fList, host)
  {
    var f0 := fList[0];
    if host.isNumeric(f0.qname) {
      if exists f :: f in fList && f.isNil {
        inconsistent := !forall f :: f in fList ==> f.isNil;
      } else if SameDecimals(fList, host) {
        var v0 := host.rangeValue(f0);
        inconsistent := !forall f :: f in fList[1..] ==> host.rangeValue(f) == v0;
      } else {
        var aMax, bMin := IntervalBounds(fList, host);
        inconsistent := bMin < aMax;
      }
    } else {
      inconsistent := exists f :: f in fList[1..] && !host.isVEqualTo(f, f0);
    }
  }

  /** Numbers of consistent and inconsistent duplicate groups. */
  datatype DupCounts = DupCounts(consistent: nat, inconsistent: nat)

  function Tally(c: DupCounts, inconsistent: bool): DupCounts {
    if inconsistent then c.(inconsistent := c.inconsistent + 1) else c.(consistent := c.consistent + 1)
  }

  function Plus(a: DupCounts, b: DupCounts): DupCounts {
    DupCounts(a.consistent + b.consistent, a.inconsistent + b.inconsistent)
  }

  /** The classification of the groups of `b` with the given aspect keys. */
  function CountGroups(b: seq<Fact>, keys: seq<AspectKey>, host: Host): DupCounts {
    if keys == [] then DupCounts(0, 0)
    else Tally(CountGroups(b, keys[..|keys| - 1], host), Inconsistent(Group(b, AspectOf, keys[|keys| - 1]), host))
  }

  /** A bucket of one fact holds no duplicates; a larger one is split into
      its groups of aspect-equal facts, each classified. */
  function BucketCounts(b: seq<Fact>, host: Host): DupCounts {
    if |b| > 1 then CountGroups(b, KeyOrder(b, AspectOf), host) else DupCounts(0, 0)
  }

  function DuplicateCounts(buckets: seq<seq<Fact>>, host: Host): DupCounts {
    if buckets == [] then DupCounts(0, 0)
    else Plus(DuplicateCounts(buckets[..|buckets| - 1], host), BucketCounts(buckets[|buckets| - 1], host))
  }

  /** Files the facts of one bucket into the (empty) group dictionary by
      their aspects. */
  method GroupByAspect(aspectEqualFacts: map<AspectKey, seq<Fact>>, aspectOrder: seq<AspectKey>, bucket: seq<Fact>)
    returns (grouped: map<AspectKey, seq<Fact>>, groupedOrder: seq<AspectKey>)
    requires aspectEqualFacts == map[] && aspectOrder == []
    ensures grouped == GroupsOf(bucket, AspectOf)
    ensures groupedOrder == KeyOrder(bucket, AspectOf)
  {
    grouped, groupedOrder := aspectEqualFacts, aspectOrder;
    for j := 0 to |bucket|
      invariant grouped == GroupsOf(bucket[..j], AspectOf)
      invariant groupedOrder == KeyOrder(bucket[..j], AspectOf)
    {
      var f := bucket[j];
      assert bucket[..j + 1] == bucket[..j] + [f];
      GroupsOfSnoc(bucket[..j], AspectOf, f);
      KeyOrderSnoc(bucket[..j], AspectOf, f);
      GroupsOfKey(bucket[..j], AspectOf, AspectOf(f));
      var k := AspectOf(f);
      if k !in grouped {
        groupedOrder := groupedOrder + [k];
      }
      grouped := grouped[k := (if k in grouped then grouped[k] else []) + [f]];
    }
    assert bucket[..|bucket|] == bucket;
  }

  /** Every key in order has a non-empty group, the elements with that key. */
  lemma GroupOfKey(bucket: seq<Fact>, k: AspectKey)
    requires k in KeyOrder(bucket, AspectOf)
    ensures k in GroupsOf(bucket, AspectOf)
    ensures GroupsOf(bucket, AspectOf)[k] == Group(bucket, AspectOf, k) != []
  {
    GroupsOfGroups(bucket, AspectOf);
    var x :| x in bucket && AspectOf(x) == k;
    assert x in Group(bucket, AspectOf, k);
  }

  /** One more key classifies one more group. */
  lemma CountGroupsStep(b: seq<Fact>, keys: seq<AspectKey>, k: nat, host: Host)
    requires k < |keys|
    ensures CountGroups(b, keys[..k + 1], host)
            == Tally(CountGroups(b, keys[..k], host), Inconsistent(Group(b, AspectOf, keys[k]), host))
  {
    assert keys[..k + 1][..k] == keys[..k];
  }

  /** Classifies the group of one aspect key and counts it. */
  method CountAspectGroup(aspectEqualFacts: map<AspectKey, seq<Fact>>, ghost bucket: seq<Fact>,
                          key: AspectKey, host: Host, before: DupCounts)
    returns (after: DupCounts)
    requires aspectEqualFacts == GroupsOf(bucket, AspectOf)
    requires key in KeyOrder(bucket, AspectOf)
    ensures after == Tally(before, Inconsistent(Group(bucket, AspectOf, key), host))
  {
    GroupOfKey(bucket, key);
    var fList := aspectEqualFacts[key];
    var inconsistent := ClassifyGroup(fList, host);
    if inconsistent {
      after := before.(inconsistent := before.inconsistent + 1);
    } else {
      after := before.(consistent := before.consistent + 1);
    }
  }

  /** Classifies every group of one bucket, in the dictionary's order. */
  method CountAspectGroups(aspectEqualFacts: map<AspectKey, seq<Fact>>, aspectOrder: seq<AspectKey>,
                           ghost bucket: seq<Fact>, host: Host, before: DupCounts)
    returns (after: DupCounts)
    requires aspectEqualFacts == GroupsOf(bucket, AspectOf)
    requires aspectOrder == KeyOrder(bucket, AspectOf)
    ensures after == Plus(before, CountGroups(bucket, aspectOrder, host))
  {
    after := before;
    for k := 0 to |aspectOrder|
      invariant after == Plus(before, CountGroups(bucket, aspectOrder[..k], host))
    {
      CountGroupsStep(bucket, aspectOrder, k, host);
      after := CountAspectGroup(aspectEqualFacts, bucket, aspectOrder[k], host, after);
    }
    assert aspectOrder[..|aspectOrder|] == aspectOrder;
  }

  /** The loop over the hash buckets (the bucket dictionary's values, in its
      order): every bucket of more than one fact is split by aspect into a
      dictionary of groups, each group is classified, and the dictionary is
      emptied before the next bucket. */
  method CountDuplicateFacts(buckets: seq<seq<Fact>>, host: Host)
    returns (numConsistentDupFacts: nat, numInConsistentDupFacts: nat)
    ensures DupCounts(numConsistentDupFacts, numInConsistentDupFacts) == DuplicateCounts(buckets, host)
  {
    var aspectEqualFacts: map<AspectKey, seq<Fact>> := map[];
    var aspectOrder: seq<AspectKey> := [];
    var counts := DupCounts(0, 0);
    for i := 0 to |buckets|
      invariant counts == DuplicateCounts(buckets[..i], host)
      invariant aspectEqualFacts == map[] && aspectOrder == []
    {
      assert buckets[..i + 1][..i] == buckets[..i];
      var hashEquivalentFacts := buckets[i];
      if |hashEquivalentFacts| > 1 {
        aspectEqualFacts, aspectOrder := GroupByAspect(aspectEqualFacts, aspectOrder, hashEquivalentFacts);
        counts := CountAspectGroups(aspectEqualFacts, aspectOrder, hashEquivalentFacts, host, counts);
        aspectEqualFacts, aspectOrder := map[], [];
      }
    }
    assert buckets[..|buckets|] == buckets;
    numConsistentDupFacts, numInConsistentDupFacts := counts.consistent, counts.inconsistent;
  }

  /** The distinct aspects among a bucket's facts. */
  function AspectKeys(b: seq<Fact>): set<AspectKey> {
    set f | f in b :: AspectOf(f)
  }

  /** The number of aspect-equal groups over the buckets of more than one fact. */
  function DupGroupCount(buckets: seq<seq<Fact>>): nat {
    if buckets == [] then 0
    else
      var b := buckets[|buckets| - 1];
      DupGroupCount(buckets[..|buckets| - 1]) + (if |b| > 1 then |AspectKeys(b)| else 0)
  }

  /** Classifying the groups of the given keys counts each once. */
  lemma {:induction false} CountGroupsTotal(b: seq<Fact>, keys: seq<AspectKey>, host: Host)
    ensures CountGroups(b, keys, host).consistent + CountGroups(b, keys, host).inconsistent == |keys|
  {
    if keys != [] {
      CountGroupsTotal(b, keys[..|keys| - 1], host);
    }
  }

  /** Every group of aspect-equal facts in a bucket of more than one fact is
      counted exactly once, as consistent or as inconsistent. */
  lemma {:induction false} DuplicateGroupsCountedOnce(buckets: seq<seq<Fact>>, host: Host)
    ensures DuplicateCounts(buckets, host).consistent + DuplicateCounts(buckets, host).inconsistent
            == DupGroupCount(buckets)
  {
    if buckets != [] {
      var b := buckets[|buckets| - 1];
      DuplicateGroupsCountedOnce(buckets[..|buckets| - 1], host);
      if |b| > 1 {
        var keys := KeyOrder(b, AspectOf);
        CountGroupsTotal(b, keys, host);
        DistinctCount(keys);
        assert (set k | k in keys) == AspectKeys(b) by {
          forall k ensures k in keys <==> k in AspectKeys(b) {
            if k in keys {
              var f :| f in b && AspectOf(f) == k;
            }
          }
        }
      }
    }
  }

  // ---- Inline style attributes ----

  /** The `style` attributes that count: present and not empty. */
  function StylesOf(elts: seq<Option<string>>): seq<string> {
    if elts == [] then []
    else
      var style := elts[|elts| - 1];
      StylesOf(elts[..|elts| - 1]) + (if style.Some? && style.value != "" then [style.value] else [])
  }

  /** The styles of all inline XBRL root elements' descendants, root by root. */
  function AllStyles(roots: seq<seq<Option<string>>>): seq<string> {
    if roots == [] then [] else AllStyles(roots[..|roots| - 1]) + StylesOf(roots[|roots| - 1])
  }

  function StyleKey(s: string): string { s }

  /** Counts one more style attribute. */
  method CountStyle(styleAttrCounts: map<string, nat>, styleOrder: seq<string>, ghost seen: seq<string>, style: string)
    returns (counted: map<string, nat>, countedOrder: seq<string>)
    requires styleAttrCounts == CountsOf(seen, StyleKey)
    requires styleOrder == KeyOrder(seen, StyleKey)
    ensures counted == CountsOf(seen + [style], StyleKey)
    ensures countedOrder == KeyOrder(seen + [style], StyleKey)
  {
    CountsOfSnoc(seen, StyleKey, style);
    KeyOrderSnoc(seen, StyleKey, style);
    CountsOfKey(seen, StyleKey, style);
    countedOrder := if style !in styleAttrCounts then styleOrder + [style] else styleOrder;
    counted := styleAttrCounts[style := (if style in styleAttrCounts then styleAttrCounts[style] else 0) + 1];
  }

  /** The inner loop: the descendants of one root element. */
  method CountStylesIn(styleAttrCounts: map<string, nat>, styleOrder: seq<string>, ghost seen: seq<string>,
                       elts: seq<Option<string>>)
    returns (counted: map<string, nat>, countedOrder: seq<string>)
    requires styleAttrCounts == CountsOf(seen, StyleKey)
    requires styleOrder == KeyOrder(seen, StyleKey)
    ensures counted == CountsOf(seen + StylesOf(elts), StyleKey)
    ensures countedOrder == KeyOrder(seen + StylesOf(elts), StyleKey)
  {
    counted, countedOrder := styleAttrCounts, styleOrder;
    assert seen + StylesOf(elts[..0]) == seen;
    for j := 0 to |elts|
      invariant counted == CountsOf(seen + StylesOf(elts[..j]), StyleKey)
      invariant countedOrder == KeyOrder(seen + StylesOf(elts[..j]), StyleKey)
    {
      assert elts[..j + 1][..j] == elts[..j];
      var style := elts[j];
      if style.Some? && style.value != "" {
        assert seen + StylesOf(elts[..j + 1]) == seen + StylesOf(elts[..j]) + [style.value];
        counted, countedOrder := CountStyle(counted, countedOrder, seen + StylesOf(elts[..j]), style.value);
      } else {
        assert StylesOf(elts[..j + 1]) == StylesOf(elts[..j]);
      }
    }
    assert elts[..|elts|] == elts;
  }

  /** The loop over the inline XBRL root elements and their descendants,
      counting each non-empty `style` attribute. */
  method CountStyles(roots: seq<seq<Option<string>>>)
    returns (styleAttrCounts: map<string, nat>, styleOrder: seq<string>)
    ensures styleAttrCounts == CountsOf(AllStyles(roots), StyleKey)
    ensures styleOrder == KeyOrder(AllStyles(roots), StyleKey)
  {
    styleAttrCounts, styleOrder := map[], [];
    for i := 0 to |roots|
      invariant styleAttrCounts == CountsOf(AllStyles(roots[..i]), StyleKey)
      invariant styleOrder == KeyOrder(AllStyles(roots[..i]), StyleKey)
    {
      assert roots[..i + 1][..i] == roots[..i];
      styleAttrCounts, styleOrder := CountStylesIn(styleAttrCounts, styleOrder, AllStyles(roots[..i]), roots[i]);
    }
    assert roots[..|roots|] == roots;
  }

  /** `numDupStyles`: the styles counted more than once. */
  function NumDupStyles(order: seq<string>, counts: map<string, nat>): nat
    requires forall s :: s in order ==> s in counts
  {
    if order == [] then 0
    else
      var s := order[|order| - 1];
      NumDupStyles(order[..|order| - 1], counts) + (if counts[s] > 1 then 1 else 0)
  }

  /** `bytesSaveableByCss`: each repeated style's length times its number of
      repetitions. */
  function CssSavings(order: seq<string>, counts: map<string, nat>): nat
    requires forall s :: s in order ==> s in counts
  {
    if order == [] then 0
    else
      var s := order[|order| - 1];
      CssSavings(order[..|order| - 1], counts) + (if counts[s] > 1 then |s| * (counts[s] - 1) else 0)
  }

  /** The styles that occur more than once. */
  function RepeatedStyles(styles: seq<string>): set<string> {
    set s | s in styles && |Group(styles, StyleKey, s)| > 1
  }

  /** The total length of a list of strings. */
  function TotalLength(ss: seq<string>): nat {
    if ss == [] then 0 else TotalLength(ss[..|ss| - 1]) + |ss[|ss| - 1]|
  }

  /** `numDupStyles` is the number of distinct styles that occur more than
      once. */
  lemma NumDupStylesMeaning(styles: seq<string>)
    ensures var order := KeyOrder(styles, StyleKey);
            var counts := CountsOf(styles, StyleKey);
            (forall s :: s in order ==> s in counts) && NumDupStyles(order, counts) == |RepeatedStyles(styles)|
  {
    var order := KeyOrder(styles, StyleKey);
    var counts := CountsOf(styles, StyleKey);
    CountsOfCounts(styles, StyleKey);
    NumDupStylesAsSet(order, counts);
    forall s ensures s in RepeatedKeys(order, counts) <==> s in RepeatedStyles(styles) {
      if s in styles {
        assert StyleKey(s) == s;
      }
      if s in order {
        var x :| x in styles && StyleKey(x) == s;
      }
    }
    assert RepeatedKeys(order, counts) == RepeatedStyles(styles);
  }

  /** The keys of `order` counted more than once. */
  function RepeatedKeys(order: seq<string>, counts: map<string, nat>): set<string>
    requires forall s :: s in order ==> s in counts
  {
    set s | s in order && counts[s] > 1
  }

  /** One more key adds itself to the repeated keys when it is counted more
      than once. */
  lemma RepeatedKeysSnoc(order: seq<string>, counts: map<string, nat>)
    requires order != []
    requires forall s :: s in order ==> s in counts
    ensures RepeatedKeys(order, counts)
            == RepeatedKeys(order[..|order| - 1], counts)
               + (if counts[order[|order| - 1]] > 1 then {order[|order| - 1]} else {})
  {
    var init, last := order[..|order| - 1], order[|order| - 1];
    assert order == init + [last];
    forall s ensures s in order <==> s in init || s == last {
    }
  }

  /** Counting repeated keys one at a time counts the set of them. */
  lemma {:induction false} NumDupStylesAsSet(order: seq<string>, counts: map<string, nat>)
    requires forall s :: s in order ==> s in counts
    requires NoDuplicates(order)
    ensures NumDupStyles(order, counts) == |RepeatedKeys(order, counts)|
  {
    if order != [] {
      var init := order[..|order| - 1];
      var last := order[|order| - 1];
      assert NoDuplicates(init) by {
        forall i, j | 0 <= i < j < |init| ensures init[i] != init[j] {
          assert init[i] == order[i] && init[j] == order[j];
        }
      }
      NumDupStylesAsSet(init, counts);
      RepeatedKeysSnoc(order, counts);
      assert last !in init;
    }
  }

  /** Each distinct style's length times its number of occurrences. */
  function Weighted(keys: seq<string>, styles: seq<string>): nat {
    if keys == [] then 0
    else
      var k := keys[|keys| - 1];
      Weighted(keys[..|keys| - 1], styles) + |k| * |Group(styles, StyleKey, k)|
  }

  /** One more style adds its length once, to its own key's term. */
  lemma {:induction false} WeightedSnoc(keys: seq<string>, styles: seq<string>, x: string)
    requires NoDuplicates(keys)
    ensures Weighted(keys, styles + [x]) == Weighted(keys, styles) + (if x in keys then |x| else 0)
  {
    if keys != [] {
      var init := keys[..|keys| - 1];
      var k := keys[|keys| - 1];
      assert NoDuplicates(init) by {
        forall i, j | 0 <= i < j < |init| ensures init[i] != init[j] {
          assert init[i] == keys[i] && init[j] == keys[j];
        }
      }
      assert k !in init;
      assert keys == init + [k];
      WeightedSnoc(init, styles, x);
      GroupSnoc(styles, StyleKey, x, k);
      var n := |Group(styles, StyleKey, k)|;
      var n' := |Group(styles + [x], StyleKey, k)|;
      assert Weighted(keys, styles + [x]) == Weighted(init, styles + [x]) + |k| * n';
      assert Weighted(keys, styles) == Weighted(init, styles) + |k| * n;
      if x == k {
        assert n' == n + 1;
        MulSucc(|k|, n);
      } else {
        assert n' == n;
        assert x in keys <==> x in init;
      }
    }
  }

  /** A style not seen before adds a key whose group is that one style. */
  lemma WeightedNewKey(init: seq<string>, x: string)
    requires x !in KeyOrder(init, StyleKey)
    ensures Weighted(KeyOrder(init, StyleKey) + [x], init + [x]) == Weighted(KeyOrder(init, StyleKey), init) + |x|
  {
    var keys := KeyOrder(init, StyleKey);
    WeightedSnoc(keys, init, x);
    forall y | y in init ensures StyleKey(y) != x {
    }
    GroupEmpty(init, StyleKey, x);
    GroupSnoc(init, StyleKey, x, x);
    assert (keys + [x])[..|keys|] == keys;
    assert Weighted(keys + [x], init + [x]) == Weighted(keys, init + [x]) + |x| * 1;
  }

  /** Over all distinct styles, the weighted sum is the total length. */
  lemma {:induction false} WeightedAll(styles: seq<string>)
    ensures Weighted(KeyOrder(styles, StyleKey), styles) == TotalLength(styles)
  {
    if styles != [] {
      var init, x := styles[..|styles| - 1], styles[|styles| - 1];
      assert init + [x] == styles;
      WeightedAll(init);
      KeyOrderSnoc(init, StyleKey, x);
      assert TotalLength(styles) == TotalLength(init) + |x|;
      if x in KeyOrder(init, StyleKey) {
        WeightedSnoc(KeyOrder(init, StyleKey), init, x);
      } else {
        WeightedNewKey(init, x);
      }
    }
  }

  /** The last key's terms: its savings and its length add up to its weight. */
  lemma CssSavingsStep(keys: seq<string>, counts: map<string, nat>, styles: seq<string>)
    requires keys != [] && forall k :: k in keys ==> k in counts
    requires counts[keys[|keys| - 1]] == |Group(styles, StyleKey, keys[|keys| - 1])| >= 1
    ensures CssSavings(keys, counts) + TotalLength(keys) - Weighted(keys, styles)
            == CssSavings(keys[..|keys| - 1], counts) + TotalLength(keys[..|keys| - 1])
               - Weighted(keys[..|keys| - 1], styles)
  {
    var init, k := keys[..|keys| - 1], keys[|keys| - 1];
    var c := counts[k];
    var saved, weight := |k| * (c - 1), |k| * c;
    MulPred(|k|, c);
    assert CssSavings(keys, counts) == CssSavings(init, counts) + saved;
    assert Weighted(keys, styles) == Weighted(init, styles) + weight;
    assert TotalLength(keys) == TotalLength(init) + |k|;
  }

  /** With every count at least one, the savings are the weighted sum minus
      one copy of each distinct style. */
  lemma {:induction false} CssSavingsAsWeighted(keys: seq<string>, counts: map<string, nat>, styles: seq<string>)
    requires forall k :: k in keys ==> k in counts && counts[k] == |Group(styles, StyleKey, k)| >= 1
    ensures CssSavings(keys, counts) + TotalLength(keys) == Weighted(keys, styles)
  {
    if keys != [] {
      CssSavingsAsWeighted(keys[..|keys| - 1], counts, styles);
      assert keys[|keys| - 1] in keys;
      CssSavingsStep(keys, counts, styles);
    }
  }

  /** `bytesSaveableByCss` is the total length of all style attributes minus
      the length of one copy of each distinct style: what replacing the
      repeated ones by a class would save. */
  lemma CssSavingsMeaning(styles: seq<string>)
    ensures var order := KeyOrder(styles, StyleKey);
            var counts := CountsOf(styles, StyleKey);
            (forall s :: s in order ==> s in counts)
            && CssSavings(order, counts) == TotalLength(styles) - TotalLength(order)
  {
    var order := KeyOrder(styles, StyleKey);
    var counts := CountsOf(styles, StyleKey);
    CountsOfCounts(styles, StyleKey);
    forall k | k in order ensures k in counts && counts[k] == |Group(styles, StyleKey, k)| >= 1 {
      var x :| x in styles && StyleKey(x) == k;
      assert x in Group(styles, StyleKey, k);
    }
    CssSavingsAsWeighted(order, counts, styles);
    WeightedAll(styles);
  }
}
