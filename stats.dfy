/** The two-sample comparison of `sber_neuro.stats.tests.compare_groups`:
    drop NaN entries, classify each sample with a Shapiro-Wilk p-value,
    run the independent T-test when both samples look normal and the
    Mann-Whitney U test otherwise, flag significance at p < 0.05, name the
    group with the higher mean and assemble the message.

    The scipy routines and the `:.4f` formatter are not modelled: they are
    passed in as a `Backend` and as `fmt`, and only their outcomes matter. */
module Stats {
  import PyText

  /** A numpy float as far as this code can tell: NaN or a real value. */
  datatype Num = NaN | Val(r: real)

  /** The exception classes the pipeline distinguishes: only `ValueError`
      from the normality diagnostic is caught. */
  datatype Exception = ValueError | OtherError

  /** What a scipy call does: returns a p-value (possibly NaN) or raises. */
  datatype Outcome = Completed(p: Num) | Raised(e: Exception)

  datatype Result<T> = Ok(value: T) | Err(error: Exception)

  /** The foreign routines: `stats.shapiro`, `stats.ttest_ind` and
      `stats.mannwhitneyu`, each reduced to the p-value it reports. */
  datatype Backend = Backend(
    shapiro: seq<real> -> Outcome,
    ttest: (seq<real>, seq<real>) -> Outcome,
    mannWhitneyU: (seq<real>, seq<real>) -> Outcome)

  datatype Test = TTest | MannWhitneyU
  datatype Group = GroupA | GroupB

  /** The verdict of the normality step for each sample. */
  datatype Normality = Normality(a: bool, b: bool)

  /** Everything the pipeline decides before the message is written. */
  datatype Decision = Decision(test: Test, p: Num, significant: bool, higher: Group)

  /** The returned dictionary: `p_value`, `significant`, `message`. */
  datatype Comparison = Comparison(pValue: Num, significant: bool, message: string)

  /** The fixed threshold used both for normality and for significance. */
  const Alpha: real := 0.05

  // ---------------------------------------------------------------------
  // Sanitising

  /** What one entry contributes to the filtered sample. */
  function Kept(n: Num): seq<real> {
    match n
    case NaN => []
    case Val(x) => [x]
  }

  /** `a[~np.isnan(a)]`: the real values of `s`, NaN entries dropped. */
  function DropNaN(s: seq<Num>): (r: seq<real>)
    ensures |r| <= |s|
    ensures |r| == |s| <==> NaN !in s
  {
    if s == [] then [] else Kept(s[0]) + DropNaN(s[1..])
  }

  /** Filtering distributes over concatenation: together with
      `DropNaN([NaN]) == []` and `DropNaN([Val(x)]) == [x]` this pins the
      filter down as "the non-NaN values, in their original order". */
  lemma {:induction false} DropNaNAppend(s: seq<Num>, t: seq<Num>)
    ensures DropNaN(s + t) == DropNaN(s) + DropNaN(t)
  {
    if s != [] {
      var h := Kept(s[0]);
      assert (s + t)[0] == s[0];
      assert (s + t)[1..] == s[1..] + t;
      DropNaNAppend(s[1..], t);
      assert DropNaN(s + t) == h + DropNaN(s[1..] + t);
      assert h + (DropNaN(s[1..]) + DropNaN(t)) == (h + DropNaN(s[1..])) + DropNaN(t);
    } else {
      assert s + t == t;
    }
  }

  lemma DropNaNSingletons(x: real)
    ensures DropNaN([NaN]) == [] && DropNaN([Val(x)]) == [x]
  {
  }

  /** Exactly the non-NaN values survive: `x` is kept iff `Val(x)` occurs. */
  lemma {:induction false} DropNaNMembers(s: seq<Num>, x: real)
    ensures x in DropNaN(s) <==> Val(x) in s
  {
    if s != [] {
      DropNaNMembers(s[1..], x);
      assert DropNaN(s) == Kept(s[0]) + DropNaN(s[1..]);
      assert s == [s[0]] + s[1..];
    }
  }

  /** A sample without NaN entries is kept whole, in order. */
  lemma {:induction false} DropNaNKeepsValues(s: seq<Num>)
    requires forall i :: 0 <= i < |s| ==> s[i].Val?
    ensures |DropNaN(s)| == |s|
    ensures forall i :: 0 <= i < |s| ==> DropNaN(s)[i] == s[i].r
  {
    if s != [] {
      DropNaNKeepsValues(s[1..]);
    }
  }

  /** Inserting a NaN between two parts of a sample does not change the
      filtered sample. */
  lemma {:induction false} DropNaNIgnoresInsertedNaN(u: seq<Num>, v: seq<Num>)
    ensures DropNaN(u + [NaN] + v) == DropNaN(u + v)
  {
    DropNaNSingletons(0.0);
    DropNaNAppend(u + [NaN], v);
    DropNaNAppend(u, [NaN]);
    DropNaNAppend(u, v);
  }

  // ---------------------------------------------------------------------
  // Normality

  /** `pvalue >= 0.05`; a NaN p-value compares false. */
  predicate PassesNormality(p: Num): (b: bool)
    ensures p.NaN? ==> !b
    ensures p.Val? ==> (b <==> !Significant(p))
  {
    p.Val? && p.r >= Alpha
  }

  /** Reference reading of "normal": the diagnostic completed on BOTH
      samples and this sample's p-value reached the threshold. */
  predicate NormalIn(be: Backend, s: seq<real>, other: seq<real>) {
    be.shapiro(s).Completed? && be.shapiro(other).Completed? && PassesNormality(be.shapiro(s).p)
  }

  /** The normality step raises (uncaught) exactly when a diagnostic that
      actually runs raises something other than `ValueError`; the diagnostic
      on `b` does not run when the one on `a` raised. */
  predicate NormalityRaises(be: Backend, a: seq<real>, b: seq<real>) {
    || be.shapiro(a) == Raised(OtherError)
    || (be.shapiro(a).Completed? && be.shapiro(b) == Raised(OtherError))
  }

  /** The try/except around the two Shapiro-Wilk calls. */
  function Classify(be: Backend, a: seq<real>, b: seq<real>): (r: Result<Normality>)
    ensures r.Err? <==> NormalityRaises(be, a, b)
    ensures r.Err? ==> r.error == OtherError
    ensures r.Ok? ==> (r.value.a <==> NormalIn(be, a, b))
    ensures r.Ok? ==> (r.value.b <==> NormalIn(be, b, a))
    ensures r.Ok? && (be.shapiro(a).Raised? || be.shapiro(b).Raised?) ==> !r.value.a && !r.value.b
  {
    match be.shapiro(a)
    case Raised(ValueError) => Ok(Normality(false, false))
    case Raised(OtherError) => Err(OtherError)
    case Completed(pa) =>
      match be.shapiro(b)
      case Raised(ValueError) => Ok(Normality(false, false))
      case Raised(OtherError) => Err(OtherError)
      case Completed(pb) => Ok(Normality(PassesNormality(pa), PassesNormality(pb)))
  }

  // ---------------------------------------------------------------------
  // Test selection and significance

  /** The T-test when both samples are normal, the Mann-Whitney U test otherwise. */
  function Select(n: Normality): (t: Test)
    ensures t == TTest <==> n.a && n.b
    ensures t == MannWhitneyU <==> !n.a || !n.b
  {
    if n.a && n.b then TTest else MannWhitneyU
  }

  function TestName(t: Test): string {
    match t
    case TTest => "T-test"
    case MannWhitneyU => "Mann-Whitney U test"
  }

  /** Runs the one selected test; the other backend routine is never consulted. */
  function Run(be: Backend, t: Test, a: seq<real>, b: seq<real>): (o: Outcome)
    ensures t == TTest ==> o == be.ttest(a, b)
    ensures t == MannWhitneyU ==> o == be.mannWhitneyU(a, b)
  {
    match t
    case TTest => be.ttest(a, b)
    case MannWhitneyU => be.mannWhitneyU(a, b)
  }

  /** `p_value < 0.05`; a NaN p-value compares false. */
  predicate Significant(p: Num): (s: bool)
    ensures p.NaN? ==> !s
    ensures p.Val? ==> (s <==> p.r < Alpha)
  {
    p.Val? && p.r < Alpha
  }

  /** At the threshold itself a sample counts as normal and a difference as
      not significant. */
  lemma ThresholdBoundary()
    ensures PassesNormality(Val(Alpha)) && !Significant(Val(Alpha))
    ensures forall p :: Significant(p) ==> !PassesNormality(p)
  {
  }

  // ---------------------------------------------------------------------
  // Direction

  function Sum(s: seq<real>): real {
    if s == [] then 0.0 else s[0] + Sum(s[1..])
  }

  /** `np.mean`: NaN for an empty sample. */
  function Mean(s: seq<real>): (m: Num)
    ensures m.Val? <==> s != []
    ensures m.Val? ==> m.r * |s| as real == Sum(s)
  {
    if s == [] then NaN else Val(Sum(s) / |s| as real)
  }

  /** Mean of `a` strictly above mean of `b`, stated without division. */
  predicate MeanAbove(a: seq<real>, b: seq<real>) {
    a != [] && b != [] && Sum(a) * |b| as real > Sum(b) * |a| as real
  }

  /** `x / m > y / n` iff `x * n > y * m`, for positive `m` and `n`. */
  lemma QuotientCompare(x: real, m: real, y: real, n: real)
    requires m > 0.0 && n > 0.0
    ensures x / m > y / n <==> x * n > y * m
  {
  }

  /** `mean_a > mean_b` picks group A; everything else, ties and NaN
      means included, picks group B. */
  function Higher(a: seq<real>, b: seq<real>): (g: Group)
    ensures g == GroupA <==> MeanAbove(a, b)
  {
    var ma, mb := Mean(a), Mean(b);
    if ma.Val? && mb.Val? then
      QuotientCompare(Sum(a), |a| as real, Sum(b), |b| as real);
      if ma.r > mb.r then GroupA else GroupB
    else GroupB
  }

  /** Equal means never name group A. */
  lemma TieGoesToB(a: seq<real>, b: seq<real>)
    requires a != [] && b != [] && Sum(a) * |b| as real == Sum(b) * |a| as real
    ensures Higher(a, b) == GroupB
  {
    assert !MeanAbove(a, b);
  }

  // ---------------------------------------------------------------------
  // The pipeline on sanitised samples

  /** The test the pipeline runs, by the reference reading of normality. */
  function SelectedTest(be: Backend, a: seq<real>, b: seq<real>): Test {
    if NormalIn(be, a, b) && NormalIn(be, b, a) then TTest else MannWhitneyU
  }

  /** Classification, selection, the selected test, threshold and direction. */
  function Decide(be: Backend, a: seq<real>, b: seq<real>): (r: Result<Decision>)
    ensures r.Err? <==>
      NormalityRaises(be, a, b) || Run(be, SelectedTest(be, a, b), a, b).Raised?
    ensures r.Err? ==> r.error == (if NormalityRaises(be, a, b) then OtherError
                                   else Run(be, SelectedTest(be, a, b), a, b).e)
    ensures r.Ok? ==> r.value.test == SelectedTest(be, a, b)
    ensures r.Ok? ==> (r.value.test == TTest <==>
      && be.shapiro(a).Completed? && PassesNormality(be.shapiro(a).p)
      && be.shapiro(b).Completed? && PassesNormality(be.shapiro(b).p))
    ensures r.Ok? ==> Run(be, r.value.test, a, b) == Completed(r.value.p)
    ensures r.Ok? ==> (r.value.significant <==> r.value.p.Val? && r.value.p.r < Alpha)
    ensures r.Ok? ==> (r.value.higher == GroupA <==> MeanAbove(a, b))
  {
    match Classify(be, a, b)
    case Err(e) => Err(e)
    case Ok(n) =>
      var test := Select(n);
      match Run(be, test, a, b)
      case Raised(e) => Err(e)
      case Completed(p) => Ok(Decision(test, p, Significant(p), Higher(a, b)))
  }

  // ---------------------------------------------------------------------
  // The message

  function DirectionSentence(g: Group): string {
    match g
    case GroupA => "Group A mean is higher."
    case GroupB => "Group B mean is higher."
  }

  const SignificantHead: string := "Significant difference found"
  const NoSignificantHead: string := "No significant difference found"

  /** How the message opens. */
  function Lead(significant: bool): string {
    if significant then SignificantHead else NoSignificantHead
  }

  /** What follows the test name's full stop: a space and the direction
      sentence when significant, nothing otherwise. */
  function DirectionPart(d: Decision): string {
    if d.significant then " " + DirectionSentence(d.higher) else ""
  }

  /** Everything after the lead: the p-value, the test used, the direction. */
  function AfterLead(d: Decision, pText: string): string {
    " (p = " + pText + "). Used " + TestName(d.test) + "." + DirectionPart(d)
  }

  /** `(body + " " + direction).strip()` for a body and a direction sentence
      that carry no whitespace at their ends: the trailing space left by an
      empty direction is removed and nothing else changes. */
  lemma StripJoined(body: string, direction: string)
    requires PyText.Trimmed(body)
    requires direction == [] || PyText.Trimmed(direction)
    ensures PyText.Strip(body + " " + direction)
         == if direction == [] then body else body + " " + direction
  {
    assert PyText.AllSpace(" ");
    if direction == [] {
      assert body + " " + direction == [] + body + " ";
      PyText.StripExact([], body, " ");
    } else {
      var t := body + " " + direction;
      assert t[0] == body[0] && t[|t| - 1] == direction[|direction| - 1];
      assert t == [] + t + [];
      PyText.StripExact([], t, []);
    }
  }

  /** The two f-strings of the source and the final `.strip()`. */
  function Message(lead: string, pText: string, name: string, direction: string): (m: string)
    ensures m != [] ==> !PyText.IsSpace(m[0]) && !PyText.IsSpace(m[|m| - 1])
  {
    var msgStart := lead + " (p = " + pText + ").";
    PyText.Strip(msgStart + " Used " + name + ". " + direction)
  }

  /** The source's `msg_start + " Used " + name + ". " + direction`
      regrouped as body, space, direction. */
  lemma Regroup(lead: string, pText: string, name: string, direction: string)
    ensures lead + " (p = " + pText + ")." + " Used " + name + ". " + direction
         == (lead + (" (p = " + pText + "). Used " + name + ".")) + " " + direction
  {
  }

  /** With a lead that does not start with whitespace and a direction that
      is empty or trimmed, `.strip()` only removes the space an empty
      direction leaves behind. */
  lemma MessageStripped(lead: string, pText: string, name: string, direction: string)
    requires lead != [] && !PyText.IsSpace(lead[0])
    requires direction == [] || PyText.Trimmed(direction)
    ensures Message(lead, pText, name, direction)
         == lead + (" (p = " + pText + "). Used " + name + "."
                    + (if direction == [] then "" else " " + direction))
  {
    var mid := " (p = " + pText + "). Used " + name + ".";
    var body := lead + mid;
    assert body[0] == lead[0];
    assert body[|body| - 1] == '.';
    Regroup(lead, pText, name, direction);
    StripJoined(body, direction);
    if direction == [] {
      assert mid + "" == mid;
    } else {
      calc {
        (lead + mid) + " " + direction;
        (lead + (mid + " ")) + direction;
        lead + ((mid + " ") + direction);
        lead + (mid + (" " + direction));
      }
    }
  }

  /** `f"{msg_start} Used {test_used}. {direction}".strip()`, where `pText`
      is the formatted p-value: the lead, the p-value and the test, and the
      direction sentence exactly when the result is significant. */
  function Render(d: Decision, pText: string): (m: string)
    ensures m == Lead(d.significant) + AfterLead(d, pText)
  {
    var direction := if d.significant then DirectionSentence(d.higher) else "";
    assert Lead(d.significant)[0] in "SN";
    MessageStripped(Lead(d.significant), pText, TestName(d.test), direction);
    Message(Lead(d.significant), pText, TestName(d.test), direction)
  }

  predicate StartsWith(s: string, prefix: string) {
    |prefix| <= |s| && s[..|prefix|] == prefix
  }

  lemma StartsWithConcat(head: string, rest: string)
    ensures StartsWith(head + rest, head)
  {
  }

  /** A string cannot start with two prefixes that differ in their first character. */
  lemma StartsWithExclusive(s: string, p: string, q: string)
    requires p != [] && q != [] && p[0] != q[0]
    requires StartsWith(s, p)
    ensures !StartsWith(s, q)
  {
  }

  /** The message begins with "Significant difference found" exactly when
      the result is significant and with "No significant difference found"
      otherwise, and it ends with a full stop, never with whitespace. */
  lemma RenderShape(d: Decision, pText: string)
    ensures StartsWith(Render(d, pText), SignificantHead) <==> d.significant
    ensures StartsWith(Render(d, pText), NoSignificantHead) <==> !d.significant
    ensures var m := Render(d, pText);
      m != [] && m[|m| - 1] == '.' && !PyText.IsSpace(m[|m| - 1])
  {
    var m := Render(d, pText);
    var rest := AfterLead(d, pText);
    StartsWithConcat(Lead(d.significant), rest);
    assert SignificantHead[0] == 'S' && NoSignificantHead[0] == 'N';
    StartsWithExclusive(m, Lead(d.significant), Lead(!d.significant));
    assert rest[|rest| - 1] == '.';
  }

  /** No directional claim without significance: the message of a result
      that is not significant contains no 'G' (so no "Group A/B ..."),
      provided the formatted p-value contains none. */
  lemma NoDirectionUnlessSignificant(d: Decision, pText: string)
    requires !d.significant && 'G' !in pText
    ensures 'G' !in Render(d, pText)
  {
    assert 'G' !in NoSignificantHead;
    assert 'G' !in TestName(d.test);
    assert 'G' !in AfterLead(d, pText);
  }

  // ---------------------------------------------------------------------
  // compare_groups

  /** `compare_groups(data_a, data_b, method)`; `fmt` is `f"{p:.4f}"`. */
  function CompareGroups(dataA: seq<Num>, dataB: seq<Num>, testMethod: string,
                         be: Backend, fmt: Num -> string): (r: Result<Comparison>)
    ensures var a, b := DropNaN(dataA), DropNaN(dataB);
      r.Err? <==> NormalityRaises(be, a, b) || Run(be, SelectedTest(be, a, b), a, b).Raised?
    ensures var a, b := DropNaN(dataA), DropNaN(dataB);
      r.Err? ==> r.error == (if NormalityRaises(be, a, b) then OtherError
                             else Run(be, SelectedTest(be, a, b), a, b).e)
    ensures var a, b := DropNaN(dataA), DropNaN(dataB);
      r.Ok? ==> Run(be, SelectedTest(be, a, b), a, b) == Completed(r.value.pValue)
    ensures r.Ok? ==> (r.value.significant <==> r.value.pValue.Val? && r.value.pValue.r < Alpha)
    ensures var a, b := DropNaN(dataA), DropNaN(dataB);
      r.Ok? ==>
        r.value.message == Lead(r.value.significant)
          + (" (p = " + fmt(r.value.pValue) + "). Used " + TestName(SelectedTest(be, a, b)) + "."
             + (if r.value.significant
                then " " + DirectionSentence(if MeanAbove(a, b) then GroupA else GroupB)
                else ""))
  {
    var a, b := DropNaN(dataA), DropNaN(dataB);
    match Decide(be, a, b)
    case Err(e) => Err(e)
    case Ok(d) => Ok(Comparison(d.p, d.significant, Render(d, fmt(d.p))))
  }

  /** The `method` argument (here `testMethod`) is ignored. */
  lemma MethodIgnored(dataA: seq<Num>, dataB: seq<Num>, m1: string, m2: string,
                      be: Backend, fmt: Num -> string)
    ensures CompareGroups(dataA, dataB, m1, be, fmt) == CompareGroups(dataA, dataB, m2, be, fmt)
  {
  }

  /** NaN entries are invisible: inserting one into either sample, at any
      position, leaves the whole result unchanged. */
  lemma NaNInsertionInvisible(a1: seq<Num>, a2: seq<Num>, b1: seq<Num>, b2: seq<Num>,
                              testMethod: string, be: Backend, fmt: Num -> string)
    ensures CompareGroups(a1 + [NaN] + a2, b1 + b2, testMethod, be, fmt)
         == CompareGroups(a1 + a2, b1 + b2, testMethod, be, fmt)
    ensures CompareGroups(a1 + a2, b1 + [NaN] + b2, testMethod, be, fmt)
         == CompareGroups(a1 + a2, b1 + b2, testMethod, be, fmt)
  {
    DropNaNIgnoresInsertedNaN(a1, a2);
    DropNaNIgnoresInsertedNaN(b1, b2);
  }

  /** Exactly one test runs: the result does not depend on the routine that
      was not selected. */
  lemma OnlySelectedTestMatters(dataA: seq<Num>, dataB: seq<Num>, testMethod: string,
                                be1: Backend, be2: Backend, fmt: Num -> string)
    requires var a, b := DropNaN(dataA), DropNaN(dataB);
      && be1.shapiro(a) == be2.shapiro(a) && be1.shapiro(b) == be2.shapiro(b)
      && Run(be1, SelectedTest(be1, a, b), a, b) == Run(be2, SelectedTest(be1, a, b), a, b)
    ensures CompareGroups(dataA, dataB, testMethod, be1, fmt) == CompareGroups(dataA, dataB, testMethod, be2, fmt)
  {
  }

  /** A diagnostic that gives no usable p-value, whether it raises
      `ValueError` or completes with a NaN p-value (scipy does one or the
      other for fewer than three observations, depending on its version),
      forces the Mann-Whitney U test, whichever sample it is. The call then
      fails only if that test raises, or if the diagnostic on `b` raises
      another exception after the one on `a` completed. */
  lemma DiagnosticFailureForcesMannWhitney(be: Backend, a: seq<real>, b: seq<real>)
    requires || be.shapiro(a) == Raised(ValueError) || be.shapiro(a) == Completed(NaN)
             || (be.shapiro(a).Completed?
                 && (be.shapiro(b) == Raised(ValueError) || be.shapiro(b) == Completed(NaN)))
    ensures Decide(be, a, b).Ok? ==> Decide(be, a, b).value.test == MannWhitneyU
    ensures Decide(be, a, b).Err? <==>
      (be.shapiro(a).Completed? && be.shapiro(b) == Raised(OtherError))
      || be.mannWhitneyU(a, b).Raised?
  {
  }
}
