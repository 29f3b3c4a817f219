/** The verdict of the court-vision evaluation over given errors, line metrics and uncertainties. */
module CourtVerdict {
  import opened Common
  import opened CourtQuantile

  const KEYPOINTS: nat := 12
  const CORNERS: nat := 4
  const LINES: nat := 8
  const REQUIRED: nat := 6
  const ENOUGH: nat := 6
  const MIN_COVERAGE: real := 0.30
  const MIN_SUPPORT: real := 0.70
  const MAX_FEET: real := 0.5

  /** A visible keypoint with its error; hidden ones carry none. */
  datatype Keypoint = Keypoint(error: real, uncertainty: real)
  datatype Metric = Metric(p95: real, coverage: real, support: real)
  datatype Line = Line(metric: Option<Metric>, uncertainty: real)

  /** Corners come first among the keypoints, required lines first among the lines. */
  datatype Frame = Frame(
    fullySupported: bool, tolerance: real, keypoints: seq<Option<Keypoint>>, lines: seq<Line>, feetP95: Option<real>)

  datatype Verdict = Accept | Abstain | Incorrect

  datatype Reason =
    | KeypointMisaligned(keypoint: nat)
    | LineMisaligned(line: nat)
    | PartialTarget
    | InsufficientKeypoints
    | InsufficientLineSupport(line: nat)
    | UncertaintyTooLarge
    | ProjectionError
    | LineError
    | CourtError

  /** The labels' schema: exactly the named keypoints and lines, uncertainties not negative. */
  ghost predicate Labelled(f: Frame) {
    |f.keypoints| == KEYPOINTS && |f.lines| == LINES && f.tolerance > 0.0
    && (forall i :: 0 <= i < KEYPOINTS && f.keypoints[i].Some? ==> f.keypoints[i].value.uncertainty >= 0.0)
    && (forall i :: 0 <= i < LINES ==> f.lines[i].uncertainty >= 0.0)
  }

  predicate Contradicts(k: Option<Keypoint>, tolerance: real) {
    k.Some? && k.value.error > tolerance + k.value.uncertainty
  }

  predicate LineContradicts(l: Line, tolerance: real) {
    l.metric.Some? && l.metric.value.p95 > tolerance + l.uncertainty
  }

  predicate Thin(l: Line) {
    l.metric.None? || l.metric.value.coverage < MIN_COVERAGE || l.metric.value.support < MIN_SUPPORT
  }

  predicate ErrorBeyond(k: Option<Keypoint>, tolerance: real) { k.Some? && k.value.error > tolerance }
  predicate UncertainBeyond(k: Option<Keypoint>, tolerance: real) { k.Some? && k.value.uncertainty > tolerance }
  predicate LineBeyond(l: Line, tolerance: real) { l.metric.Some? && l.metric.value.p95 > tolerance }

  function Visible(ks: seq<Option<Keypoint>>): nat {
    if ks == [] then 0 else Visible(ks[..|ks| - 1]) + if ks[|ks| - 1].Some? then 1 else 0
  }

  predicate IsContradiction(r: Reason) { r.KeypointMisaligned? || r.LineMisaligned? }

  /** What each reason claims about the frame. */
  ghost predicate Claims(f: Frame, r: Reason)
    requires Labelled(f)
  {
    match r
    case KeypointMisaligned(i) => i < KEYPOINTS && Contradicts(f.keypoints[i], f.tolerance)
    case LineMisaligned(i) => i < LINES && LineContradicts(f.lines[i], f.tolerance)
    case PartialTarget => !f.fullySupported
    case InsufficientKeypoints =>
      (exists i :: 0 <= i < CORNERS && f.keypoints[i].None?) || Visible(f.keypoints) < ENOUGH
    case InsufficientLineSupport(i) => i < REQUIRED && Thin(f.lines[i])
    case UncertaintyTooLarge =>
      SomeKeypointUncertain(f) || (exists i :: 0 <= i < REQUIRED && f.lines[i].uncertainty > f.tolerance)
    case ProjectionError => SomeKeypointBeyond(f)
    case LineError => SomeLineBeyond(f)
    case CourtError => f.feetP95.Some? && f.feetP95.value > MAX_FEET
  }

  ghost predicate SomeKeypointUncertain(f: Frame)
    requires Labelled(f)
  {
    exists i :: 0 <= i < KEYPOINTS && UncertainBeyond(f.keypoints[i], f.tolerance)
  }

  ghost predicate SomeKeypointBeyond(f: Frame)
    requires Labelled(f)
  {
    exists i :: 0 <= i < KEYPOINTS && ErrorBeyond(f.keypoints[i], f.tolerance)
  }

  ghost predicate SomeLineBeyond(f: Frame)
    requires Labelled(f)
  {
    exists i :: 0 <= i < LINES && LineBeyond(f.lines[i], f.tolerance)
  }

  /** The loop of `evaluate` over the keypoints. */
  method JudgeKeypoints(f: Frame) returns (reasons: seq<Reason>, visible: nat, uncertain: bool, beyond: bool)
    requires Labelled(f)
    ensures forall r :: r in reasons ==> r.KeypointMisaligned?
    ensures forall k: nat ::
            KeypointMisaligned(k) in reasons <==> k < KEYPOINTS && Contradicts(f.keypoints[k], f.tolerance)
    ensures visible == Visible(f.keypoints)
    ensures uncertain <==> exists k :: 0 <= k < KEYPOINTS && UncertainBeyond(f.keypoints[k], f.tolerance)
    ensures beyond <==> exists k :: 0 <= k < KEYPOINTS && ErrorBeyond(f.keypoints[k], f.tolerance)
  {
    reasons, visible, uncertain, beyond := [], 0, false, false;
    for i := 0 to KEYPOINTS
      invariant forall r :: r in reasons ==> r.KeypointMisaligned?
      invariant forall k: nat :: KeypointMisaligned(k) in reasons <==> k < i && Contradicts(f.keypoints[k], f.tolerance)
      invariant visible == Visible(f.keypoints[..i])
      invariant uncertain <==> exists k :: 0 <= k < i && UncertainBeyond(f.keypoints[k], f.tolerance)
      invariant beyond <==> exists k :: 0 <= k < i && ErrorBeyond(f.keypoints[k], f.tolerance)
    {
      var k := f.keypoints[i];
      assert f.keypoints[..i + 1][..i] == f.keypoints[..i];
      if k.Some? {
        visible := visible + 1;
        uncertain := uncertain || UncertainBeyond(k, f.tolerance);
        beyond := beyond || ErrorBeyond(k, f.tolerance);
        if Contradicts(k, f.tolerance) { reasons := reasons + [KeypointMisaligned(i)]; }
      }
    }
    assert f.keypoints[..KEYPOINTS] == f.keypoints;
  }

  /** The loop of `evaluate` over the lines. */
  method JudgeLines(f: Frame) returns (reasons: seq<Reason>, beyond: bool)
    requires Labelled(f)
    ensures forall r :: r in reasons ==> r.LineMisaligned?
    ensures forall k: nat :: LineMisaligned(k) in reasons <==> k < LINES && LineContradicts(f.lines[k], f.tolerance)
    ensures beyond <==> exists k :: 0 <= k < LINES && LineBeyond(f.lines[k], f.tolerance)
  {
    reasons, beyond := [], false;
    for i := 0 to LINES
      invariant forall r :: r in reasons ==> r.LineMisaligned?
      invariant forall k: nat :: LineMisaligned(k) in reasons <==> k < i && LineContradicts(f.lines[k], f.tolerance)
      invariant beyond <==> exists k :: 0 <= k < i && LineBeyond(f.lines[k], f.tolerance)
    {
      beyond := beyond || LineBeyond(f.lines[i], f.tolerance);
      if LineContradicts(f.lines[i], f.tolerance) { reasons := reasons + [LineMisaligned(i)]; }
    }
  }

  /** The verdict half of `evaluate`: contradictions first, then everything that is missing. */
  method Judge(f: Frame) returns (verdict: Verdict, reasons: seq<Reason>)
    requires Labelled(f)
    ensures verdict == Incorrect <==> Contradicted(f)
    ensures verdict == Accept <==> !Contradicted(f) && Sufficient(f)
    ensures verdict == Accept <==> reasons == []
    ensures verdict == Incorrect ==> forall r :: r in reasons <==> IsContradiction(r) && Claims(f, r)
    ensures verdict == Abstain ==> forall r :: r in reasons <==> !IsContradiction(r) && Claims(f, r)
  {
    hide Visible, UncertainBeyond, ErrorBeyond, Contradicts, LineContradicts, LineBeyond;
    var keypoints, visible, uncertain, beyond := JudgeKeypoints(f);
    var lines, lineBeyond := JudgeLines(f);
    reasons := keypoints + lines;
    if reasons != [] {
      assert reasons[0] in keypoints || reasons[0] in lines;
      return Incorrect, reasons;
    }
    assert forall k: nat :: KeypointMisaligned(k) !in keypoints && LineMisaligned(k) !in lines;
    reasons := Missing(f, visible, uncertain, beyond, lineBeyond);
    verdict := if reasons != [] then Abstain else Accept;
  }

  ghost predicate Contradicted(f: Frame)
    requires Labelled(f)
  {
    (exists i :: 0 <= i < KEYPOINTS && Contradicts(f.keypoints[i], f.tolerance))
    || (exists i :: 0 <= i < LINES && LineContradicts(f.lines[i], f.tolerance))
  }

  ghost predicate KeypointsSuffice(f: Frame)
    requires Labelled(f)
  {
    (forall i :: 0 <= i < CORNERS ==> f.keypoints[i].Some?) && Visible(f.keypoints) >= ENOUGH
    && (forall i :: 0 <= i < KEYPOINTS ==>
      !UncertainBeyond(f.keypoints[i], f.tolerance) && !ErrorBeyond(f.keypoints[i], f.tolerance))
  }

  ghost predicate LinesSuffice(f: Frame)
    requires Labelled(f)
  {
    (forall i :: 0 <= i < REQUIRED ==> !Thin(f.lines[i]) && f.lines[i].uncertainty <= f.tolerance)
    && (forall i :: 0 <= i < LINES ==> !LineBeyond(f.lines[i], f.tolerance))
  }

  /** Nothing is missing for acceptance. */
  ghost predicate Sufficient(f: Frame)
    requires Labelled(f)
  {
    f.fullySupported && KeypointsSuffice(f) && LinesSuffice(f) && (f.feetP95.Some? ==> f.feetP95.value <= MAX_FEET)
  }

  /** Reasons about what was observed at all; the others are about how precisely. */
  predicate AboutEvidence(r: Reason) { r.PartialTarget? || r.InsufficientKeypoints? || r.InsufficientLineSupport? }

  predicate LinesUncertain(f: Frame, n: nat)
    requires n <= |f.lines|
  {
    exists k :: 0 <= k < n && f.lines[k].uncertainty > f.tolerance
  }

  /** The first reasons of the list: target, keypoints and required lines. */
  method MissingEvidence(f: Frame, visible: nat) returns (missing: seq<Reason>, linesUncertain: bool)
    requires Labelled(f) && visible == Visible(f.keypoints)
    ensures forall r :: r in missing <==> AboutEvidence(r) && Claims(f, r)
    ensures linesUncertain <==> LinesUncertain(f, REQUIRED)
  {
    missing := [];
    if !f.fullySupported { missing := missing + [PartialTarget]; }
    var corners := f.keypoints[0].Some? && f.keypoints[1].Some? && f.keypoints[2].Some? && f.keypoints[3].Some?;
    if !corners || visible < ENOUGH { missing := missing + [InsufficientKeypoints]; }
    ghost var before := missing;
    assert forall r :: r in before <==> (r == PartialTarget || r == InsufficientKeypoints) && Claims(f, r);
    linesUncertain := false;
    for i := 0 to REQUIRED
      invariant forall r ::
                r in missing <==> r in before || (r.InsufficientLineSupport? && r.line < i && Thin(f.lines[r.line]))
      invariant linesUncertain <==> LinesUncertain(f, i)
    {
      if Thin(f.lines[i]) { missing := missing + [InsufficientLineSupport(i)]; }
      linesUncertain := linesUncertain || f.lines[i].uncertainty > f.tolerance;
    }
  }

  /** The list of what is missing, in the order of the source. */
  method Missing(f: Frame, visible: nat, uncertain: bool, beyond: bool, lineBeyond: bool) returns (missing: seq<Reason>)
    requires Labelled(f) && visible == Visible(f.keypoints)
    requires uncertain == SomeKeypointUncertain(f) && beyond == SomeKeypointBeyond(f) && lineBeyond == SomeLineBeyond(f)
    ensures forall r :: r in missing <==> !IsContradiction(r) && Claims(f, r)
    ensures missing == [] <==> Sufficient(f)
  {
    hide Visible, Labelled, SomeKeypointUncertain, SomeKeypointBeyond, SomeLineBeyond, Sufficient;
    var linesUncertain: bool;
    missing, linesUncertain := MissingEvidence(f, visible);
    assert Claims(f, UncertaintyTooLarge) == (uncertain || linesUncertain);
    assert Claims(f, ProjectionError) == beyond && Claims(f, LineError) == lineBeyond;
    assert Claims(f, CourtError) == (f.feetP95.Some? && f.feetP95.value > MAX_FEET);
    hide Claims;
    if uncertain || linesUncertain { missing := missing + [UncertaintyTooLarge]; }
    if beyond { missing := missing + [ProjectionError]; }
    if lineBeyond { missing := missing + [LineError]; }
    if f.feetP95.Some? && f.feetP95.value > MAX_FEET { missing := missing + [CourtError]; }
    NothingMissing(f, missing);
  }

  /** No claim against acceptance holds exactly when everything suffices. */
  lemma NothingMissing(f: Frame, missing: seq<Reason>)
    requires Labelled(f) && forall r :: r in missing <==> !IsContradiction(r) && Claims(f, r)
    ensures missing == [] <==> Sufficient(f)
  {
    if missing != [] {
      assert Claims(f, missing[0]) && !IsContradiction(missing[0]);
    } else {
      assert !Claims(f, PartialTarget) && !Claims(f, InsufficientKeypoints) && !Claims(f, UncertaintyTooLarge)
             && !Claims(f, ProjectionError) && !Claims(f, LineError) && !Claims(f, CourtError);
      forall i | 0 <= i < REQUIRED ensures !Thin(f.lines[i]) {
        assert !Claims(f, InsufficientLineSupport(i));
      }
    }
  }

  // ---------------------------------------------------------------- what the verdict means

  ghost function VerdictOf(f: Frame): (v: Verdict)
    requires Labelled(f)
  {
    if Contradicted(f) then Incorrect else if Sufficient(f) then Accept else Abstain
  }

  /** Nothing missing already rules out a contradiction. */
  lemma AcceptedExactlyWhenSufficient(f: Frame)
    requires Labelled(f)
    ensures Sufficient(f) ==> !Contradicted(f)
    ensures VerdictOf(f) == Accept <==> Sufficient(f)
  {
    if Sufficient(f) {
      forall i | 0 <= i < KEYPOINTS ensures !Contradicts(f.keypoints[i], f.tolerance) {
        assert !ErrorBeyond(f.keypoints[i], f.tolerance);
      }
      forall i | 0 <= i < LINES ensures !LineContradicts(f.lines[i], f.tolerance) {
        assert !LineBeyond(f.lines[i], f.tolerance);
      }
    }
  }

  /** The same observations with larger stated uncertainties. */
  ghost predicate LessCertain(f: Frame, g: Frame)
    requires Labelled(f) && Labelled(g)
  {
    g.fullySupported == f.fullySupported && g.tolerance == f.tolerance && g.feetP95 == f.feetP95
    && (forall i :: 0 <= i < KEYPOINTS ==> KeypointLessCertain(f.keypoints[i], g.keypoints[i]))
    && (forall i :: 0 <= i < LINES ==>
      g.lines[i].metric == f.lines[i].metric && f.lines[i].uncertainty <= g.lines[i].uncertainty)
  }

  predicate KeypointLessCertain(p: Option<Keypoint>, q: Option<Keypoint>) {
    p.Some? == q.Some? && (p.Some? ==> q.value.error == p.value.error && p.value.uncertainty <= q.value.uncertainty)
  }

  lemma {:induction false} VisibleSame(p: seq<Option<Keypoint>>, q: seq<Option<Keypoint>>)
    requires |p| == |q| && forall i :: 0 <= i < |p| ==> KeypointLessCertain(p[i], q[i])
    ensures Visible(p) == Visible(q)
  {
    if p != [] { VisibleSame(p[..|p| - 1], q[..|q| - 1]); }
  }

  /** Raising uncertainties never turns abstain or incorrect into accept, nor accept or abstain into
      incorrect: doubt can only move a verdict towards abstaining. */
  lemma DoubtOnlyAbstains(f: Frame, g: Frame)
    requires Labelled(f) && Labelled(g) && LessCertain(f, g)
    ensures VerdictOf(g) == Accept ==> VerdictOf(f) == Accept
    ensures VerdictOf(g) == Incorrect ==> VerdictOf(f) == Incorrect
  {
    VisibleSame(f.keypoints, g.keypoints);
    AcceptedExactlyWhenSufficient(f);
    AcceptedExactlyWhenSufficient(g);
    forall i | 0 <= i < KEYPOINTS
      ensures Contradicts(g.keypoints[i], g.tolerance) ==> Contradicts(f.keypoints[i], f.tolerance)
      ensures UncertainBeyond(f.keypoints[i], f.tolerance) ==> UncertainBeyond(g.keypoints[i], g.tolerance)
      ensures ErrorBeyond(f.keypoints[i], f.tolerance) ==> ErrorBeyond(g.keypoints[i], g.tolerance)
    {
      assert KeypointLessCertain(f.keypoints[i], g.keypoints[i]);
    }
    assert forall i :: 0 <= i < LINES && LineContradicts(g.lines[i], g.tolerance) ==>
           LineContradicts(f.lines[i], f.tolerance);
    if Sufficient(g) {
      assert forall i :: 0 <= i < CORNERS ==>
             KeypointLessCertain(f.keypoints[i], g.keypoints[i]) && g.keypoints[i].Some?;
      assert forall i :: 0 <= i < REQUIRED ==> !Thin(g.lines[i]) && f.lines[i].metric == g.lines[i].metric;
      assert forall i :: 0 <= i < LINES ==> !LineBeyond(g.lines[i], g.tolerance);
      assert KeypointsSuffice(f) && LinesSuffice(f);
    }
  }

  /** Every metric of the frame was measured on some weighted samples. */
  ghost predicate Measured(f: Frame, samples: seq<seq<Sample>>)
    requires Labelled(f)
  {
    |samples| == LINES
    && forall i :: 0 <= i < LINES && f.lines[i].metric.Some? ==>
      MeasuredOn(f.lines[i].metric.value, samples[i], f.tolerance)
  }

  ghost predicate MeasuredOn(m: Metric, samples: seq<Sample>, tolerance: real) {
    Weighted(samples) && Total(samples) > 0.0 && IsP95(samples, m.p95) && m.support == Support(samples, tolerance)
  }

  /** The frame as it would be judged without the support threshold. */
  function SupportIgnored(f: Frame): Frame {
    f.(lines := seq(|f.lines|, i requires 0 <= i < |f.lines| => FullSupport(f.lines[i])))
  }

  function FullSupport(l: Line): Line {
    if l.metric.Some? then l.(metric := Some(l.metric.value.(support := 1.0))) else l
  }

  /** A measured line with less than the required support is beyond tolerance at its p95. */
  lemma ThinSupportIsBeyond(m: Metric, samples: seq<Sample>, tolerance: real)
    requires MeasuredOn(m, samples, tolerance) && m.support < MIN_SUPPORT
    ensures m.p95 > tolerance
  {
    P95WithinMeansSupport(samples, m.p95, tolerance);
  }

  /** On measured lines the 0.70 support test never decides: dropping it changes no verdict, and
      where it fires there is a contradiction or a line error as well. */
  lemma SupportTestNeverDecides(f: Frame, samples: seq<seq<Sample>>)
    requires Labelled(f) && Measured(f, samples)
    ensures Labelled(SupportIgnored(f)) && VerdictOf(SupportIgnored(f)) == VerdictOf(f)
    ensures forall i :: 0 <= i < LINES && f.lines[i].metric.Some? && f.lines[i].metric.value.support < MIN_SUPPORT
              ==> LineBeyond(f.lines[i], f.tolerance)
  {
    var g := SupportIgnored(f);
    assert forall i :: 0 <= i < LINES ==> g.lines[i] == FullSupport(f.lines[i]);
    forall i | 0 <= i < LINES && f.lines[i].metric.Some? && f.lines[i].metric.value.support < MIN_SUPPORT
      ensures LineBeyond(f.lines[i], f.tolerance)
    {
      ThinSupportIsBeyond(f.lines[i].metric.value, samples[i], f.tolerance);
    }
    hide MeasuredOn, Measured;
    forall i | 0 <= i < LINES
      ensures LineBeyond(g.lines[i], f.tolerance) == LineBeyond(f.lines[i], f.tolerance)
      ensures LineContradicts(g.lines[i], f.tolerance) == LineContradicts(f.lines[i], f.tolerance)
      ensures Thin(f.lines[i]) ==> Thin(g.lines[i]) || LineBeyond(f.lines[i], f.tolerance)
      ensures Thin(g.lines[i]) ==> Thin(f.lines[i])
    {
      assert g.lines[i] == FullSupport(f.lines[i]);
    }
    hide FullSupport, LineBeyond, LineContradicts, Thin, SupportIgnored;
    assert Contradicted(g) == Contradicted(f);
    assert KeypointsSuffice(g) == KeypointsSuffice(f);
    assert LinesSuffice(f) ==> LinesSuffice(g);
    assert LinesSuffice(g) ==> LinesSuffice(f);
  }
}
