/** The streaming result state machine: ranking, progress, policies, and the events a caller sees. */
module StreamState {
  import opened Routing
  import opened Ranking

  datatype Phase = Heuristic | Exhaustive

  datatype Finality = FastLaneOnly | HeuristicOnly | ExhaustiveDone | StopPolicySatisfied | Stopped

  datatype ThresholdMode = All | Any

  datatype Policy = Policy(mode: ThresholdMode, minConfidence: Option<nat>, minFraction: Option<nat>)

  datatype Completion = FastLaneExhausted | HeuristicExhausted | ExhaustiveCompletion

  datatype Config = Config(completion: Completion, workers: nat, emitAll: bool, topK: nat, stopPolicy: Option<Policy>, gate: Option<Policy>)

  datatype Progress = Progress(phase: Option<Phase>, evaluated: nat, viable: nat, failed: nat, total: Option<nat>,
                               fraction: Option<nat>, confidence: nat, bestAmount: Option<nat>)

  datatype Report = Report(best: Option<RouteQuote>, topRoutes: seq<RouteQuote>, finality: Finality, progress: Progress)

  datatype Event =
    | Started
    | RouteFound(quote: RouteQuote, rank: Option<nat>)
    | BestUpdated(quote: RouteQuote, previous: Option<RouteQuote>)
    | ProgressMade(progress: Progress)
    | InitialResultsReady(progress: Progress, best: RouteQuote, topRoutes: seq<RouteQuote>)
    | PhaseCompleted(phase: Phase)
    | Completed(report: Report)

  // ---- progress and confidence ----

  function SaturatingMul(a: nat, b: nat): nat { if a * b > USIZE_MAX then USIZE_MAX else a * b }

  function Min(a: nat, b: nat): nat { if a <= b then a else b }

  /** Evaluated share of the candidate universe, in basis points, once the universe is known. */
  function Fraction(evaluated: nat, total: Option<nat>): Option<nat> {
    match total
    case None => None
    case Some(t) => Some(if t == 0 then 10_000 else Min(SaturatingMul(Min(evaluated, t), 10_000) / t, 10_000))
  }

  function Confidence(hasBest: bool, evaluated: nat, total: Option<nat>, heuristicDone: bool): nat {
    if !hasBest then 0
    else if total.Some? && total.value > 0 && evaluated >= total.value then 9_999
    else match Fraction(evaluated, total)
      case Some(f) => Min(9_000 + f / 10, 9_999)
      case None => if heuristicDone then 9_000 else 7_000
  }

  lemma MulMonotone(x: nat, y: nat, t: nat)
    requires x <= y
    ensures x * t <= y * t
  {
  }

  lemma DivMonotone(a: nat, b: nat, t: nat)
    requires a <= b && t > 0
    ensures a / t <= b / t
  {
    var k, m := a / t, b / t;
    assert k * t <= a && b < (m + 1) * t;
    if k >= m + 1 {
      MulMonotone(m + 1, k, t);
    }
  }

  lemma FractionMonotone(e: nat, e': nat, t: nat)
    requires e <= e'
    ensures Fraction(e, Some(t)).value <= Fraction(e', Some(t)).value <= 10_000
  {
    if t > 0 {
      var a, b := SaturatingMul(Min(e, t), 10_000), SaturatingMul(Min(e', t), 10_000);
      assert Min(e, t) * 10_000 <= Min(e', t) * 10_000;
      DivMonotone(a, b, t);
    }
  }

  /** Confidence never falls as results come in, the heuristic phase ends, or the total gets known;
      and short of a final verdict it stays below certainty. */
  lemma ConfidenceMonotone(b: bool, e: nat, total: Option<nat>, h: bool, b': bool, e': nat, total': Option<nat>, h': bool)
    requires (b ==> b') && e <= e' && (h ==> h') && (total.Some? ==> total' == total)
    ensures Confidence(b, e, total, h) <= Confidence(b', e', total', h') <= 9_999
  {
    if b && total'.Some? {
      FractionMonotone(e, e', total'.value);
    }
  }

  /** A share in tenths of a percent, rounded down and kept below the whole. */
  ghost function Tenths(evaluated: nat, total: nat): nat
    requires total > 0
  {
    Min(evaluated * 1_000 / total, 999)
  }

  /** What the number says: nothing found, heuristic results only, the heuristic phase done, or the
      evaluated share of a known universe in tenths of a percent on top of that. */
  lemma ConfidenceMeans(hasBest: bool, evaluated: nat, total: Option<nat>, heuristicDone: bool)
    ensures var c := Confidence(hasBest, evaluated, total, heuristicDone);
            && (c == 0 <==> !hasBest)
            && (c == 7_000 <==> hasBest && total.None? && !heuristicDone)
            && (hasBest && total.None? && heuristicDone ==> c == 9_000)
            && (hasBest && total.Some? && 0 < total.value <= USIZE_MAX / 10_000 ==> c == 9_000 + Tenths(evaluated, total.value))
  {
    hide Tenths;
    if hasBest && total.Some? && 0 < total.value <= USIZE_MAX / 10_000 { KnownShare(evaluated, total.value, heuristicDone); }
  }

  lemma KnownShare(e: nat, t: nat, heuristicDone: bool)
    requires 0 < t <= USIZE_MAX / 10_000
    ensures Confidence(true, e, Some(t), heuristicDone) == 9_000 + Tenths(e, t)
  {
    if e < t {
      ShareInTenths(e, t);
    } else {
      WholeShare(e, t);
    }
  }

  lemma WholeShare(e: nat, t: nat)
    requires 0 < t <= e
    ensures e * 1_000 / t >= 1_000
  {
    Quotient(t * 1_000, t, 1_000);
    DivMonotone(t * 1_000, e * 1_000, t);
  }

  /** A quotient is fixed by its bounds. */
  lemma Quotient(a: nat, t: nat, q: nat)
    requires t > 0 && q * t <= a < q * t + t
    ensures a / t == q
  {
    var k := a / t;
    assert k * t <= a < k * t + t;
    if k < q { MulMonotone(k + 1, q, t); }
    if k > q { MulMonotone(q + 1, k, t); }
  }

  lemma QuotientBounds(a: nat, t: nat)
    requires t > 0
    ensures a / t * t <= a < a / t * t + t
  {
  }

  lemma ShareFits(e: nat, t: nat)
    requires 0 < t <= USIZE_MAX / 10_000
    ensures Fraction(e, Some(t)) == Some(Min(e, t) * 10_000 / t)
  {
    MulMonotone(Min(e, t), t, 10_000);
    DivMonotone(Min(e, t) * 10_000, t * 10_000, t);
    Quotient(t * 10_000, t, 10_000);
  }

  lemma ShareInTenths(e: nat, t: nat)
    requires e < t
    ensures e * 10_000 / t / 10 == e * 1_000 / t < 1_000
  {
    var f := e * 10_000 / t;
    QuotientBounds(e * 10_000, t);
    var k := f / 10;
    MulMonotone(10 * k, f, t);
    MulMonotone(f + 1, 10 * k + 10, t);
    assert 10 * k * t == 10 * (k * t) && (10 * k + 10) * t == 10 * (k * t) + 10 * t;
    assert (f + 1) * t == f * t + t;
    Quotient(e * 1_000, t, k);
    if k >= 1_000 { MulMonotone(1_000, k, t); }
  }

  predicate Satisfied(policy: Policy, p: Progress) {
    var c := if policy.minConfidence.Some? then Some(p.confidence >= policy.minConfidence.value) else None;
    var f := if policy.minFraction.Some? then Some(p.fraction.Some? && p.fraction.value >= policy.minFraction.value) else None;
    match policy.mode
    case All => (c.Some? ==> c.value) && (f.Some? ==> f.value)
    case Any => (c.Some? && c.value) || (f.Some? && f.value)
  }

  /** One demand on progress, in basis points. */
  datatype Threshold = ConfidenceAtLeast(bps: nat) | FractionAtLeast(bps: nat)

  ghost predicate Demands(policy: Policy, d: Threshold) {
    match d
    case ConfidenceAtLeast(bps) => policy.minConfidence == Some(bps)
    case FractionAtLeast(bps) => policy.minFraction == Some(bps)
  }

  /** An unknown fraction reaches nothing. */
  ghost predicate Reaches(p: Progress, d: Threshold) {
    match d
    case ConfidenceAtLeast(bps) => p.confidence >= bps
    case FractionAtLeast(bps) => p.fraction.Some? && p.fraction.value >= bps
  }

  /** All of the policy's demands are reached, or, in the other mode, at least one. */
  ghost predicate Met(policy: Policy, p: Progress) {
    if policy.mode.All? then forall d :: Demands(policy, d) ==> Reaches(p, d)
    else exists d :: Demands(policy, d) && Reaches(p, d)
  }

  lemma SatisfiedIffMet(policy: Policy, p: Progress)
    ensures Satisfied(policy, p) <==> Met(policy, p)
  {
    forall bps | policy.minConfidence == Some(bps) ensures Demands(policy, ConfidenceAtLeast(bps)) {
    }
    forall bps | policy.minFraction == Some(bps) ensures Demands(policy, FractionAtLeast(bps)) {
    }
  }

  // ---- what a trace of events must look like ----

  function Reported(e: Event): Option<nat> {
    match e
    case ProgressMade(p) => Some(p.confidence)
    case InitialResultsReady(p, _, _) => Some(p.confidence)
    case Completed(r) => Some(r.progress.confidence)
    case _ => None
  }

  /** Quote-bearing events come only after the gate has released the initial results. */
  ghost predicate GateRespected(events: seq<Event>, gated: bool) {
    forall i :: 0 <= i < |events| && (events[i].BestUpdated? || events[i].RouteFound?) && gated ==>
      exists j :: 0 <= j < i && events[j].InitialResultsReady?
  }

  ghost predicate ReleasedOnce(events: seq<Event>, gated: bool) {
    && (forall i, j :: 0 <= i < j < |events| ==> !(events[i].InitialResultsReady? && events[j].InitialResultsReady?))
    && (!gated ==> forall i :: 0 <= i < |events| ==> !events[i].InitialResultsReady?)
  }

  ghost predicate BestIncreases(events: seq<Event>) {
    forall i, j :: 0 <= i < j < |events| && events[i].BestUpdated? && events[j].BestUpdated? ==>
      events[i].quote.amountOut < events[j].quote.amountOut
  }

  ghost predicate ConfidenceRises(events: seq<Event>) {
    forall i, j :: 0 <= i < j < |events| && Reported(events[i]).Some? && Reported(events[j]).Some? ==>
      Reported(events[i]).value <= Reported(events[j]).value
  }

  ghost predicate ReportedAtMost(events: seq<Event>, c: nat) {
    forall i :: 0 <= i < |events| && Reported(events[i]).Some? ==> Reported(events[i]).value <= c
  }

  ghost predicate BestAtMost(events: seq<Event>, amount: nat) {
    forall i :: 0 <= i < |events| && events[i].BestUpdated? ==> events[i].quote.amountOut <= amount
  }

  ghost predicate HasRelease(events: seq<Event>) {
    exists i :: 0 <= i < |events| && events[i].InitialResultsReady?
  }

  ghost predicate NoCompleted(events: seq<Event>) {
    forall i :: 0 <= i < |events| ==> !events[i].Completed?
  }

  /** Certainty is announced with the initial results, the callback answers stop, and the run still
      closes with a report. */
  ghost predicate CertaintyWithdrawn(events: seq<Event>, control: nat -> bool) {
    exists i :: 0 <= i < |events| - 1 && events[i].InitialResultsReady? && events[i].progress.confidence == 10_000 && !control(i)
  }

  /** The closing event of a run with report `r`. */
  ghost predicate Closes(events: seq<Event>, i: int, r: Report) {
    0 <= i == |events| - 1 && events[i] == Completed(r)
  }

  /** The `i`-th event releases the initial results at completion: nothing follows it but the report. */
  ghost predicate ReleasedLast(events: seq<Event>, i: int, r: Report) {
    0 <= i < |events| && events[i].InitialResultsReady? && r.best == Some(events[i].best) && (i == |events| - 1 || Closes(events, i + 1, r))
  }

  /** Certainty is told only in the closing report of an exhaustive run with a route, or with the
      results such a run releases at its end; and then the run counts as exhaustive exactly when the
      callback lets it continue. A run without a report never tells it. */
  ghost predicate CertaintyEarned(events: seq<Event>, report: Option<Report>, control: nat -> bool) {
    && (forall i :: 0 <= i < |events| && Reported(events[i]) == Some(10_000) ==>
          && report.Some?
          && if events[i].Completed? then Closes(events, i, report.value) && Certain(report.value)
             else ReleasedLast(events, i, report.value) && (Certain(report.value) <==> control(i)))
    && (report.Some? ==> (report.value.progress.confidence == 10_000 <==> Certain(report.value)))
  }

  /** The search is over and found a route. */
  predicate Certain(r: Report) { r.finality == ExhaustiveDone && r.best.Some? }

  /** What holds of the events of every complete run and of its report, if it has one. Reported
      confidence never falls, except when certainty is withdrawn: that is exactly when it does. */
  ghost predicate Disciplined(events: seq<Event>, config: Config, control: nat -> bool, report: Option<Report>) {
    && GateRespected(events, config.gate.Some?)
    && ReleasedOnce(events, config.gate.Some?)
    && BestIncreases(events)
    && (ConfidenceRises(events) <==> !CertaintyWithdrawn(events, control))
    && CertaintyEarned(events, report, control)
  }

  /** The whole discipline, with the running bounds that make it inductive. */
  ghost predicate TraceOk(events: seq<Event>, gated: bool, released: bool, best: Option<RouteQuote>, confidence: nat) {
    && GateRespected(events, gated) && ReleasedOnce(events, gated)
    && BestIncreases(events) && ConfidenceRises(events)
    && ReportedAtMost(events, confidence)
    && (best.None? ==> forall i :: 0 <= i < |events| ==> !events[i].BestUpdated?)
    && (best.Some? ==> BestAtMost(events, best.value.amountOut))
    && (gated ==> (released <==> HasRelease(events)))
    && (!gated ==> released)
  }

  /** Appending one event, case by case. */
  lemma EmitKeepsTrace(events: seq<Event>, e: Event, gated: bool, released: bool, best: Option<RouteQuote>, confidence: nat)
    requires TraceOk(events, gated, released, best, confidence)
    requires e.Started? || e.PhaseCompleted? || e.ProgressMade? || e.RouteFound? || e.Completed?
    requires Reported(e).Some? ==> Reported(e).value == confidence
    requires e.RouteFound? ==> released
    ensures TraceOk(events + [e], gated, released, best, confidence)
  {
    var events' := events + [e];
    assert forall i :: 0 <= i < |events| ==> events'[i] == events[i];
    ReleaseCarries(events, e, gated);
    if e.RouteFound? && gated {
      var j :| 0 <= j < |events| && events[j].InitialResultsReady?;
      assert events'[j].InitialResultsReady?;
    }
    assert forall i :: 0 <= i < |events'| && events'[i].InitialResultsReady? ==> i < |events|;
  }

  lemma ReleaseCarries(events: seq<Event>, e: Event, gated: bool)
    requires GateRespected(events, gated)
    ensures GateRespected(events + [e], gated) || e.BestUpdated? || e.RouteFound?
    ensures HasRelease(events) ==> HasRelease(events + [e])
    ensures HasRelease(events + [e]) ==> HasRelease(events) || e.InitialResultsReady?
  {
    var events' := events + [e];
    assert forall i :: 0 <= i < |events| ==> events'[i] == events[i];
    if HasRelease(events) {
      var j :| 0 <= j < |events| && events[j].InitialResultsReady?;
      assert events'[j].InitialResultsReady?;
    }
    forall i | 0 <= i < |events| && (events'[i].BestUpdated? || events'[i].RouteFound?) && gated
      ensures exists j :: 0 <= j < i && events'[j].InitialResultsReady?
    {
      var j :| 0 <= j < i && events[j].InitialResultsReady?;
      assert events'[j].InitialResultsReady?;
    }
  }

  /** No event from index `from` on bears a quote. */
  ghost predicate QuietFrom(events: seq<Event>, from: nat) {
    forall i :: from <= i < |events| ==> !events[i].BestUpdated? && !events[i].RouteFound? && !events[i].Completed?
  }

  ghost predicate BestBelow(events: seq<Event>, amount: nat) {
    forall i :: 0 <= i < |events| && events[i].BestUpdated? ==> events[i].quote.amountOut < amount
  }

  lemma EmitBest(events: seq<Event>, quote: RouteQuote, previous: Option<RouteQuote>, gated: bool, confidence: nat)
    requires TraceOk(events, gated, true, Some(quote), confidence) && BestBelow(events, quote.amountOut)
    ensures TraceOk(events + [BestUpdated(quote, previous)], gated, true, Some(quote), confidence)
  {
    var e := BestUpdated(quote, previous);
    var events' := events + [e];
    assert forall i :: 0 <= i < |events| ==> events'[i] == events[i];
    ReleaseCarries(events, e, gated);
    GateCarries(events, e, gated);
  }

  /** Once released, a quote-bearing event respects the gate. */
  lemma GateCarries(events: seq<Event>, e: Event, gated: bool)
    requires GateRespected(events, gated) && (gated ==> HasRelease(events))
    ensures GateRespected(events + [e], gated)
  {
    var events' := events + [e];
    assert forall i :: 0 <= i < |events| ==> events'[i] == events[i];
    forall i | 0 <= i < |events'| && (events'[i].BestUpdated? || events'[i].RouteFound?) && gated
      ensures exists j :: 0 <= j < i && events'[j].InitialResultsReady?
    {
      if i < |events| {
        var j :| 0 <= j < i && events[j].InitialResultsReady?;
        assert events'[j].InitialResultsReady?;
      } else {
        var j :| 0 <= j < |events| && events[j].InitialResultsReady?;
        assert events'[j].InitialResultsReady?;
      }
    }
  }

  lemma EmitRelease(events: seq<Event>, e: Event, best: Option<RouteQuote>, confidence: nat)
    requires TraceOk(events, true, false, best, confidence) && e.InitialResultsReady?
    ensures GateRespected(events + [e], true) && ReleasedOnce(events + [e], true) && BestIncreases(events + [e])
    ensures e.progress.confidence == confidence ==> TraceOk(events + [e], true, true, best, confidence)
    ensures e.progress.confidence >= confidence ==> ConfidenceRises(events + [e]) && ReportedAtMost(events + [e], e.progress.confidence)
  {
    var events' := events + [e];
    assert forall i :: 0 <= i < |events| ==> events'[i] == events[i];
    assert events'[|events|].InitialResultsReady?;
    ReleaseCarries(events, e, true);
    assert forall i :: 0 <= i < |events| ==> !events[i].InitialResultsReady?;
  }

  /** Raising the running bounds keeps a sound trace sound. */
  lemma RaiseBounds(events: seq<Event>, gated: bool, released: bool, best: Option<RouteQuote>, c: nat, best': Option<RouteQuote>, c': nat)
    requires TraceOk(events, gated, released, best, c) && c <= c'
    requires best.Some? ==> best'.Some? && best.value.amountOut <= best'.value.amountOut
    ensures TraceOk(events, gated, released, best', c')
  {
  }

  /** The gate opens now: its policy is met and there is something to release. */
  ghost predicate Opens(config: Config, p: Progress, released: bool, best: Option<RouteQuote>) {
    !released && best.Some? && config.gate.Some? && Met(config.gate.value, p)
  }

  ghost predicate Halts(config: Config, p: Progress, best: Option<RouteQuote>) {
    best.Some? && config.stopPolicy.Some? && Met(config.stopPolicy.value, p)
  }

  /** One progress event and, if the callback goes on and the gate's policy is met, the release. */
  ghost predicate Polices(before: seq<Event>, after: seq<Event>, p: Progress, was: bool, released: bool, best: Option<RouteQuote>, top: seq<RouteQuote>, config: Config, control: nat -> bool) {
    var opens := control(|before|) && Opens(config, p, was, best);
    && after == before + [ProgressMade(p)] + (if opens then [InitialResultsReady(p, best.value, top)] else [])
    && released == (was || opens)
  }

  /** The run goes on exactly if the callback accepts every event and the stop policy is not met. */
  ghost predicate Answers(n: nat, p: Progress, was: bool, best: Option<RouteQuote>, config: Config, control: nat -> bool, go: bool, before: Option<Finality>, after: Option<Finality>) {
    var accepted := control(n) && (Opens(config, p, was, best) ==> control(n + 1));
    && go == (accepted && !Halts(config, p, best))
    && after == (if !accepted then Some(Stopped) else if Halts(config, p, best) then Some(StopPolicySatisfied) else before)
  }

  /** The announcement of a quote: an improvement, then the route, as long as the callback goes on. */
  function Announced(before: seq<Event>, quote: RouteQuote, previous: Option<RouteQuote>, rank: Option<nat>, improves: bool, config: Config, control: nat -> bool): (after: seq<Event>)
    ensures before <= after
  {
    var first := if improves then before + [BestUpdated(quote, previous)] else before;
    if (improves && !control(|before|)) || !(config.emitAll || rank.Some?) then first else first + [RouteFound(quote, rank)]
  }

  /** Everything the caller is told about one quote. */
  ghost function Told(before: seq<Event>, p: Progress, was: bool, quote: RouteQuote, previous: Option<RouteQuote>, best: Option<RouteQuote>, oldTop: seq<RouteQuote>, top: seq<RouteQuote>,
                config: Config, control: nat -> bool): (after: seq<Event>)
    ensures before <= after
  {
    var progress := before + [ProgressMade(p)];
    if !control(|before|) then progress
    else if Opens(config, p, was, best) then progress + [InitialResultsReady(p, best.value, top)]
    else if !was || Halts(config, p, best) then progress
    else Announced(progress, quote, previous, Rank(oldTop, quote, config.topK), Beats(quote, previous), config, control)
  }

  /** What follows for the trace and for the reasons to stop. */
  lemma PoliceFacts(before: seq<Event>, after: seq<Event>, p: Progress, was: bool, released: bool, best: Option<RouteQuote>, top: seq<RouteQuote>, config: Config, control: nat -> bool,
                    go: bool, stop: Option<Finality>, stop': Option<Finality>)
    requires Polices(before, after, p, was, released, best, top, config, control) && Answers(|before|, p, was, best, config, control, go, stop, stop')
    ensures before <= after && QuietFrom(after, |before|) && (was ==> released)
    ensures Hushed(config) && !was && p.confidence <= 9_999 ==> !released && OneMore(before, after, go, control)
    ensures go ==> stop' == stop
    ensures !go ==> StopReason(config, control, stop')
  {
    hide Met;
  }

  /** What the policies leave behind is all the caller is told, up to the announcement of a quote that
      comes after the gate and before any stop. */
  lemma ToldSoFar(before: seq<Event>, after: seq<Event>, p: Progress, was: bool, released: bool, quote: RouteQuote, previous: Option<RouteQuote>, best: Option<RouteQuote>,
                  oldTop: seq<RouteQuote>, top: seq<RouteQuote>, config: Config, control: nat -> bool, go: bool, stop: Option<Finality>, stop': Option<Finality>)
    requires Polices(before, after, p, was, released, best, top, config, control) && Answers(|before|, p, was, best, config, control, go, stop, stop')
    ensures Told(before, p, was, quote, previous, best, oldTop, top, config, control) ==
            if go && was then Announced(after, quote, previous, Rank(oldTop, quote, config.topK), Beats(quote, previous), config, control) else after
    ensures released == (was || (control(|before|) && Opens(config, p, was, best)))
  {
    hide Met, Announced, Rank, Beats;
    assert before + [ProgressMade(p)] + [] == before + [ProgressMade(p)];
  }

  /** What must be among the events of one quote: progress first; after the gate, and unless the run stops at
      it, an improvement next, naming the quote it replaces, and the route itself if all routes are asked for
      or it entered the ranking; and, the first time the gate's policy is met, the results so far. */
  ghost predicate Informs(before: seq<Event>, after: seq<Event>, p: Progress, was: bool, quote: RouteQuote, previous: Option<RouteQuote>, best: Option<RouteQuote>,
                          rank: Option<nat>, top: seq<RouteQuote>, config: Config, control: nat -> bool) {
    var n := |before|;
    var improves := previous.None? || quote.amountOut > previous.value.amountOut;
    && n < |after| && after[..n] == before && after[n] == ProgressMade(p)
    && (!was && control(n) && best.Some? && config.gate.Some? && Met(config.gate.value, p) ==>
          |after| == n + 2 && after[n + 1] == InitialResultsReady(p, best.value, top))
    && (was && control(n) && !Halts(config, p, best) ==>
          && (improves ==> n + 1 < |after| && after[n + 1] == BestUpdated(quote, previous))
          && ((improves ==> control(n + 1)) && (config.emitAll || rank.Some?) ==> after[|after| - 1] == RouteFound(quote, rank)))
  }

  lemma ToldInforms(before: seq<Event>, p: Progress, was: bool, quote: RouteQuote, previous: Option<RouteQuote>, best: Option<RouteQuote>,
                    oldTop: seq<RouteQuote>, top: seq<RouteQuote>, config: Config, control: nat -> bool)
    ensures Informs(before, Told(before, p, was, quote, previous, best, oldTop, top, config, control), p, was, quote, previous, best,
                    Rank(oldTop, quote, config.topK), top, config, control)
  {
    hide Met, Rank;
  }

  /** Why a run is to stop: the callback refused an event, or there is a stop policy and it was met. */
  ghost predicate StopReason(config: Config, control: nat -> bool, stop: Option<Finality>) {
    match stop
    case Some(Stopped) => exists i :: !control(i)
    case Some(StopPolicySatisfied) => config.stopPolicy.Some?
    case _ => false
  }

  /** Nothing stops the run by policy, and the gate waits for certainty. */
  ghost predicate Hushed(config: Config) {
    config.stopPolicy.None? && config.gate.Some? && forall p: Progress :: p.confidence <= 9_999 ==> !Met(config.gate.value, p)
  }

  /** One more event, answered by the callback. */
  ghost predicate OneMore(before: seq<Event>, after: seq<Event>, go: bool, control: nat -> bool) {
    |after| == |before| + 1 && go == control(|before|)
  }

  predicate Beats(quote: RouteQuote, best: Option<RouteQuote>) { best.None? || quote.amountOut > best.value.amountOut }

  /** The ranking is correct for what was seen, and the best is its head. */
  ghost predicate RankFits(top: seq<RouteQuote>, seen: seq<RouteQuote>, best: Option<RouteQuote>, k: nat) {
    TopK(top, seen, k) && (top == [] <==> seen == []) && best == (if top == [] then None else Some(top[0]))
  }

  /** Counting one more quote leaves the trace within its raised bounds. */
  lemma AbsorbTrace(events: seq<Event>, gated: bool, released: bool, best: Option<RouteQuote>, evaluated: nat, total: Option<nat>, heuristicDone: bool, quote: RouteQuote)
    requires TraceOk(events, gated, released, best, Confidence(best.Some?, evaluated, total, heuristicDone))
    ensures var improves := Beats(quote, best);
            && TraceOk(events, gated, released, if improves then Some(quote) else best, Confidence(true, evaluated + 1, total, heuristicDone))
            && (improves ==> BestBelow(events, quote.amountOut))
  {
    hide TraceOk, Fraction, Confidence, BestBelow;
    var c, c' := Confidence(best.Some?, evaluated, total, heuristicDone), Confidence(true, evaluated + 1, total, heuristicDone);
    ConfidenceMonotone(best.Some?, evaluated, total, heuristicDone, true, evaluated + 1, total, heuristicDone);
    RaiseBounds(events, gated, released, best, c, if Beats(quote, best) then Some(quote) else best, c');
    BelowNew(events, gated, released, best, c, quote.amountOut);
  }

  class StreamingRouteState {
    const config: Config
    /** The callback's answer to the i-th event it receives: true to continue. */
    const control: nat -> bool
    var best: Option<RouteQuote>
    var heuristicBest: Option<RouteQuote>
    var topRoutes: seq<RouteQuote>
    var routesObserved: nat
    var failedCandidates: nat
    var improvements: nat
    var heuristicDone: bool
    var phase: Option<Phase>
    var total: Option<nat>
    var released: bool
    var stopFinality: Option<Finality>
    var events: seq<Event>
    /** Every quote observed so far, in arrival order. */
    var seen: seq<RouteQuote>

    function Evaluated(): nat
      reads this`routesObserved, this`failedCandidates
    {
      routesObserved + failedCandidates
    }

    function CurrentConfidence(): nat
      reads this`best, this`routesObserved, this`failedCandidates, this`total, this`heuristicDone
    {
      Confidence(best.Some?, Evaluated(), total, heuristicDone)
    }

    ghost predicate RankOk()
      reads this`best, this`topRoutes, this`seen
    {
      RankFits(topRoutes, seen, best, config.topK)
    }

    ghost predicate Trace()
      reads this
    {
      TraceOk(events, config.gate.Some?, released, best, CurrentConfidence())
    }

    ghost predicate Valid()
      reads this
    {
      && config.topK > 0 && routesObserved == |seen| && RankOk() && Trace() && NoCompleted(events)
      && (stopFinality.Some? ==> stopFinality.value.Stopped? || stopFinality.value.StopPolicySatisfied?)
    }

    constructor (config: Config, control: nat -> bool)
      requires config.topK > 0
      ensures this.config == config && this.control == control
      ensures Valid() && seen == [] && events == [] && stopFinality.None? && best.None? && total.None? && released == config.gate.None?
      ensures failedCandidates == 0
    {
      this.config, this.control := config, control;
      best, heuristicBest, topRoutes := None, None, [];
      routesObserved, failedCandidates, improvements := 0, 0, 0;
      heuristicDone, phase, total := false, None, None;
      released, stopFinality, events, seen := config.gate.None?, None, [], [];
    }

    function ProgressNow(): Progress
      reads this`best, this`routesObserved, this`failedCandidates, this`total, this`heuristicDone, this`phase
    {
      Progress(phase, Evaluated(), routesObserved, failedCandidates, total, Fraction(Evaluated(), total), CurrentConfidence(),
               if best.Some? then Some(best.value.amountOut) else None)
    }

    /** What a progress report says: how many candidates quoted, failed and are known, which share that is,
        and the largest amount seen. The closing report of an exhaustive run claims the whole. */
    lemma ProgressTells(finality: Finality)
      requires Valid()
      ensures var p := ProgressNow();
              && p.viable == |seen| && p.failed == failedCandidates && p.evaluated == |seen| + failedCandidates && p.total == total
              && (p.bestAmount.None? <==> seen == [])
              && (p.bestAmount.Some? ==> (exists x :: x in seen && x.amountOut == p.bestAmount.value) && forall x :: x in seen ==> x.amountOut <= p.bestAmount.value)
              && (p.fraction.None? <==> total.None?) && (total == Some(0) ==> p.fraction == Some(10_000))
              && (total.Some? && 0 < total.value <= USIZE_MAX / 10_000 ==> p.fraction == Some(Min(p.evaluated, total.value) * 10_000 / total.value))
      ensures FinalProgress(finality) ==
              if finality == ExhaustiveDone then ProgressNow().(fraction := Some(10_000), confidence := if best.Some? then 10_000 else 0) else ProgressNow()
    {
      hide TraceOk, Confidence, TopK;
      HeadIsLargest(topRoutes, seen, config.topK);
      if total.Some? && 0 < total.value <= USIZE_MAX / 10_000 { ShareFits(Evaluated(), total.value); }
    }

    /** Send one event; a refusal to continue is remembered as the reason to stop. */
    method Emit(e: Event) returns (go: bool)
      requires Valid() && !e.Completed?
      requires TraceOk(events + [e], config.gate.Some?, released, best, CurrentConfidence())
      modifies this`events, this`stopFinality
      ensures Valid() && events == old(events) + [e]
      ensures go == control(|old(events)|)
      ensures stopFinality == if go then old(stopFinality) else Some(Stopped)
    {
      hide TraceOk, RankFits, Fraction, Confidence;
      events := events + [e];
      go := control(|events| - 1);
      if !go {
        stopFinality := Some(Stopped);
      }
    }

    lemma Policed(before: seq<Event>, was: bool, go: bool, stop: Option<Finality>)
      requires Polices(before, events, ProgressNow(), was, released, best, topRoutes, config, control)
      requires Answers(|before|, ProgressNow(), was, best, config, control, go, stop, stopFinality)
      ensures before <= events && QuietFrom(events, |before|) && (was ==> released)
      ensures Hushed(config) && !was ==> !released && OneMore(before, events, go, control)
      ensures go ==> stopFinality == stop
      ensures !go ==> StopJustified()
    {
      hide Polices, Answers, Hushed, OneMore, QuietFrom, Fraction, Confidence;
      ConfidenceMonotone(best.Some?, Evaluated(), total, heuristicDone, best.Some?, Evaluated(), total, heuristicDone);
      PoliceFacts(before, events, ProgressNow(), was, released, best, topRoutes, config, control, go, stop, stopFinality);
    }

    ghost predicate StopJustified()
      reads this
    {
      StopReason(config, control, stopFinality)
    }

    /** Report progress, open the gate when its policy is met, stop when the stop policy is met: exactly
        these events, and exactly this answer. */
    method EmitProgressAndApplyPolicies(ph: Phase) returns (go: bool)
      requires Valid()
      modifies this`phase, this`events, this`stopFinality, this`released
      ensures Valid() && phase == Some(ph)
      ensures Polices(old(events), events, ProgressNow(), old(released), released, best, topRoutes, config, control)
      ensures Answers(|old(events)|, ProgressNow(), old(released), best, config, control, go, old(stopFinality), stopFinality)
    {
      hide TraceOk, RankFits, NoCompleted, Satisfied, Met, Fraction, Confidence;
      phase := Some(ph);
      go := EmitProgress();
      if go { go := OpenGate(ProgressNow()); }
      if config.stopPolicy.Some? { SatisfiedIffMet(config.stopPolicy.value, ProgressNow()); }
      if go && best.Some? && config.stopPolicy.Some? && Satisfied(config.stopPolicy.value, ProgressNow()) {
        stopFinality := Some(StopPolicySatisfied);
        go := false;
      }
    }

    method EmitProgress() returns (go: bool)
      requires Valid()
      modifies this`events, this`stopFinality
      ensures Valid() && events == old(events) + [ProgressMade(ProgressNow())] && go == control(|old(events)|)
      ensures stopFinality == if go then old(stopFinality) else Some(Stopped)
    {
      hide TraceOk, RankFits, Fraction, Confidence;
      EmitKeepsTrace(events, ProgressMade(ProgressNow()), config.gate.Some?, released, best, CurrentConfidence());
      go := Emit(ProgressMade(ProgressNow()));
    }

    method OpenGate(progress: Progress) returns (go: bool)
      requires Valid() && progress == ProgressNow()
      modifies this`events, this`stopFinality, this`released
      ensures Valid() && released == (old(released) || Opens(config, progress, old(released), best))
      ensures events == old(events) + (if Opens(config, progress, old(released), best) then [InitialResultsReady(progress, best.value, topRoutes)] else [])
      ensures go == (Opens(config, progress, old(released), best) ==> control(|old(events)|))
      ensures stopFinality == if go then old(stopFinality) else Some(Stopped)
    {
      hide TraceOk, RankFits, Satisfied, Met, Fraction, Confidence;
      go := true;
      if config.gate.Some? { SatisfiedIffMet(config.gate.value, progress); }
      if !released && best.Some? && config.gate.Some? && Satisfied(config.gate.value, progress) {
        EmitRelease(events, InitialResultsReady(progress, best.value, topRoutes), best, CurrentConfidence());
        go := Release(progress);
      }
    }

    /** Open the gate: the one event that carries the initial results. */
    method Release(progress: Progress) returns (go: bool)
      requires Valid() && !released && best.Some?
      requires TraceOk(events + [InitialResultsReady(progress, best.value, topRoutes)], config.gate.Some?, true, best, CurrentConfidence())
      modifies this`events, this`stopFinality, this`released
      ensures Valid() && released && events == old(events) + [InitialResultsReady(progress, best.value, topRoutes)]
      ensures go == control(|old(events)|)
      ensures stopFinality == if go then old(stopFinality) else Some(Stopped)
    {
      hide TraceOk, RankFits, Fraction, Confidence;
      released := true;
      events := events + [InitialResultsReady(progress, best.value, topRoutes)];
      go := control(|events| - 1);
      if !go {
        stopFinality := Some(Stopped);
      }
    }

    /** Take in one quote: count it, rank it, replace the best if it is strictly better, then tell
        the caller as far as gate and configuration allow. */
    method ObserveQuote(ph: Phase, quote: RouteQuote) returns (go: bool)
      requires Valid() && PathDetermines(seen + [quote])
      modifies this
      ensures Valid() && seen == old(seen) + [quote] && old(events) <= events
      ensures total == old(total) && heuristicDone == old(heuristicDone) && failedCandidates == old(failedCandidates)
      ensures heuristicBest == old(heuristicBest)
      ensures improvements == old(improvements) + (if Beats(quote, old(best)) && ph == Exhaustive && old(heuristicBest).Some? then 1 else 0)
      ensures best == if Beats(quote, old(best)) then Some(quote) else old(best)
      ensures released == (old(released) || (control(|old(events)|) && Opens(config, ProgressNow(), old(released), best)))
      ensures events == Told(old(events), ProgressNow(), old(released), quote, old(best), best, old(topRoutes), topRoutes, config, control)
      ensures Informs(old(events), events, ProgressNow(), old(released), quote, old(best), best, Rank(old(topRoutes), quote, config.topK), topRoutes, config, control)
      ensures Hushed(config) && !old(released) ==> !released && OneMore(old(events), events, go, control)
      ensures go ==> stopFinality == old(stopFinality)
      ensures !go ==> StopJustified()
    {
      hide Informs, Valid, PathDetermines, BestBelow, QuietFrom, Opens, Hushed, OneMore, Polices, Answers, Told, Announced, Beats, Rank, Fraction, Confidence, StopReason;
      var wereReleased := released;
      var rank := Rank(topRoutes, quote, config.topK);
      var improves := Beats(quote, best);
      var previous := best;
      Absorb(ph, quote, improves);
      label absorbed:
      go := EmitProgressAndApplyPolicies(ph);
      Policed(old(events), old(released), go, old(stopFinality));
      ToldSoFar(old(events), events, ProgressNow(), old(released), released, quote, old(best), best, old(topRoutes), topRoutes, config, control, go, old(stopFinality), stopFinality);
      ToldInforms(old(events), ProgressNow(), old(released), quote, old(best), best, old(topRoutes), topRoutes, config, control);
      if !go || !wereReleased {
        return;
      }
      if improves { QuietKeepsBelow(old@absorbed(events), events, quote.amountOut); }
      go := Announce(quote, previous, rank, improves);
    }

    /** Tell the caller about a quote, as far as the configuration allows. */
    method Announce(quote: RouteQuote, previous: Option<RouteQuote>, rank: Option<nat>, improves: bool) returns (go: bool)
      requires Valid() && released && (improves ==> best == Some(quote) && BestBelow(events, quote.amountOut))
      modifies this`events, this`stopFinality
      ensures Valid() && events == Announced(old(events), quote, previous, rank, improves, config, control)
      ensures go ==> stopFinality == old(stopFinality)
      ensures !go ==> StopJustified()
    {
      hide TraceOk, RankFits, Fraction, Confidence, BestBelow;
      go := true;
      if improves {
        EmitBest(events, quote, previous, config.gate.Some?, CurrentConfidence());
        go := Emit(BestUpdated(quote, previous));
        if !go {
          return;
        }
      }
      if config.emitAll || rank.Some? {
        EmitKeepsTrace(events, RouteFound(quote, rank), config.gate.Some?, released, best, CurrentConfidence());
        go := Emit(RouteFound(quote, rank));
      }
    }

    /** The silent part of an observation: counters, ranking and best. */
    method Absorb(ph: Phase, quote: RouteQuote, improves: bool)
      requires Valid() && PathDetermines(seen + [quote])
      requires improves == Beats(quote, best)
      modifies this`phase, this`routesObserved, this`topRoutes, this`seen, this`best, this`improvements
      ensures Valid() && seen == old(seen) + [quote]
      ensures best == if improves then Some(quote) else old(best)
      ensures improves ==> BestBelow(events, quote.amountOut)
      ensures improvements == old(improvements) + (if improves && ph == Exhaustive && old(heuristicBest).Some? then 1 else 0)
    {
      hide TraceOk, RankFits, Fraction, Confidence, PathDetermines, BestBelow, Record, NoCompleted;
      RankAbsorbs(topRoutes, seen, best, quote, config.topK);
      AbsorbTrace(events, config.gate.Some?, released, best, Evaluated(), total, heuristicDone, quote);
      improvements := if improves && ph == Exhaustive && heuristicBest.Some? then improvements + 1 else improvements;
      phase, routesObserved, topRoutes, seen, best :=
        Some(ph), routesObserved + 1, Record(topRoutes, quote, config.topK), seen + [quote], if improves then Some(quote) else best;
    }

    method ObserveFailedCandidates(ph: Phase, count: nat) returns (go: bool)
      requires Valid()
      modifies this
      ensures Valid() && seen == old(seen) && old(events) <= events && QuietFrom(events, |old(events)|)
      ensures total == old(total) && heuristicDone == old(heuristicDone) && failedCandidates == old(failedCandidates) + count
      ensures best == old(best) && heuristicBest == old(heuristicBest) && improvements == old(improvements)
      ensures count == 0 ==> go && events == old(events) && released == old(released)
      ensures go ==> stopFinality == old(stopFinality)
      ensures !go ==> StopJustified()
    {
      hide TraceOk, RankFits, Fraction, Confidence;
      if count == 0 {
        return true;
      }
      Rise(Evaluated() + count, total, heuristicDone);
      phase := Some(ph);
      failedCandidates := failedCandidates + count;
      go := EmitProgressAndApplyPolicies(ph);
      Policed(old(events), old(released), go, old(stopFinality));
    }

    /** Confidence under later counters is no lower, so the trace stays within its bounds. */
    lemma Rise(evaluated: nat, total': Option<nat>, heuristicDone': bool)
      requires Valid() && Evaluated() <= evaluated && (total.Some? ==> total' == total) && (heuristicDone ==> heuristicDone')
      ensures TraceOk(events, config.gate.Some?, released, best, Confidence(best.Some?, evaluated, total', heuristicDone'))
    {
      hide TraceOk, RankFits, Fraction, Confidence;
      ConfidenceMonotone(best.Some?, Evaluated(), total, heuristicDone, best.Some?, evaluated, total', heuristicDone');
      RaiseBounds(events, config.gate.Some?, released, best, CurrentConfidence(), best, Confidence(best.Some?, evaluated, total', heuristicDone'));
    }

    method FinishHeuristicPhase() returns (go: bool)
      requires Valid()
      modifies this
      ensures Valid() && seen == old(seen) && old(events) <= events && QuietFrom(events, |old(events)|)
      ensures total == old(total) && failedCandidates == old(failedCandidates)
      ensures best == old(best) && heuristicBest == best && improvements == old(improvements)
      ensures Hushed(config) && !old(released) ==> !released && OneMore(old(events), events, go, control)
      ensures go ==> stopFinality == old(stopFinality)
      ensures !go ==> StopJustified()
    {
      hide TraceOk, RankFits, Fraction, Confidence;
      Rise(Evaluated(), total, true);
      heuristicBest := best;
      heuristicDone := true;
      phase := Some(Heuristic);
      go := EmitProgressAndApplyPolicies(Heuristic);
      Policed(old(events), old(released), go, old(stopFinality));
    }

    method SetTotalCandidates(count: nat) returns (go: bool)
      requires Valid() && total.None?
      modifies this
      ensures Valid() && seen == old(seen) && old(events) <= events && QuietFrom(events, |old(events)|)
      ensures failedCandidates == old(failedCandidates)
      ensures Hushed(config) && !old(released) ==> !released && OneMore(old(events), events, go, control)
      ensures best == old(best) && heuristicBest == old(heuristicBest) && improvements == old(improvements)
      ensures total == Some(if count > Evaluated() then count else Evaluated())
      ensures go ==> stopFinality == old(stopFinality)
      ensures !go ==> StopJustified()
    {
      hide TraceOk, RankFits, Fraction, Confidence;
      var t := if count > Evaluated() then count else Evaluated();
      Rise(Evaluated(), Some(t), heuristicDone);
      total := Some(t);
      phase := Some(Exhaustive);
      go := EmitProgressAndApplyPolicies(Exhaustive);
      Policed(old(events), old(released), go, old(stopFinality));
    }

    function FinalProgress(finality: Finality): Progress
      reads this`best, this`routesObserved, this`failedCandidates, this`total, this`heuristicDone, this`phase
    {
      var p := ProgressNow();
      if finality == ExhaustiveDone then p.(fraction := Some(10_000), confidence := if best.Some? then 10_000 else 0) else p
    }

    function ReportFor(finality: Finality): Report
      reads this
    {
      Report(best, topRoutes, finality, FinalProgress(finality))
    }

    /** The caller stops the search on the very event that releases the initial results of an
        exhaustive completion: the only way certainty is announced and then withdrawn. */
    ghost predicate WithdrawsCertainty(finality: Finality)
      reads this
    {
      config.gate.Some? && !released && best.Some? && finality == ExhaustiveDone && !control(|events|)
    }

    /** Release what is still gated, settle the finality and report. The trace stays disciplined;
        confidence rises to the end exactly unless certainty was withdrawn; and certainty is
        reported exactly for an exhaustive result with a route. */
    method Finish(finality: Finality, emitCompleted: bool) returns (r: Report)
      requires Valid()
      modifies this
      ensures best == old(best) && topRoutes == old(topRoutes) && seen == old(seen) && RankOk()
      ensures r.progress.viable == |seen| && r.progress.failed == old(failedCandidates) && r.progress.total == old(total)
      ensures r.progress.evaluated == r.progress.viable + r.progress.failed
      ensures r.best == best && r.topRoutes == topRoutes && r.progress == FinalProgress(r.finality)
      ensures r.finality == finality || r.finality == Stopped
      ensures r.finality != finality ==> exists i :: !control(i)
      ensures r.progress.confidence == 10_000 <==> r.finality == ExhaustiveDone && best.Some?
      ensures old(events) <= events && (emitCompleted ==> events != [] && events[|events| - 1] == Completed(r))
      ensures Disciplined(events, config, control, Some(r))
      ensures ConfidenceRises(events) <==> !(emitCompleted && old(WithdrawsCertainty(finality)))
      ensures old(WithdrawsCertainty(finality)) ==> r.finality == Stopped
    {
      hide *;
      Counted();
      var final, top := ReleaseAtCompletion(finality);
      r := ReportFor(final);
      SettleFacts(final);
      if emitCompleted {
        LastWord(events, Completed(r), config.gate.Some?, top);
        events := events + [Completed(r)];
      }
      Verdict(old(events), events, emitCompleted, old(WithdrawsCertainty(finality)), config, control, r);
    }

    /** `top` is the highest confidence reported so far. */
    method ReleaseAtCompletion(finality: Finality) returns (final: Finality, ghost top: nat)
      requires Valid()
      modifies this`released, this`events, this`stopFinality
      ensures RankOk() && old(events) <= events
      ensures final == finality || final == Stopped
      ensures final != finality ==> exists i :: !control(i)
      ensures old(WithdrawsCertainty(finality)) ==> final == Stopped
      ensures GateRespected(events, config.gate.Some?) && ReleasedOnce(events, config.gate.Some?)
      ensures BestIncreases(events) && ConfidenceRises(events) && ReportedAtMost(events, top)
      ensures FinalProgress(final).confidence < top <==> old(WithdrawsCertainty(finality))
      ensures FinalProgress(final).confidence < top ==> events != [] && Reported(events[|events| - 1]) == Some(top)
      ensures ReportedAtMost(old(events), 9_999)
      ensures Closing(old(events), events, old(WithdrawsCertainty(finality)), control, final, best)
    {
      hide TraceOk, RankFits, Fraction, Confidence, GateRespected, ReleasedOnce, BestIncreases, ConfidenceRises, ReportedAtMost, NoCompleted;
      ghost var c := CurrentConfidence();
      ConfidenceMonotone(best.Some?, Evaluated(), total, heuristicDone, best.Some?, Evaluated(), total, heuristicDone);
      BestlessTrace();
      final, top := finality, c;
      if !released && config.gate.Some? && best.Some? {
        var e := InitialResultsReady(FinalProgress(finality), best.value, topRoutes);
        EmitRelease(events, e, best, c);
        top := e.progress.confidence;
        released := true;
        events := events + [e];
        if !control(|events| - 1) {
          stopFinality := Some(Stopped);
          final := Stopped;
        }
      } else {
        TraceParts(events, config.gate.Some?, released, best, c);
      }
    }

    lemma Counted()
      requires Valid()
      ensures routesObserved == |seen|
    {
    }

    lemma SettleFacts(final: Finality)
      ensures var p := FinalProgress(final);
              p.viable == routesObserved && p.failed == failedCandidates && p.total == total && p.evaluated == p.viable + p.failed
      ensures ReportFor(final) == Report(best, topRoutes, final, FinalProgress(final))
      ensures FinalProgress(final).confidence == 10_000 <==> final == ExhaustiveDone && best.Some?
      ensures Certain(ReportFor(final)) <==> final == ExhaustiveDone && best.Some?
    {
    }

    lemma BestlessTrace()
      requires Valid()
      ensures best.None? ==> CurrentConfidence() == 0
      ensures CurrentConfidence() <= 9_999 ==> ReportedAtMost(events, 9_999)
    {
    }
  }

  lemma TraceParts(events: seq<Event>, gated: bool, released: bool, best: Option<RouteQuote>, c: nat)
    requires TraceOk(events, gated, released, best, c)
    ensures GateRespected(events, gated) && ReleasedOnce(events, gated) && BestIncreases(events)
    ensures ConfidenceRises(events) && ReportedAtMost(events, c)
  {
  }

  /** A closing event keeps the discipline, and keeps confidence rising exactly when it does not fall
      below the highest confidence already reported. */
  lemma LastWord(events: seq<Event>, e: Event, gated: bool, top: nat)
    requires GateRespected(events, gated) && ReleasedOnce(events, gated) && BestIncreases(events)
    requires ConfidenceRises(events) && ReportedAtMost(events, top) && e.Completed?
    requires e.report.progress.confidence < top ==>
               events != [] && Reported(events[|events| - 1]) == Some(top)
    ensures GateRespected(events + [e], gated) && ReleasedOnce(events + [e], gated) && BestIncreases(events + [e])
    ensures ConfidenceRises(events + [e]) <==> e.report.progress.confidence >= top
  {
    var events' := events + [e];
    assert forall i :: 0 <= i < |events| ==> events'[i] == events[i];
    ReleaseCarries(events, e, gated);
    if e.report.progress.confidence < top {
      assert Reported(events'[|events| - 1]).value > Reported(events'[|events|]).value;
    }
  }

  /** The release at completion adds at most one event, and it is a refused certainty exactly when
      certainty is withdrawn. */
  ghost predicate Closing(before: seq<Event>, after: seq<Event>, withdrawn: bool, control: nat -> bool, final: Finality, best: Option<RouteQuote>) {
    && before <= after && |after| <= |before| + 1
    && (|after| == |before| + 1 ==>
          && after[|before|].InitialResultsReady? && best == Some(after[|before|].best)
          && (after[|before|].progress.confidence == 10_000 ==> (final == ExhaustiveDone <==> control(|before|))))
    && (withdrawn <==> |after| == |before| + 1 && after[|before|].InitialResultsReady?
                       && after[|before|].progress.confidence == 10_000 && !control(|before|))
  }

  lemma Verdict(before: seq<Event>, after: seq<Event>, completed: bool, withdrawn: bool, config: Config, control: nat -> bool, r: Report)
    requires ReportedAtMost(before, 9_999) && |after| >= (if completed then 1 else 0)
    requires if completed then after[|after| - 1] == Completed(r) && Closing(before, after[..|after| - 1], withdrawn, control, r.finality, r.best)
             else Closing(before, after, withdrawn, control, r.finality, r.best)
    requires r.progress.confidence == 10_000 <==> Certain(r)
    requires GateRespected(after, config.gate.Some?) && ReleasedOnce(after, config.gate.Some?) && BestIncreases(after)
    requires ConfidenceRises(after) <==> !(completed && withdrawn)
    ensures Disciplined(after, config, control, Some(r))
  {
  }

  lemma QuietKeepsBelow(before: seq<Event>, after: seq<Event>, amount: nat)
    requires before <= after && QuietFrom(after, |before|) && BestBelow(before, amount)
    ensures BestBelow(after, amount)
  {
  }

  lemma BelowNew(events: seq<Event>, gated: bool, released: bool, best: Option<RouteQuote>, c: nat, amount: nat)
    requires TraceOk(events, gated, released, best, c)
    ensures (best.None? || amount > best.value.amountOut) ==> BestBelow(events, amount)
  {
  }

  lemma RankAbsorbs(top: seq<RouteQuote>, seen: seq<RouteQuote>, best: Option<RouteQuote>, quote: RouteQuote, k: nat)
    requires k > 0 && RankFits(top, seen, best, k) && PathDetermines(seen + [quote])
    ensures RankFits(Record(top, quote, k), seen + [quote], if Beats(quote, best) then Some(quote) else best, k)
  {
    RecordKeepsTopK(top, seen, quote, k);
    RecordHead(top, quote, k);
    if HasPath(top, quote.path) {
      KnownAmount(top, seen, quote, k);
    }
  }

  lemma KnownAmount(top: seq<RouteQuote>, seen: seq<RouteQuote>, quote: RouteQuote, k: nat)
    requires TopK(top, seen, k) && PathDetermines(seen + [quote]) && HasPath(top, quote.path)
    ensures top != [] && quote.amountOut <= top[0].amountOut
  {
    var seen' := seen + [quote];
    var i :| 0 <= i < |top| && top[i].path == quote.path;
    var j :| 0 <= j < |seen| && seen[j] == top[i];
    assert seen'[j] == seen[j] && seen'[|seen|] == quote;
    assert top[0].amountOut >= top[i].amountOut;
  }
}
