/** The payment-method incident detector: evidence windows in, a hysteretic state out. */
module Incidents {
  import opened Outcomes
  import opened States

  datatype Config = Config(minimumVolume: int, suspectDrop: real, confirmDrop: real, healthyDrop: real, ttl: int,
                           coolingPeriod: int)
  {
    predicate Valid() {
      && minimumVolume > 0 && 0.0 <= healthyDrop <= suspectDrop <= confirmDrop <= 1.0
      && ttl > 0 && coolingPeriod > 0
    }
  }

  /** Which merchant's which method, in which scope. */
  datatype Scope = Scope(scopeId: string, merchantId: string, paymentMethod: string)

  datatype Window = Window(scope: Scope, startedAt: int, observedAt: int, successes: nat, failures: nat,
                           baseline: real, downtime: bool)
  {
    function Volume(): nat { successes + failures }

    function SuccessRate(): real {
      if Volume() == 0 then 0.0 else successes as real / Volume() as real
    }

    function Degradation(): real {
      if baseline > SuccessRate() then baseline - SuccessRate() else 0.0
    }
  }

  datatype Projection = Projection(scope: Scope, state: IncidentState, version: int, stateSince: Option<int>,
                                   lastEvidenceAt: Option<int>, expiresAt: Option<int>, coolingUntil: Option<int>)
  {
    predicate Fresh() {
      state.Normal? && version == 0 && stateSince.None? && lastEvidenceAt.None? && expiresAt.None? && coolingUntil.None?
    }
  }

  datatype Evaluation = Evaluation(projection: Projection, changed: bool, reason: string)

  datatype IncidentError = ScopeMismatch | EvidenceBackwards | InvalidEdge

  predicate Suspicious(c: Config, w: Window) {
    w.Volume() >= c.minimumVolume && w.Degradation() >= c.suspectDrop
  }

  predicate Strong(c: Config, w: Window) {
    w.Volume() >= c.minimumVolume && w.Volume() >= c.minimumVolume * 2 && w.Degradation() >= c.confirmDrop
  }

  predicate Healthy(c: Config, w: Window) {
    w.Volume() >= c.minimumVolume && w.Degradation() <= c.healthyDrop
  }

  predicate EvidenceExpired(p: Projection, w: Window) {
    p.expiresAt.Some? && w.observedAt >= p.expiresAt.value
  }

  /** The state the evidence asks for, why, and the end of any cooling window. */
  function Wanted(c: Config, p: Projection, w: Window): (IncidentState, string, Option<int>) {
    match p.state
    case Normal =>
      if w.downtime then (Suspected, "PROVIDER_DOWNTIME_SUSPECTED", p.coolingUntil)
      else if Suspicious(c, w) then (Suspected, "STATISTICAL_DEGRADATION_SUSPECTED", p.coolingUntil)
      else (Normal, "NO_MATERIAL_CHANGE", p.coolingUntil)
    case Suspected =>
      if w.downtime then (Confirmed, "PROVIDER_DOWNTIME_CONFIRMED", p.coolingUntil)
      else if Strong(c, w) then (Confirmed, "STRONG_CORROBORATION_CONFIRMED", p.coolingUntil)
      else if EvidenceExpired(p, w) then (Normal, "SUSPECTED_EVIDENCE_EXPIRED", p.coolingUntil)
      else if Healthy(c, w) then (Normal, "SUSPECTED_EVIDENCE_DECAYED", p.coolingUntil)
      else (Suspected, "NO_MATERIAL_CHANGE", p.coolingUntil)
    case Confirmed =>
      if !w.downtime && (Healthy(c, w) || EvidenceExpired(p, w))
      then (Cooling, "RECOVERY_SIGNAL_ENTERED_COOLING", Some(w.observedAt + c.coolingPeriod))
      else (Confirmed, "NO_MATERIAL_CHANGE", p.coolingUntil)
    case Cooling =>
      if w.downtime || Strong(c, w) then (Confirmed, "DEGRADATION_RESUMED", None)
      else if Healthy(c, w) && p.coolingUntil.Some? && w.observedAt >= p.coolingUntil.value
      then (Normal, "HYSTERESIS_WINDOW_PASSED", None)
      else (Cooling, "NO_MATERIAL_CHANGE", p.coolingUntil)
  }

  predicate Alarmed(s: IncidentState) { s.Suspected? || s.Confirmed? }

  function Evaluate(c: Config, p: Projection, w: Window): Result<Evaluation, IncidentError> {
    if p.scope != w.scope then Err(ScopeMismatch)
    else if p.lastEvidenceAt.Some? && w.observedAt < p.lastEvidenceAt.value then Err(EvidenceBackwards)
    else
      var (target, reason, coolingUntil) := Wanted(c, p, w);
      match IncidentTransition(p.state, target)
      case Err(_) => Err(InvalidEdge)
      case Ok(changed) =>
        if changed then
          Ok(Evaluation(p.(state := target, version := p.version + 1, stateSince := Some(w.observedAt),
                           lastEvidenceAt := Some(w.observedAt),
                           expiresAt := if Alarmed(target) then Some(w.observedAt + c.ttl) else None,
                           coolingUntil := coolingUntil), true, reason))
        else if p.lastEvidenceAt != Some(w.observedAt) then
          Ok(Evaluation(p.(lastEvidenceAt := Some(w.observedAt),
                           expiresAt := if Alarmed(p.state) && (Suspicious(c, w) || Strong(c, w) || w.downtime)
                                        then Some(w.observedAt + c.ttl) else p.expiresAt), false, reason))
        else Ok(Evaluation(p, false, reason))
  }

  // ---- What a window does, state by state ----

  /** How far the window's success rate fell below its baseline, never negative. */
  function Drop(w: Window): real {
    var n := w.successes + w.failures;
    var fall := w.baseline - (if n == 0 then 0.0 else w.successes as real / n as real);
    if fall > 0.0 then fall else 0.0
  }

  /** A fall of at least `drop` over a volume of at least `volume`. */
  predicate Fell(w: Window, volume: int, drop: real) {
    volume <= w.successes + w.failures && drop <= Drop(w)
  }

  predicate Recovered(c: Config, w: Window) {
    c.minimumVolume <= w.successes + w.failures && Drop(w) <= c.healthyDrop
  }

  predicate Lapsed(p: Projection, w: Window) {
    p.expiresAt.Some? && p.expiresAt.value <= w.observedAt
  }

  predicate CoolingOver(p: Projection, w: Window) {
    p.coolingUntil.Some? && p.coolingUntil.value <= w.observedAt
  }

  /** Downtime, or a strong fall over twice the volume. */
  predicate Corroborated(c: Config, w: Window) {
    w.downtime || Fell(w, 2 * c.minimumVolume, c.confirmDrop)
  }

  lemma SignalsExactly(c: Config, p: Projection, w: Window)
    requires c.Valid()
    ensures Suspicious(c, w) <==> Fell(w, c.minimumVolume, c.suspectDrop)
    ensures w.downtime || Strong(c, w) <==> Corroborated(c, w)
    ensures Healthy(c, w) <==> Recovered(c, w)
    ensures EvidenceExpired(p, w) <==> Lapsed(p, w)
    ensures Strong(c, w) ==> Suspicious(c, w)
  {}

  /** The state after an accepted window, by what it takes to be there. */
  predicate Becomes(c: Config, p: Projection, w: Window, s: IncidentState) {
    match s
    case Suspected =>
      || (p.state == Normal && (w.downtime || Fell(w, c.minimumVolume, c.suspectDrop)))
      || (p.state == Suspected && !Corroborated(c, w) && !Lapsed(p, w) && !Recovered(c, w))
    case Confirmed =>
      || ((p.state == Suspected || p.state == Cooling) && Corroborated(c, w))
      || (p.state == Confirmed && (w.downtime || (!Lapsed(p, w) && !Recovered(c, w))))
    case Cooling =>
      || (p.state == Confirmed && !w.downtime && (Lapsed(p, w) || Recovered(c, w)))
      || (p.state == Cooling && !Corroborated(c, w) && !(Recovered(c, w) && CoolingOver(p, w)))
    case Normal =>
      || (p.state == Normal && !w.downtime && !Fell(w, c.minimumVolume, c.suspectDrop))
      || (p.state == Suspected && !Corroborated(c, w) && (Lapsed(p, w) || Recovered(c, w)))
      || (p.state == Cooling && !Corroborated(c, w) && Recovered(c, w) && CoolingOver(p, w))
  }

  /** The cooling window opens on entering COOLING and closes on leaving it. */
  function CoolingAfter(c: Config, p: Projection, w: Window, s: IncidentState): Option<int> {
    if p.state == Confirmed && s == Cooling then Some(w.observedAt + c.coolingPeriod)
    else if p.state == Cooling && s != Cooling then None
    else p.coolingUntil
  }

  /** The evidence lives one ttl from every window that alarms; only a change of state ends it. */
  function ExpiryAfter(c: Config, p: Projection, w: Window, s: IncidentState): Option<int> {
    if s != p.state then if s == Suspected || s == Confirmed then Some(w.observedAt + c.ttl) else None
    else if (s == Suspected || s == Confirmed) && (w.downtime || Fell(w, c.minimumVolume, c.suspectDrop))
    then Some(w.observedAt + c.ttl)
    else p.expiresAt
  }

  /** A window is refused for another scope or an earlier time; otherwise the next projection is exactly this. */
  lemma EvaluationTable(c: Config, p: Projection, w: Window, s: IncidentState)
    requires c.Valid() && Becomes(c, p, w, s)
    ensures var r := Evaluate(c, p, w);
      var since := if s != p.state then Some(w.observedAt) else p.stateSince;
      if p.scope != w.scope then r == Err(ScopeMismatch)
      else if p.lastEvidenceAt.Some? && w.observedAt < p.lastEvidenceAt.value then r == Err(EvidenceBackwards)
      else
        && r.Ok? && r.value.changed == (s != p.state)
        && r.value.projection
           == if s == p.state && p.lastEvidenceAt == Some(w.observedAt) then p
              else Projection(p.scope, s, p.version + (if s != p.state then 1 else 0), since, Some(w.observedAt),
                              ExpiryAfter(c, p, w, s), CoolingAfter(c, p, w, s))
  {
    hide Suspicious, Strong, Healthy, EvidenceExpired, Corroborated, Recovered, Lapsed, Fell;
    SignalsExactly(c, p, w);
  }

  /** Every window has exactly one outcome in the table. */
  lemma OneBecoming(c: Config, p: Projection, w: Window, s: IncidentState, t: IncidentState)
    ensures Becomes(c, p, w, s) && Becomes(c, p, w, t) ==> s == t
    ensures || Becomes(c, p, w, Normal) || Becomes(c, p, w, Suspected) || Becomes(c, p, w, Confirmed)
            || Becomes(c, p, w, Cooling)
  {
    hide Corroborated, Recovered, Lapsed, Fell;
  }

  // ---- Runs ----

  /** A refused window leaves the projection as it was. */
  function Step(c: Config, p: Projection, w: Window): Projection {
    match Evaluate(c, p, w)
    case Ok(e) => e.projection
    case Err(_) => p
  }

  function Run(c: Config, p: Projection, windows: seq<Window>): Projection {
    if windows == [] then p else Step(c, Run(c, p, windows[..|windows| - 1]), windows[|windows| - 1])
  }

  /** The detector only ever asks for edges the graph has. */
  lemma NeverAsksForMissingEdge(c: Config, p: Projection, w: Window)
    ensures Evaluate(c, p, w) != Err(InvalidEdge)
    ensures Evaluate(c, p, w).Ok? ==>
      var e := Evaluate(c, p, w).value;
      && (e.changed <==> e.projection.state != p.state)
      && (e.changed ==> IncidentEdge(p.state, e.projection.state))
      && e.projection.version == p.version + (if e.changed then 1 else 0)
      && (e.changed <==> e.reason != "NO_MATERIAL_CHANGE")
  {
    hide Suspicious, Strong, Healthy, EvidenceExpired;
    Reasons();
  }

  lemma Reasons()
    ensures |"NO_MATERIAL_CHANGE"| == 18 && |"PROVIDER_DOWNTIME_SUSPECTED"| == 27
    ensures |"STATISTICAL_DEGRADATION_SUSPECTED"| == 33 && |"PROVIDER_DOWNTIME_CONFIRMED"| == 27
    ensures |"STRONG_CORROBORATION_CONFIRMED"| == 30 && |"SUSPECTED_EVIDENCE_EXPIRED"| == 26
    ensures |"SUSPECTED_EVIDENCE_DECAYED"| == 26 && |"RECOVERY_SIGNAL_ENTERED_COOLING"| == 31
    ensures |"DEGRADATION_RESUMED"| == 19 && |"HYSTERESIS_WINDOW_PASSED"| == 24
  {}

  /** How many evaluations of a run changed the state. */
  function Changes(c: Config, p: Projection, windows: seq<Window>): nat {
    if windows == [] then 0
    else
      var before := Run(c, p, windows[..|windows| - 1]);
      Changes(c, p, windows[..|windows| - 1])
      + (if Step(c, before, windows[|windows| - 1]).state != before.state then 1 else 0)
  }

  /** The version counts the state changes, and only two changes or more can confirm an incident. */
  lemma {:induction false} VersionCountsChanges(c: Config, p: Projection, windows: seq<Window>)
    requires p.Fresh()
    ensures var q := Run(c, p, windows);
      && q.version == Changes(c, p, windows) <= |windows|
      && (q.state.Suspected? ==> q.version >= 1) && (q.state.Confirmed? ==> q.version >= 2)
      && (q.state.Cooling? ==> q.version >= 3)
  {
    hide Evaluate;
    if windows != [] {
      VersionCountsChanges(c, p, windows[..|windows| - 1]);
      NeverAsksForMissingEdge(c, Run(c, p, windows[..|windows| - 1]), windows[|windows| - 1]);
    }
  }

  /** No single evaluation, whatever it shows, confirms an incident. */
  lemma ConfirmedNeedsTwo(c: Config, p: Projection, windows: seq<Window>)
    requires p.Fresh() && Run(c, p, windows).state.Confirmed?
    ensures |windows| >= 2
  {
    hide Step, Changes;
    VersionCountsChanges(c, p, windows);
  }

  // ---- Hysteresis ----

  /** Some evidence point of the run, after its start, was COOLING. */
  predicate Cooled(c: Config, p: Projection, windows: seq<Window>) {
    exists k :: 0 < k <= |windows| && Run(c, p, windows[..k]).state.Cooling?
  }

  /**
   A run that starts CONFIRMED: while cooling, the window ends a full period after
   the start; once out of it, a full period of evidence time has passed.
   */
  predicate Hysteretic(c: Config, p: Projection, q: Projection, cooled: bool) {
    && p.lastEvidenceAt.Some? && q.lastEvidenceAt.Some? && p.lastEvidenceAt.value <= q.lastEvidenceAt.value
    && (q.state.Cooling? ==> q.coolingUntil.Some? && q.coolingUntil.value >= p.lastEvidenceAt.value + c.coolingPeriod)
    && (q.state.Normal? || q.state.Suspected? ==>
          cooled && q.lastEvidenceAt.value >= p.lastEvidenceAt.value + c.coolingPeriod)
  }

  lemma StepHysteretic(c: Config, p: Projection, q: Projection, w: Window, cooled: bool)
    requires Hysteretic(c, p, q, cooled) && (q.state.Cooling? ==> cooled)
    ensures Hysteretic(c, p, Step(c, q, w), cooled || Step(c, q, w).state.Cooling?)
  {
    hide Suspicious, Strong, Healthy, EvidenceExpired;
  }

  lemma {:induction false} RunHysteretic(c: Config, p: Projection, windows: seq<Window>)
    requires p.state.Confirmed? && p.lastEvidenceAt.Some?
    ensures Hysteretic(c, p, Run(c, p, windows), Cooled(c, p, windows))
    ensures Run(c, p, windows).state.Cooling? ==> Cooled(c, p, windows)
  {
    hide Step, Hysteretic;
    if windows == [] {
      StartHysteretic(c, p);
      assert !Cooled(c, p, windows);
    } else {
      var prefix := windows[..|windows| - 1];
      RunHysteretic(c, p, prefix);
      StepHysteretic(c, p, Run(c, p, prefix), windows[|windows| - 1], Cooled(c, p, prefix));
      CooledExtends(c, p, windows);
    }
  }

  lemma StartHysteretic(c: Config, p: Projection)
    requires p.state.Confirmed? && p.lastEvidenceAt.Some?
    ensures Hysteretic(c, p, p, false)
  {}

  lemma CooledExtends(c: Config, p: Projection, windows: seq<Window>)
    requires windows != []
    ensures Cooled(c, p, windows) <==> Cooled(c, p, windows[..|windows| - 1]) || Run(c, p, windows).state.Cooling?
  {
    hide Run;
    var prefix := windows[..|windows| - 1];
    assert windows[..|windows|] == windows;
    forall k | 0 < k < |windows| ensures prefix[..k] == windows[..k] {}
    if Cooled(c, p, prefix) {
      var k :| 0 < k <= |prefix| && Run(c, p, prefix[..k]).state.Cooling?;
      assert Run(c, p, windows[..k]).state.Cooling?;
    }
    if Run(c, p, windows).state.Cooling? { assert Run(c, p, windows[..|windows|]).state.Cooling?; }
    if Cooled(c, p, windows) {
      var k :| 0 < k <= |windows| && Run(c, p, windows[..k]).state.Cooling?;
      if k < |windows| { assert Run(c, p, prefix[..k]).state.Cooling?; }
    }
  }

  lemma {:induction false} RunConcat(c: Config, p: Projection, a: seq<Window>, b: seq<Window>)
    ensures Run(c, p, a + b) == Run(c, Run(c, p, a), b)
  {
    hide Step;
    if b == [] {
      assert a + b == a;
    } else {
      RunConcat(c, p, a, b[..|b| - 1]);
      assert (a + b)[..|a + b| - 1] == a + b[..|b| - 1];
    }
  }

  lemma {:induction false} EvaluatedHasEvidence(c: Config, p: Projection, windows: seq<Window>)
    requires p.Fresh()
    ensures !Run(c, p, windows).state.Normal? ==> Run(c, p, windows).lastEvidenceAt.Some?
  {
    hide Suspicious, Strong, Healthy, EvidenceExpired;
    if windows != [] { EvaluatedHasEvidence(c, p, windows[..|windows| - 1]); }
  }

  /** From CONFIRMED back to NORMAL every run passes COOLING and takes the whole cooling period of evidence time. */
  lemma ConfirmedCoolsBeforeNormal(c: Config, p: Projection, before: seq<Window>, after: seq<Window>)
    requires p.Fresh() && Run(c, p, before).state.Confirmed? && Run(c, p, before + after).state.Normal?
    ensures var from, to := Run(c, p, before), Run(c, p, before + after);
      && Cooled(c, from, after)
      && from.lastEvidenceAt.Some? && to.lastEvidenceAt.Some?
      && to.lastEvidenceAt.value - from.lastEvidenceAt.value >= c.coolingPeriod
  {
    hide Run, Cooled;
    RunConcat(c, p, before, after);
    EvaluatedHasEvidence(c, p, before);
    RunHysteretic(c, Run(c, p, before), after);
  }

  // ---- The bounds are reached ----

  /** Evidence of one scope, none of it older than what came before. */
  predicate InSequence(p: Projection, v: Window, w: Window) {
    p.scope == v.scope == w.scope && (p.lastEvidenceAt.Some? ==> p.lastEvidenceAt.value <= v.observedAt)
    && v.observedAt <= w.observedAt
  }

  /** From NORMAL two windows of downtime or strong degradation do confirm an incident, however far apart. */
  lemma TwoAlarmsConfirm(c: Config, p: Projection, v: Window, w: Window)
    requires c.Valid() && p.state.Normal? && InSequence(p, v, w)
    requires (v.downtime || Strong(c, v)) && (w.downtime || Strong(c, w))
    ensures Step(c, Step(c, p, v), w).state.Confirmed?
  {
    hide Window.Volume, Window.Degradation, Healthy, EvidenceExpired;
  }

  /** But a confirmed incident whose evidence ran out cools even on a strongly degraded window. */
  lemma ExpiryBeatsDegradation(c: Config, p: Projection, w: Window)
    requires p.state.Confirmed? && InSequence(p, w, w) && Strong(c, w) && !w.downtime && !Healthy(c, w)
    ensures Step(c, p, w).state.Cooling? <==> p.expiresAt.Some? && w.observedAt >= p.expiresAt.value
  {
    hide Window.Volume, Window.Degradation, Healthy, Strong, Suspicious;
  }

  /** From CONFIRMED, two calm windows end the incident exactly when a cooling period lies between them. */
  lemma CalmEndsWhenCooled(c: Config, p: Projection, v: Window, w: Window)
    requires p.state.Confirmed? && InSequence(p, v, w) && !v.downtime && !w.downtime
    requires Healthy(c, v) && Healthy(c, w) && !Strong(c, w)
    ensures Step(c, Step(c, p, v), w).state.Normal? <==> w.observedAt >= v.observedAt + c.coolingPeriod
  {
    hide Window.Volume, Window.Degradation, Healthy, Strong, EvidenceExpired, Suspicious;
  }
}
