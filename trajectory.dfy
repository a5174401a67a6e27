/** The trajectory tool's `calculate` (tools/Trajectory/Trajectory.py): a search
    for the largest payload, in steps of 100 kg, that a vehicle can bring to the
    speed of a 400 km circular orbit.  One trial flies a vertical ascent to
    10 km and a gravity turn to 100 km, each phase integrating the equation of
    motion stage by stage (at most two stage changes per phase) and stopping at
    the first sample above the phase's altitude; the velocity at the 100 km
    crossing is then topped up by the rocket equation for the propellant still
    on board and by impulsive burns of at most two further stages.

    The ODE solver (`solve_ivp` on the equation of motion, with the clamped
    atmosphere inside) is a parameter: a function from one integration segment
    to the samples it returns. */
module Trajectory {
  import opened Outcomes
  import opened Maths

  // ---------------------------------------------------------------------------
  // Vehicle and aerodynamics
  // ---------------------------------------------------------------------------

  /** The inputs of `calculate`: head parameters, diameter and the four
      per-stage lists, stage 0 firing first. */
  datatype Vehicle = Vehicle(
    coneAngle: real, lengthRatio: real, diameter: real,
    thrust: seq<real>, structural: seq<real>, propellant: seq<real>, massFlow: seq<real>)

  /** The four stage lists describe the same stages (as `read_input` builds them). */
  predicate WellFormed(v: Vehicle)
  {
    |v.structural| == |v.thrust| && |v.propellant| == |v.thrust| && |v.massFlow| == |v.thrust|
  }

  /** The drag coefficient of the head: the cone relation when there is a cone
      angle (even if a length ratio is also set), the ellipse relation when there
      is a length ratio, 0.42 otherwise. */
  function DragCoefficient(coneAngle: real, lengthRatio: real): real
  {
    if coneAngle > 0.0 then 0.0122 * coneAngle + 0.162
    else if lengthRatio > 0.0 then
      var slope := -0.01 / 15.0;
      0.305 + slope * (lengthRatio - 10.0)
    else 0.42
  }

  /** With a cone angle the length ratio plays no part, and the cone relation
      grows strictly with the angle. */
  lemma ConeDrag(a: real, a': real, l: real, l': real)
    requires 0.0 < a < a'
    ensures DragCoefficient(a, l) == DragCoefficient(a, l')
    ensures DragCoefficient(a, l) < DragCoefficient(a', l)
  {
  }

  /** Without a cone angle the ellipse relation gives 0.305 at a length ratio of
      10 and falls strictly as the ratio grows; with neither parameter the
      coefficient is the blunt-body 0.42 whatever their values. */
  lemma EllipseDrag(a: real, l: real, l': real)
    requires a <= 0.0 && 0.0 < l < l'
    ensures DragCoefficient(a, 10.0) == 0.305
    ensures DragCoefficient(a, l') < DragCoefficient(a, l)
    ensures DragCoefficient(a, 0.0) == DragCoefficient(0.0, -l) == 0.42
  {
  }

  /** The reference area as the source writes it, `pi + diameter ** 2 / 4`. */
  function ReferenceAreaAsWritten(diameter: real): real
  {
    PI + diameter * diameter / 4.0
  }

  /** The frontal area of the vehicle, `pi * diameter ** 2 / 4`. */
  function ReferenceArea(diameter: real): real
  {
    PI * (diameter * diameter) / 4.0
  }

  /** The area as written is not the frontal disc: for a diameter of 2 m it
      gives `pi + 1` instead of `pi`, and it is positive for a vehicle of no width. */
  lemma AreaAsWrittenIsNotDisc()
    ensures ReferenceAreaAsWritten(2.0) == ReferenceArea(2.0) + 1.0
    ensures ReferenceAreaAsWritten(0.0) == PI && ReferenceArea(0.0) == 0.0
  {
  }

  /** The frontal area is that of a disc of half the diameter, never negative,
      and grows with the square of the diameter. */
  lemma ReferenceAreaIsDisc(diameter: real, c: real)
    ensures ReferenceArea(diameter) == PI * (diameter / 2.0) * (diameter / 2.0)
    ensures ReferenceArea(diameter) >= 0.0
    ensures ReferenceArea(c * diameter) == c * c * ReferenceArea(diameter)
  {
    assert diameter * diameter >= 0.0;
    assert (c * diameter) * (c * diameter) == c * c * (diameter * diameter);
  }

  // ---------------------------------------------------------------------------
  // One integration segment
  // ---------------------------------------------------------------------------

  /** Vertical ascent (thrust along the path, path vertical) to 10 km, then a
      gravity turn (thrust at 5 degrees, path at 135 degrees) to 100 km. */
  datatype Phase = VerticalAscent | GravityTurn

  function Threshold(p: Phase): real
  {
    match p
    case VerticalAscent => 10000.0
    case GravityTurn => 100000.0
  }

  /** `alpha`, the thrust angle, in radians. */
  function ThrustAngle(p: Phase): real
  {
    match p
    case VerticalAscent => 0.0
    case GravityTurn => 5.0 * PI / 180.0
  }

  /** `gamma`, the flight-path angle, in radians. */
  function PathAngle(p: Phase): real
  {
    match p
    case VerticalAscent => 90.0 * PI / 180.0
    case GravityTurn => 135.0 * PI / 180.0
  }

  /** Everything the equation of motion of one `solve_ivp` call depends on:
      the angles, thrust, mass at the segment's start (payload excluded), mass
      flow, payload, drag parameters, the end time `tfinal` and the initial state. */
  datatype Segment = Segment(
    alpha: real, gamma: real, thrust: real, m0: real, massFlow: real, payload: real,
    area: real, cd: real, tFinal: real, h0: real, v0: real)

  /** One returned sample: the time on the `linspace(0, tfinal, 500)` grid and the state. */
  datatype Sample = Sample(t: real, h: real, v: real)

  /** A stage burning: its index, the vehicle mass without payload, and the
      propellant the stage still holds. */
  datatype Burn = Burn(stage: nat, m0: real, remaining: real)

  /** A fresh stage `k`: everything from `k` up, with its full propellant load. */
  function StageStart(v: Vehicle, k: nat): Burn
    requires WellFormed(v) && k < |v.thrust|
  {
    Burn(k, SuffixSum(v.structural, k) + SuffixSum(v.propellant, k), v.propellant[k])
  }

  /** What stays on board once stage `k` has used all its propellant. */
  function DryAbove(v: Vehicle, k: nat): real
    requires WellFormed(v) && k < |v.thrust|
  {
    SuffixSum(v.structural, k) + SuffixSum(v.propellant, k + 1)
  }

  /** The mass and the remaining propellant of a burn are in step. */
  predicate Consistent(v: Vehicle, b: Burn)
    requires WellFormed(v)
  {
    b.stage < |v.thrust| && b.m0 - b.remaining == DryAbove(v, b.stage)
  }

  lemma StageStartConsistent(v: Vehicle, k: nat)
    requires WellFormed(v) && k < |v.thrust|
    ensures Consistent(v, StageStart(v, k))
  {
    SuffixSumStep(v.propellant, k);
  }

  /** The state after burning for `t` seconds at `mdot`. */
  function AfterCrossing(b: Burn, mdot: real, t: real): (r: Burn)
    ensures r.stage == b.stage && r.m0 - r.remaining == b.m0 - b.remaining
    ensures r.remaining == b.remaining - mdot * t
  {
    Burn(b.stage, b.m0 - mdot * t, b.remaining - mdot * t)
  }

  /** `np.where(h > threshold)[0][0]`, when there is such an index. */
  function FirstAbove(s: seq<Sample>, threshold: real): (p: Option<nat>)
    ensures p.Some? ==> p.value < |s| && s[p.value].h > threshold
    ensures p.Some? ==> forall i :: 0 <= i < p.value ==> s[i].h <= threshold
    ensures p.None? ==> forall i :: 0 <= i < |s| ==> s[i].h <= threshold
  {
    if s == [] then None
    else if s[0].h > threshold then Some(0)
    else
      match FirstAbove(s[1..], threshold)
      case None => None
      case Some(q) => Some(q + 1)
  }

  /** An integrator: the samples `solve_ivp` returns for one segment. */
  type Integrator = Segment -> seq<Sample>

  /** The end of a phase: the recorded segments (one per stage fired, the last
      cut before the crossing), the burn in progress and the first sample above
      the phase's altitude. */
  datatype PhaseEnd = PhaseEnd(segments: seq<seq<Sample>>, burn: Burn, crossing: Sample)

  /** Every recorded height of every segment is at most `bound`. */
  predicate SegmentsBelow(segments: seq<seq<Sample>>, bound: real)
  {
    forall j, i :: 0 <= j < |segments| && 0 <= i < |segments[j]| ==> segments[j][i].h <= bound
  }

  /** The segment integrated for burn `b` of a phase, from the state `(h0, v0)`. */
  function SegmentFor(v: Vehicle, payload: real, area: real, cd: real, phase: Phase, b: Burn,
                      h0: real, v0: real): Segment
    requires WellFormed(v) && b.stage < |v.thrust| && v.massFlow[b.stage] != 0.0
  {
    var mdot := v.massFlow[b.stage];
    Segment(ThrustAngle(phase), PathAngle(phase), v.thrust[b.stage], b.m0, mdot, payload,
            area, cd, b.remaining / mdot - 5.0, h0, v0)
  }

  /** One phase from burn `b` with `advances` stage changes already made: a
      segment that crosses the altitude ends the phase; otherwise, while there is
      another stage and fewer than two changes were made, the next stage starts
      from the segment's last sample; with neither, `pos[0]` raises IndexError. */
  function RunPhase(v: Vehicle, integrate: Integrator, payload: real, area: real, cd: real,
                    phase: Phase, b: Burn, h0: real, v0: real, advances: nat): (r: Result<PhaseEnd>)
    requires WellFormed(v) && b.stage < |v.thrust| && advances <= 2
    decreases 2 - advances
    ensures r.Ok? ==> b.stage <= r.value.burn.stage < |v.thrust| && v.massFlow[r.value.burn.stage] != 0.0
    ensures r.Err? ==> r.error == ZeroDivision || r.error == IndexOutOfRange
  {
    var mdot := v.massFlow[b.stage];
    if mdot == 0.0 then Err(ZeroDivision)
    else
      var samples := integrate(SegmentFor(v, payload, area, cd, phase, b, h0, v0));
      match FirstAbove(samples, Threshold(phase))
      case Some(p) => Ok(PhaseEnd([samples[..p]], b, samples[p]))
      case None =>
        if b.stage < |v.thrust| - 1 && advances < 2 then
          if |samples| == 0 then
            if v.massFlow[b.stage + 1] == 0.0 then Err(ZeroDivision) else Err(IndexOutOfRange)
          else
            var last := samples[|samples| - 1];
            match RunPhase(v, integrate, payload, area, cd, phase, StageStart(v, b.stage + 1),
                           last.h, last.v, advances + 1)
            case Err(e) => Err(e)
            case Ok(rest) => Ok(PhaseEnd([samples] + rest.segments, rest.burn, rest.crossing))
        else Err(IndexOutOfRange)
  }

  /** No segment the integrator returns has a sample above `bound`. */
  ghost predicate NeverAbove(integrate: Integrator, bound: real)
  {
    forall seg, i :: 0 <= i < |integrate(seg)| ==> integrate(seg)[i].h <= bound
  }

  /** A phase whose integrations never cross its altitude fails: `pos[0]` of an
      empty `np.where` raises once no further stage may be started, and a zero
      mass flow on the way divides by zero first. */
  lemma {:induction false} NeverCrossingFails(v: Vehicle, integrate: Integrator, payload: real, area: real, cd: real,
                                              phase: Phase, b: Burn, h0: real, v0: real, advances: nat)
    requires WellFormed(v) && b.stage < |v.thrust| && advances <= 2
    requires NeverAbove(integrate, Threshold(phase))
    decreases 2 - advances
    ensures RunPhase(v, integrate, payload, area, cd, phase, b, h0, v0, advances).Err?
  {
    if v.massFlow[b.stage] != 0.0 {
      var samples := integrate(SegmentFor(v, payload, area, cd, phase, b, h0, v0));
      assert forall i :: 0 <= i < |samples| ==> samples[i].h <= Threshold(phase);
      if b.stage < |v.thrust| - 1 && advances < 2 && |samples| > 0 {
        var last := samples[|samples| - 1];
        NeverCrossingFails(v, integrate, payload, area, cd, phase, StageStart(v, b.stage + 1),
                           last.h, last.v, advances + 1);
      }
    }
  }

  /** An integration that returns no samples: when a further stage may be
      started and its mass flow is zero, `mp / mdot` of that stage divides by
      zero before the empty heights are indexed; otherwise the indexing raises. */
  lemma EmptyIntegration(v: Vehicle, integrate: Integrator, payload: real, area: real, cd: real,
                         phase: Phase, b: Burn, h0: real, v0: real, advances: nat)
    requires WellFormed(v) && b.stage < |v.thrust| && advances <= 2 && v.massFlow[b.stage] != 0.0
    requires integrate(SegmentFor(v, payload, area, cd, phase, b, h0, v0)) == []
    ensures b.stage < |v.thrust| - 1 && advances < 2 && v.massFlow[b.stage + 1] == 0.0
            ==> RunPhase(v, integrate, payload, area, cd, phase, b, h0, v0, advances) == Err(ZeroDivision)
    ensures !(b.stage < |v.thrust| - 1 && advances < 2 && v.massFlow[b.stage + 1] == 0.0)
            ==> RunPhase(v, integrate, payload, area, cd, phase, b, h0, v0, advances) == Err(IndexOutOfRange)
  {
  }

  /** A phase whose first segment `samples` crosses the altitude records that
      segment cut just before the crossing. */
  lemma PhaseCrosses(v: Vehicle, integrate: Integrator, payload: real, area: real, cd: real,
                     phase: Phase, b: Burn, h0: real, v0: real, advances: nat, samples: seq<Sample>, p: nat)
    requires WellFormed(v) && b.stage < |v.thrust| && advances <= 2 && v.massFlow[b.stage] != 0.0
    requires samples == integrate(SegmentFor(v, payload, area, cd, phase, b, h0, v0))
    requires FirstAbove(samples, Threshold(phase)) == Some(p)
    ensures RunPhase(v, integrate, payload, area, cd, phase, b, h0, v0, advances) == Ok(PhaseEnd([samples[..p]], b, samples[p]))
  {
  }

  /** A successful phase whose first segment `samples` stays below the altitude
      goes on with the next stage from the segment's last sample, and records
      `samples` ahead of what that stage's phase records. */
  lemma PhaseContinues(v: Vehicle, integrate: Integrator, payload: real, area: real, cd: real,
                       phase: Phase, b: Burn, h0: real, v0: real, advances: nat, samples: seq<Sample>)
    requires WellFormed(v) && b.stage < |v.thrust| && advances <= 2
    requires RunPhase(v, integrate, payload, area, cd, phase, b, h0, v0, advances).Ok?
    requires v.massFlow[b.stage] != 0.0 ==> samples == integrate(SegmentFor(v, payload, area, cd, phase, b, h0, v0))
    requires v.massFlow[b.stage] != 0.0 ==> FirstAbove(samples, Threshold(phase)).None?
    ensures v.massFlow[b.stage] != 0.0
    ensures b.stage < |v.thrust| - 1 && advances < 2 && |samples| > 0
    ensures RunPhase(v, integrate, payload, area, cd, phase, StageStart(v, b.stage + 1),
                     samples[|samples| - 1].h, samples[|samples| - 1].v, advances + 1).Ok?
    ensures RunPhase(v, integrate, payload, area, cd, phase, b, h0, v0, advances).value
            == var rest := RunPhase(v, integrate, payload, area, cd, phase, StageStart(v, b.stage + 1),
                                    samples[|samples| - 1].h, samples[|samples| - 1].v, advances + 1).value;
               PhaseEnd([samples] + rest.segments, rest.burn, rest.crossing)
  {
    assert v.massFlow[b.stage] != 0.0;
    assert FirstAbove(samples, Threshold(phase)).None?;
    assert b.stage < |v.thrust| - 1 && advances < 2;
    assert |samples| > 0;
  }

  /** What a phase records: one segment per stage fired, at most two stage
      changes, and the burn either the one the phase started with or a fresh
      later stage. */
  lemma {:induction false} RunPhaseFacts(v: Vehicle, integrate: Integrator, payload: real, area: real, cd: real,
                                         phase: Phase, b: Burn, h0: real, v0: real, advances: nat)
    requires WellFormed(v) && b.stage < |v.thrust| && advances <= 2
    requires RunPhase(v, integrate, payload, area, cd, phase, b, h0, v0, advances).Ok?
    decreases 2 - advances
    ensures var e := RunPhase(v, integrate, payload, area, cd, phase, b, h0, v0, advances).value;
            e.burn.stage - b.stage <= 2 - advances
            && |e.segments| == e.burn.stage - b.stage + 1
            && (e.burn.stage == b.stage ==> e.burn == b)
            && (e.burn.stage != b.stage ==> e.burn == StageStart(v, e.burn.stage))
  {
    var samples := integrate(SegmentFor(v, payload, area, cd, phase, b, h0, v0));
    if FirstAbove(samples, Threshold(phase)).None? {
      PhaseContinues(v, integrate, payload, area, cd, phase, b, h0, v0, advances, samples);
      var last := samples[|samples| - 1];
      var next := StageStart(v, b.stage + 1);
      RunPhaseFacts(v, integrate, payload, area, cd, phase, next, last.h, last.v, advances + 1);
    } else {
      PhaseCrosses(v, integrate, payload, area, cd, phase, b, h0, v0, advances, samples,
                   FirstAbove(samples, Threshold(phase)).value);
    }
  }

  /** `samples` is the start of what the integrator returns for a segment of
      stage `k` in `phase`: that stage's thrust and mass flow, the phase's angles,
      and the trial's payload, reference area and drag coefficient. */
  ghost predicate FromStage(v: Vehicle, integrate: Integrator, payload: real, area: real, cd: real,
                            phase: Phase, k: nat, samples: seq<Sample>)
    requires WellFormed(v)
  {
    k < |v.thrust|
    && exists seg: Segment ::
         seg.thrust == v.thrust[k] && seg.massFlow == v.massFlow[k]
         && seg.alpha == ThrustAngle(phase) && seg.gamma == PathAngle(phase)
         && seg.payload == payload && seg.area == area && seg.cd == cd
         && samples <= integrate(seg)
  }

  /** Segment `j` of `segments` comes from stage `k + j`. */
  ghost predicate InStageOrder(v: Vehicle, integrate: Integrator, payload: real, area: real, cd: real,
                               phase: Phase, k: nat, segments: seq<seq<Sample>>)
    requires WellFormed(v)
    decreases |segments|
  {
    segments == []
    || (FromStage(v, integrate, payload, area, cd, phase, k, segments[0])
        && InStageOrder(v, integrate, payload, area, cd, phase, k + 1, segments[1..]))
  }

  /** The stage order read off index by index. */
  lemma {:induction false} InStageOrderAt(v: Vehicle, integrate: Integrator, payload: real, area: real, cd: real,
                                          phase: Phase, k: nat, segments: seq<seq<Sample>>, j: nat)
    requires WellFormed(v) && InStageOrder(v, integrate, payload, area, cd, phase, k, segments)
    requires j < |segments|
    decreases j
    ensures FromStage(v, integrate, payload, area, cd, phase, k + j, segments[j])
  {
    if j > 0 {
      InStageOrderAt(v, integrate, payload, area, cd, phase, k + 1, segments[1..], j - 1);
    }
  }

  /** The recursion behind `RunPhaseOrder`. */
  lemma {:induction false} RunPhaseInStageOrder(v: Vehicle, integrate: Integrator, payload: real, area: real, cd: real,
                                                phase: Phase, b: Burn, h0: real, v0: real, advances: nat)
    requires WellFormed(v) && b.stage < |v.thrust| && advances <= 2
    requires RunPhase(v, integrate, payload, area, cd, phase, b, h0, v0, advances).Ok?
    decreases 2 - advances
    ensures InStageOrder(v, integrate, payload, area, cd, phase, b.stage,
                         RunPhase(v, integrate, payload, area, cd, phase, b, h0, v0, advances).value.segments)
  {
    var seg := SegmentFor(v, payload, area, cd, phase, b, h0, v0);
    var samples := integrate(seg);
    var e := RunPhase(v, integrate, payload, area, cd, phase, b, h0, v0, advances).value;
    if FirstAbove(samples, Threshold(phase)).None? {
      PhaseContinues(v, integrate, payload, area, cd, phase, b, h0, v0, advances, samples);
      var last := samples[|samples| - 1];
      var next := StageStart(v, b.stage + 1);
      RunPhaseInStageOrder(v, integrate, payload, area, cd, phase, next, last.h, last.v, advances + 1);
      var rest := RunPhase(v, integrate, payload, area, cd, phase, next, last.h, last.v, advances + 1).value;
      assert e.segments == [samples] + rest.segments;
      assert e.segments[1..] == rest.segments;
      assert FromStage(v, integrate, payload, area, cd, phase, b.stage, samples);
    } else {
      var p := FirstAbove(samples, Threshold(phase)).value;
      PhaseCrosses(v, integrate, payload, area, cd, phase, b, h0, v0, advances, samples, p);
      assert e.segments == [samples[..p]];
      assert e.segments[1..] == [];
      assert FromStage(v, integrate, payload, area, cd, phase, b.stage, samples[..p]) by {
        assert samples[..p] <= integrate(seg);
      }
    }
  }

  /** A phase appends its segments in stage order: segment `j` is integrated
      for stage `b.stage + j`. */
  lemma RunPhaseOrder(v: Vehicle, integrate: Integrator, payload: real, area: real, cd: real,
                      phase: Phase, b: Burn, h0: real, v0: real, advances: nat)
    requires WellFormed(v) && b.stage < |v.thrust| && advances <= 2
    requires RunPhase(v, integrate, payload, area, cd, phase, b, h0, v0, advances).Ok?
    ensures var e := RunPhase(v, integrate, payload, area, cd, phase, b, h0, v0, advances).value;
            forall j :: 0 <= j < |e.segments| ==> FromStage(v, integrate, payload, area, cd, phase, b.stage + j, e.segments[j])
  {
    var e := RunPhase(v, integrate, payload, area, cd, phase, b, h0, v0, advances).value;
    RunPhaseInStageOrder(v, integrate, payload, area, cd, phase, b, h0, v0, advances);
    forall j | 0 <= j < |e.segments|
      ensures FromStage(v, integrate, payload, area, cd, phase, b.stage + j, e.segments[j])
    {
      InStageOrderAt(v, integrate, payload, area, cd, phase, b.stage, e.segments, j);
    }
  }

  /** Every height a phase records is at most the phase's altitude, and the
      crossing sample lies above it. */
  lemma {:induction false} RunPhaseBelow(v: Vehicle, integrate: Integrator, payload: real, area: real, cd: real,
                                         phase: Phase, b: Burn, h0: real, v0: real, advances: nat)
    requires WellFormed(v) && b.stage < |v.thrust| && advances <= 2
    requires RunPhase(v, integrate, payload, area, cd, phase, b, h0, v0, advances).Ok?
    decreases 2 - advances
    ensures var e := RunPhase(v, integrate, payload, area, cd, phase, b, h0, v0, advances).value;
            e.crossing.h > Threshold(phase) && SegmentsBelow(e.segments, Threshold(phase))
  {
    var samples := integrate(SegmentFor(v, payload, area, cd, phase, b, h0, v0));
    if FirstAbove(samples, Threshold(phase)).None? {
      PhaseContinues(v, integrate, payload, area, cd, phase, b, h0, v0, advances, samples);
      var last := samples[|samples| - 1];
      var next := StageStart(v, b.stage + 1);
      RunPhaseBelow(v, integrate, payload, area, cd, phase, next, last.h, last.v, advances + 1);
      var rest := RunPhase(v, integrate, payload, area, cd, phase, next, last.h, last.v, advances + 1).value;
      ConsBelow(samples, rest.segments, Threshold(phase));
    } else {
      var p := FirstAbove(samples, Threshold(phase)).value;
      PhaseCrosses(v, integrate, payload, area, cd, phase, b, h0, v0, advances, samples, p);
    }
  }

  /** A segment below the bound followed by segments below it. */
  lemma ConsBelow(samples: seq<Sample>, rest: seq<seq<Sample>>, bound: real)
    requires forall i :: 0 <= i < |samples| ==> samples[i].h <= bound
    requires SegmentsBelow(rest, bound)
    ensures SegmentsBelow([samples] + rest, bound)
  {
    var segments: seq<seq<Sample>> := [samples] + rest;
    forall j, i | 0 <= j < |segments| && 0 <= i < |segments[j]|
      ensures segments[j][i].h <= bound
    {
      if j > 0 {
        assert segments[j] == rest[j - 1];
      }
    }
  }

  /** A phase keeps the mass and the remaining propellant in step. */
  lemma RunPhaseConsistent(v: Vehicle, integrate: Integrator, payload: real, area: real, cd: real,
                           phase: Phase, b: Burn, h0: real, v0: real, advances: nat)
    requires WellFormed(v) && b.stage < |v.thrust| && advances <= 2 && Consistent(v, b)
    requires RunPhase(v, integrate, payload, area, cd, phase, b, h0, v0, advances).Ok?
    ensures Consistent(v, RunPhase(v, integrate, payload, area, cd, phase, b, h0, v0, advances).value.burn)
  {
    var e := RunPhase(v, integrate, payload, area, cd, phase, b, h0, v0, advances).value;
    RunPhaseFacts(v, integrate, payload, area, cd, phase, b, h0, v0, advances);
    if e.burn.stage != b.stage {
      StageStartConsistent(v, e.burn.stage);
    }
  }

  // ---------------------------------------------------------------------------
  // Orbit insertion
  // ---------------------------------------------------------------------------

  /** The impulsive velocity gains `T / (m0 + mpay - mdot * tfinal) * tfinal` of
      up to `2 - count` further stages after `stage`, in order. */
  function ExtraStages(v: Vehicle, payload: real, stage: nat, count: nat): (r: Result<real>)
    requires WellFormed(v) && stage < |v.thrust| && count <= 2
    decreases 2 - count
    ensures r.Err? ==> r.error == ZeroDivision
  {
    if stage < |v.thrust| - 1 && count < 2 then
      var k := stage + 1;
      var mdot := v.massFlow[k];
      if mdot == 0.0 then Err(ZeroDivision)
      else
        var tFinal := v.propellant[k] / mdot;
        var m0 := SuffixSum(v.structural, k) + SuffixSum(v.propellant, k);
        var denominator := m0 + payload - mdot * tFinal;
        if denominator == 0.0 then Err(ZeroDivision)
        else
          match ExtraStages(v, payload, k, count + 1)
          case Err(e) => Err(e)
          case Ok(more) => Ok(v.thrust[k] / denominator * tFinal + more)
    else Ok(0.0)
  }

  /** The impulsive burn of stage `k` divides by the mass left once that stage
      is empty, payload included. */
  lemma ExtraStageDenominator(v: Vehicle, payload: real, k: nat)
    requires WellFormed(v) && k < |v.thrust| && v.massFlow[k] != 0.0
    ensures var tFinal := v.propellant[k] / v.massFlow[k];
            SuffixSum(v.structural, k) + SuffixSum(v.propellant, k) + payload - v.massFlow[k] * tFinal
            == DryAbove(v, k) + payload
  {
    SuffixSumStep(v.propellant, k);
  }

  /** No further stage, no further gain. */
  lemma ExtraStagesLast(v: Vehicle, payload: real, count: nat)
    requires WellFormed(v) && |v.thrust| > 0 && count <= 2
    ensures ExtraStages(v, payload, |v.thrust| - 1, count) == Ok(0.0)
  {
  }

  /** The final velocity: half the velocity at the 100 km crossing, plus the
      rocket equation `T / mdot * log((m0 + mpay) / (m0 + mpay - mp_remaining))`
      for the propellant left in the burning stage, plus the further stages.  The
      logarithm's argument is a numpy float, so a zero or negative one gives a
      non-finite velocity rather than an exception. */
  function InsertionVelocity(v: Vehicle, m: Transcendentals, payload: real, b: Burn, crossing: Sample): (r: Result<real>)
    requires WellFormed(v) && b.stage < |v.thrust| && v.massFlow[b.stage] != 0.0
    ensures r.Err? ==> r.error == NonFinite || r.error == ZeroDivision
    ensures b.m0 + payload - b.remaining > 0.0 && b.m0 + payload > 0.0 ==> r.Err? ==> r.error == ZeroDivision
  {
    var mdot := v.massFlow[b.stage];
    var denominator := b.m0 + payload - b.remaining;
    if denominator == 0.0 then Err(NonFinite)
    else
      var ratio := (b.m0 + payload) / denominator;
      if ratio <= 0.0 then Err(NonFinite)
      else
        var vFinal := crossing.v / 2.0 + v.thrust[b.stage] / mdot * m.log(ratio);
        match ExtraStages(v, payload, b.stage, 0)
        case Err(e) => Err(e)
        case Ok(extra) => Ok(vFinal + extra)
  }

  /** In a consistent burn the rocket equation's final mass is what stays on
      board once the stage is empty, payload included. */
  lemma InsertionDenominator(v: Vehicle, payload: real, b: Burn)
    requires WellFormed(v) && Consistent(v, b)
    ensures b.m0 + payload - b.remaining == DryAbove(v, b.stage) + payload
  {
  }

  /** `mu = 3.986004418e14`, `r_earth = 6378e3` and the 400 km orbit altitude. */
  const MU: real := 398600441800000.0
  const R_EARTH: real := 6378000.0
  const ORBIT_ALTITUDE: real := 400000.0

  /** The circular orbit speed `sqrt(mu / (r_earth + h))`. */
  function OrbitSpeed(m: Transcendentals): real
  {
    m.sqrt(MU / (R_EARTH + ORBIT_ALTITUDE))
  }

  /** When `sqrt` returns the non-negative square root of `mu / (r_earth + h)`,
      the threshold is the speed of the circular orbit: gravity `mu / r^2`
      equals the centripetal acceleration `v^2 / r`. */
  lemma CircularOrbitSpeed(m: Transcendentals)
    requires m.sqrt(MU / (R_EARTH + ORBIT_ALTITUDE)) >= 0.0
    requires m.sqrt(MU / (R_EARTH + ORBIT_ALTITUDE)) * m.sqrt(MU / (R_EARTH + ORBIT_ALTITUDE)) == MU / (R_EARTH + ORBIT_ALTITUDE)
    ensures OrbitSpeed(m) > 0.0
    ensures OrbitSpeed(m) * OrbitSpeed(m) / (R_EARTH + ORBIT_ALTITUDE) == MU / ((R_EARTH + ORBIT_ALTITUDE) * (R_EARTH + ORBIT_ALTITUDE))
  {
    var r := R_EARTH + ORBIT_ALTITUDE;
    var w := OrbitSpeed(m);
    assert w * w == MU / r;
    assert w != 0.0;
  }

  /** The search's test `v_final > v_orbit`: when `sqrt` is the square root, a
      trial with a non-negative final velocity reaches orbit exactly when the
      square of that velocity exceeds `mu / (r_earth + h)`. */
  lemma FeasibleIffFaster(m: Transcendentals, finalVelocity: real)
    requires m.sqrt(MU / (R_EARTH + ORBIT_ALTITUDE)) >= 0.0
    requires m.sqrt(MU / (R_EARTH + ORBIT_ALTITUDE)) * m.sqrt(MU / (R_EARTH + ORBIT_ALTITUDE)) == MU / (R_EARTH + ORBIT_ALTITUDE)
    requires finalVelocity >= 0.0
    ensures finalVelocity > OrbitSpeed(m) <==> finalVelocity * finalVelocity > MU / (R_EARTH + ORBIT_ALTITUDE)
  {
    var w := OrbitSpeed(m);
    var u := finalVelocity;
    assert w >= 0.0 && w * w == MU / (R_EARTH + ORBIT_ALTITUDE);
    assert u * u - w * w == (u - w) * (u + w);
    if u > w {
      assert u - w > 0.0 && u + w > 0.0;
      assert (u - w) * (u + w) > 0.0;
    } else {
      assert w - u >= 0.0 && u + w >= 0.0;
      assert (w - u) * (u + w) >= 0.0;
    }
  }

  // ---------------------------------------------------------------------------
  // One trial
  // ---------------------------------------------------------------------------

  /** The two phases' recorded segments and the final velocity of one trial. */
  datatype TrialRecord = TrialRecord(first: seq<seq<Sample>>, second: seq<seq<Sample>>, finalVelocity: real)

  /** One pass of the `while feasible == 1` loop for payload `payload`, with
      `area` the reference area `s` of the drag term, or the exception it raises
      (`T_stages[0]` of no stages, a zero mass flow, an integration that never
      crosses its altitude); numpy's non-finite log argument is the remaining
      error kind. */
  function Trial(v: Vehicle, m: Transcendentals, integrate: Integrator, area: real, payload: real): (r: Result<TrialRecord>)
    requires WellFormed(v)
    ensures |v.thrust| == 0 ==> r == Err(IndexOutOfRange)
    ensures r.Err? ==> r.error == ZeroDivision || r.error == IndexOutOfRange || r.error == NonFinite
  {
    if |v.thrust| == 0 then Err(IndexOutOfRange)
    else
      var cd := DragCoefficient(v.coneAngle, v.lengthRatio);
      match RunPhase(v, integrate, payload, area, cd, VerticalAscent, StageStart(v, 0), 0.0, 0.0, 0)
      case Err(e) => Err(e)
      case Ok(first) =>
        var b1 := AfterCrossing(first.burn, v.massFlow[first.burn.stage], first.crossing.t);
        match RunPhase(v, integrate, payload, area, cd, GravityTurn, b1, first.crossing.h, first.crossing.v, 0)
        case Err(e) => Err(e)
        case Ok(second) =>
          var b2 := AfterCrossing(second.burn, v.massFlow[second.burn.stage], second.crossing.t);
          match InsertionVelocity(v, m, payload, b2, second.crossing)
          case Err(e) => Err(e)
          case Ok(vFinal) => Ok(TrialRecord(first.segments, second.segments, vFinal))
  }

  /** What a successful trial records: every phase-1 height is at most 10 km,
      every phase-2 height at most 100 km, and no phase fires more stages than
      the vehicle has. */
  lemma TrialBounds(v: Vehicle, m: Transcendentals, integrate: Integrator, area: real, payload: real)
    requires WellFormed(v) && Trial(v, m, integrate, area, payload).Ok?
    ensures var r := Trial(v, m, integrate, area, payload).value;
            SegmentsBelow(r.first, 10000.0) && SegmentsBelow(r.second, 100000.0)
            && 1 <= |r.first| <= |v.thrust| && 1 <= |r.second| <= |v.thrust|
  {
    var cd := DragCoefficient(v.coneAngle, v.lengthRatio);
    var first := RunPhase(v, integrate, payload, area, cd, VerticalAscent, StageStart(v, 0), 0.0, 0.0, 0).value;
    RunPhaseFacts(v, integrate, payload, area, cd, VerticalAscent, StageStart(v, 0), 0.0, 0.0, 0);
    RunPhaseBelow(v, integrate, payload, area, cd, VerticalAscent, StageStart(v, 0), 0.0, 0.0, 0);
    var b1 := AfterCrossing(first.burn, v.massFlow[first.burn.stage], first.crossing.t);
    RunPhaseFacts(v, integrate, payload, area, cd, GravityTurn, b1, first.crossing.h, first.crossing.v, 0);
    RunPhaseBelow(v, integrate, payload, area, cd, GravityTurn, b1, first.crossing.h, first.crossing.v, 0);
  }

  /** An integrator that never rises above 100 km makes every trial fail: the
      vertical ascent never crosses 10 km, or the gravity turn never crosses
      100 km, and the failure is a division by zero or an index error. */
  lemma TrialNeverCrossing(v: Vehicle, m: Transcendentals, integrate: Integrator, area: real, payload: real)
    requires WellFormed(v) && NeverAbove(integrate, 100000.0)
    ensures Trial(v, m, integrate, area, payload).Err?
    ensures Trial(v, m, integrate, area, payload).error in {ZeroDivision, IndexOutOfRange}
  {
    if |v.thrust| > 0 {
      var cd := DragCoefficient(v.coneAngle, v.lengthRatio);
      var r1 := RunPhase(v, integrate, payload, area, cd, VerticalAscent, StageStart(v, 0), 0.0, 0.0, 0);
      if r1.Ok? {
        var first := r1.value;
        var b1 := AfterCrossing(first.burn, v.massFlow[first.burn.stage], first.crossing.t);
        NeverCrossingFails(v, integrate, payload, area, cd, GravityTurn, b1, first.crossing.h, first.crossing.v, 0);
      }
    }
  }

  /** Along a consistent burn with non-negative masses, positive mass flow and
      non-negative payload, the mass `m0 + mpay - mdot * t` in the equation of
      motion stays positive on the whole window `[0, remaining / mdot - 5]`. */
  lemma BurnWindow(v: Vehicle, b: Burn, payload: real, t: real)
    requires WellFormed(v) && Consistent(v, b)
    requires forall i :: 0 <= i < |v.thrust| ==> v.structural[i] >= 0.0 && v.propellant[i] >= 0.0
    requires v.massFlow[b.stage] > 0.0 && payload >= 0.0
    requires 0.0 <= t <= b.remaining / v.massFlow[b.stage] - 5.0
    ensures b.m0 + payload - v.massFlow[b.stage] * t > 0.0
  {
    var mdot := v.massFlow[b.stage];
    SuffixSumNonNegative(v.structural, b.stage);
    SuffixSumNonNegative(v.propellant, b.stage + 1);
    assert mdot * t <= mdot * (b.remaining / mdot - 5.0);
    assert mdot * (b.remaining / mdot - 5.0) == b.remaining - 5.0 * mdot;
  }

  /** The phase-2 starting state of a trial is consistent, so `BurnWindow`
      applies to both phases. */
  lemma SecondPhaseConsistent(v: Vehicle, integrate: Integrator, payload: real, area: real, cd: real)
    requires WellFormed(v) && |v.thrust| > 0
    requires RunPhase(v, integrate, payload, area, cd, VerticalAscent, StageStart(v, 0), 0.0, 0.0, 0).Ok?
    ensures var first := RunPhase(v, integrate, payload, area, cd, VerticalAscent, StageStart(v, 0), 0.0, 0.0, 0).value;
            Consistent(v, AfterCrossing(first.burn, v.massFlow[first.burn.stage], first.crossing.t))
  {
    StageStartConsistent(v, 0);
    RunPhaseConsistent(v, integrate, payload, area, cd, VerticalAscent, StageStart(v, 0), 0.0, 0.0, 0);
  }

  // ---------------------------------------------------------------------------
  // Flattening and the payload search
  // ---------------------------------------------------------------------------

  /** `[item for sublist in segments for item in sublist]`. */
  function Flatten(segments: seq<seq<Sample>>): (s: seq<Sample>)
  {
    if segments == [] then [] else segments[0] + Flatten(segments[1..])
  }

  /** Flattening keeps every recorded height below the bound. */
  lemma {:induction false} FlattenBelow(segments: seq<seq<Sample>>, bound: real)
    requires SegmentsBelow(segments, bound)
    ensures forall i :: 0 <= i < |Flatten(segments)| ==> Flatten(segments)[i].h <= bound
  {
    if segments != [] {
      assert SegmentsBelow(segments[1..], bound) by {
        forall j, i | 0 <= j < |segments[1..]| && 0 <= i < |segments[1..][j]|
          ensures segments[1..][j][i].h <= bound
        {
          assert segments[1..][j] == segments[j + 1];
        }
      }
      FlattenBelow(segments[1..], bound);
      var f := Flatten(segments);
      forall i | 0 <= i < |f| ensures f[i].h <= bound {
        if i >= |segments[0]| {
          assert f[i] == Flatten(segments[1..])[i - |segments[0]|];
        }
      }
    }
  }

  /** `h1 + h2` of a trial, the heights of all its recorded samples in order. */
  function Heights(r: TrialRecord): (h: seq<real>)
    ensures |h| == |Flatten(r.first) + Flatten(r.second)|
  {
    var s := Flatten(r.first) + Flatten(r.second);
    seq(|s|, i requires 0 <= i < |s| => s[i].h)
  }

  /** `v1 + v2` of a trial. */
  function Velocities(r: TrialRecord): (w: seq<real>)
    ensures |w| == |Flatten(r.first) + Flatten(r.second)|
  {
    var s := Flatten(r.first) + Flatten(r.second);
    seq(|s|, i requires 0 <= i < |s| => s[i].v)
  }

  /** A record whose samples all lie below `bound` reports heights below it. */
  lemma RecordBelow(r: TrialRecord, bound: real)
    requires SegmentsBelow(r.first, bound) && SegmentsBelow(r.second, bound)
    ensures |Heights(r)| == |Velocities(r)|
    ensures forall i :: 0 <= i < |Heights(r)| ==> Heights(r)[i] <= bound
  {
    FlattenBelow(r.first, bound);
    FlattenBelow(r.second, bound);
    var s := Flatten(r.first) + Flatten(r.second);
    forall i | 0 <= i < |s| ensures s[i].h <= bound {
      if i >= |Flatten(r.first)| {
        assert s[i] == Flatten(r.second)[i - |Flatten(r.first)|];
      }
    }
  }

  /** The height and velocity lists of a trial pair up sample by sample, and the
      heights of a successful trial never exceed 100 km. */
  lemma TrajectoryAligned(v: Vehicle, m: Transcendentals, integrate: Integrator, area: real, payload: real)
    requires WellFormed(v) && Trial(v, m, integrate, area, payload).Ok?
    ensures var r := Trial(v, m, integrate, area, payload).value;
            |Heights(r)| == |Velocities(r)|
            && forall i :: 0 <= i < |Heights(r)| ==> Heights(r)[i] <= 100000.0
  {
    var r := Trial(v, m, integrate, area, payload).value;
    TrialBounds(v, m, integrate, area, payload);
    assert SegmentsBelow(r.first, 100000.0);
    RecordBelow(r, 100000.0);
  }

  /** A trial as a function of the payload mass, for one vehicle. */
  type Flight = real -> Result<TrialRecord>

  /** The trials of `calculate` for one vehicle and reference area. */
  function Flights(v: Vehicle, m: Transcendentals, integrate: Integrator, area: real): Flight
    requires WellFormed(v)
  {
    payload => Trial(v, m, integrate, area, payload)
  }

  /** The trial the search flies `i`-th, with payload `100 * i`. */
  function TrialAt(flight: Flight, i: nat): Result<TrialRecord>
  {
    flight((100 * i) as real)
  }

  predicate Feasible(m: Transcendentals, r: TrialRecord)
  {
    r.finalVelocity > OrbitSpeed(m)
  }

  /** The first `k` trials run and reach orbit. */
  predicate AllFeasible(flight: Flight, m: Transcendentals, k: nat)
  {
    forall i :: 0 <= i < k ==> TrialAt(flight, i).Ok? && Feasible(m, TrialAt(flight, i).value)
  }

  /** The search stops at trial `k`: all earlier trials reach orbit, trial `k` runs and does not. */
  predicate StopsAt(flight: Flight, m: Transcendentals, k: nat)
  {
    AllFeasible(flight, m, k) && TrialAt(flight, k).Ok? && !Feasible(m, TrialAt(flight, k).value)
  }

  /** The result of `calculate`. */
  datatype Outcome = Outcome(payload: nat, heights: seq<real>, velocities: seq<real>)

  /** What `calculate` returns when the search stops at trial `k`: the payload
      `max(100 k - 100, 0)`, and the trajectory of the last trial that reached orbit,
      except that when the reported payload is 0 it is the trajectory of the last
      trial flown, the one that did not. */
  function Reported(flight: Flight, m: Transcendentals, k: nat): Outcome
    requires StopsAt(flight, m, k)
  {
    var j := if k <= 1 then k else k - 1;
    var r := TrialAt(flight, j).value;
    Outcome(if k == 0 then 0 else 100 * (k - 1), Heights(r), Velocities(r))
  }

  /** The search stops at one trial at most. */
  lemma StopUnique(flight: Flight, m: Transcendentals, k1: nat, k2: nat)
    requires StopsAt(flight, m, k1) && StopsAt(flight, m, k2)
    ensures k1 == k2
  {
  }

  /** The reported payload is the largest multiple of 100 kg below the first
      that fails: when it is positive, its own trial reached orbit and the next one did not. */
  lemma ReportedPayload(flight: Flight, m: Transcendentals, k: nat)
    requires StopsAt(flight, m, k) && k >= 2
    ensures Reported(flight, m, k).payload == 100 * (k - 1)
    ensures TrialAt(flight, k - 1).Ok? && Feasible(m, TrialAt(flight, k - 1).value)
    ensures Reported(flight, m, k).payload + 100 == 100 * k && !Feasible(m, TrialAt(flight, k).value)
    ensures Reported(flight, m, k).heights == Heights(TrialAt(flight, k - 1).value)
  {
  }

  /** What `calculate` reports once trial `k` fails to reach orbit, `best`
      being the last trial that did (when there is one) and `last` trial `k`. */
  function Finish(k: nat, best: TrialRecord, last: TrialRecord): Outcome
  {
    if k >= 2 then Outcome(100 * (k - 1), Heights(best), Velocities(best))
    else Outcome(0, Heights(last), Velocities(last))
  }

  /** The search from trial `k` on, with `budget` trials left before the bound. */
  function SearchFrom(flight: Flight, m: Transcendentals, k: nat, budget: nat, best: TrialRecord): (r: Result<Outcome>)
    decreases budget
    ensures r.Ok? ==> r.value.payload % 100 == 0 && r.value.payload + 100 <= 100 * (k + budget)
  {
    if budget == 0 then Err(SearchBoundExceeded)
    else
      match TrialAt(flight, k)
      case Err(e) => Err(e)
      case Ok(last) =>
        if Feasible(m, last) then SearchFrom(flight, m, k + 1, budget - 1, last)
        else Ok(Finish(k, best, last))
  }

  /** The whole search, from a payload of 0 kg. */
  function Search(flight: Flight, m: Transcendentals, maxTrials: nat): (r: Result<Outcome>)
    ensures r.Ok? ==> r.value.payload % 100 == 0 && r.value.payload < 100 * maxTrials
  {
    SearchFrom(flight, m, 0, maxTrials, TrialRecord([], [], 0.0))
  }

  /** The search from trial `k` on: it stops at the first trial that runs and
      fails to reach orbit and reports as `Reported` says, or stops with the
      error of the first trial that does not run, or exhausts its budget with
      every trial so far reaching orbit. */
  lemma {:induction false} SearchFromMeaning(flight: Flight, m: Transcendentals, k: nat, budget: nat, best: TrialRecord)
    requires AllFeasible(flight, m, k)
    requires k > 0 ==> TrialAt(flight, k - 1) == Ok(best)
    ensures var r := SearchFrom(flight, m, k, budget, best);
            r.Ok? ==> exists j :: k <= j < k + budget && StopsAt(flight, m, j) && r.value == Reported(flight, m, j)
    ensures var r := SearchFrom(flight, m, k, budget, best);
            r.Err? ==> (r.error == SearchBoundExceeded && AllFeasible(flight, m, k + budget))
                       || exists j :: k <= j < k + budget && AllFeasible(flight, m, j) && TrialAt(flight, j) == Err(r.error)
    decreases budget
  {
    if budget > 0 {
      match TrialAt(flight, k)
      case Err(e) =>
      case Ok(last) =>
        if Feasible(m, last) {
          assert AllFeasible(flight, m, k + 1) by {
            forall i | 0 <= i < k + 1
              ensures TrialAt(flight, i).Ok? && Feasible(m, TrialAt(flight, i).value)
            {
              if i < k {
                assert 0 <= i < k;
              }
            }
          }
          SearchFromMeaning(flight, m, k + 1, budget - 1, last);
        } else {
          assert StopsAt(flight, m, k);
          assert Reported(flight, m, k) == Finish(k, best, last);
        }
    }
  }

  /** The meaning of the whole search: on success it reports the trial where it
      stops; a failing trial's error stops it; `SearchBoundExceeded` means every
      trial within the bound reached orbit. */
  lemma SearchMeaning(flight: Flight, m: Transcendentals, maxTrials: nat)
    ensures var r := Search(flight, m, maxTrials);
            r.Ok? ==> exists k :: 0 <= k < maxTrials && StopsAt(flight, m, k) && r.value == Reported(flight, m, k)
    ensures var r := Search(flight, m, maxTrials);
            r.Err? ==> (r.error == SearchBoundExceeded && AllFeasible(flight, m, maxTrials))
                       || exists k :: 0 <= k < maxTrials && AllFeasible(flight, m, k) && TrialAt(flight, k) == Err(r.error)
  {
    SearchFromMeaning(flight, m, 0, maxTrials, TrialRecord([], [], 0.0));
  }

  /** A trial never reports the search's own bound error, so for the trials of a
      vehicle `SearchBoundExceeded` means that every trial within the bound reached orbit. */
  lemma FlightsBoundMeaning(v: Vehicle, m: Transcendentals, integrate: Integrator, area: real, maxTrials: nat)
    requires WellFormed(v)
    ensures Search(Flights(v, m, integrate, area), m, maxTrials) == Err(SearchBoundExceeded)
            ==> AllFeasible(Flights(v, m, integrate, area), m, maxTrials)
  {
    var f := Flights(v, m, integrate, area);
    SearchMeaning(f, m, maxTrials);
    var r := Search(f, m, maxTrials);
    forall k: nat | k < maxTrials
      ensures TrialAt(f, k) != Err(SearchBoundExceeded)
    {
      assert TrialAt(f, k) == Trial(v, m, integrate, area, (100 * k) as real);
    }
  }

  /** With an integrator that never rises above 100 km, the search fails at
      once with the error of the first trial, the one of payload 0. */
  lemma SearchNeverCrossing(v: Vehicle, m: Transcendentals, integrate: Integrator, area: real, maxTrials: nat)
    requires WellFormed(v) && NeverAbove(integrate, 100000.0) && maxTrials > 0
    ensures Trial(v, m, integrate, area, 0.0).Err?
    ensures Search(Flights(v, m, integrate, area), m, maxTrials) == Err(Trial(v, m, integrate, area, 0.0).error)
  {
    TrialNeverCrossing(v, m, integrate, area, 0.0);
    assert TrialAt(Flights(v, m, integrate, area), 0) == Trial(v, m, integrate, area, 0.0);
  }

  /** The `while feasible == 1` loop of `calculate` and the payload and
      trajectory it reports, run for at most `maxTrials` trials (the source's
      loop has no bound), `flight` standing for the body of the loop. */
  method RunSearch(flight: Flight, m: Transcendentals, maxTrials: nat) returns (r: Result<Outcome>)
    ensures r == Search(flight, m, maxTrials)
  {
    var mpay: nat := 0;
    var feasible := true;
    var trials: nat := 0;
    ghost var best := TrialRecord([], [], 0.0);
    var hVector: seq<real> := [];
    var vVector: seq<real> := [];
    var last := TrialRecord([], [], 0.0);
    while feasible
      invariant trials <= maxTrials
      invariant feasible ==> mpay == 100 * trials
      invariant !feasible ==> mpay + 100 == 100 * trials
      invariant feasible ==> Search(flight, m, maxTrials) == SearchFrom(flight, m, trials, maxTrials - trials, best)
      invariant !feasible ==> trials > 0 && Search(flight, m, maxTrials) == Ok(Finish(trials - 1, best, last))
      invariant hVector == Heights(best) && vVector == Velocities(best)
      decreases maxTrials - trials, feasible
    {
      if trials == maxTrials {
        return Err(SearchBoundExceeded);
      }
      var trial := flight(mpay as real);
      if trial.Err? {
        return Err(trial.error);
      }
      trials := trials + 1;
      last := trial.value;
      if Feasible(m, trial.value) {
        mpay := mpay + 100;
        best := last;
        hVector := Heights(last);
        vVector := Velocities(last);
      } else {
        feasible := false;
      }
    }
    mpay := if mpay >= 100 then mpay - 100 else 0;
    if mpay == 0 {
      hVector := Heights(last);
      vVector := Velocities(last);
    }
    r := Ok(Outcome(mpay, hVector, vVector));
  }

  /** `calculate` as written: the search over the trials of one vehicle, flown
      with the reference area `pi + diameter ** 2 / 4`. */
  method Calculate(v: Vehicle, m: Transcendentals, integrate: Integrator, maxTrials: nat) returns (r: Result<Outcome>)
    requires WellFormed(v)
    ensures r == Search(Flights(v, m, integrate, ReferenceAreaAsWritten(v.diameter)), m, maxTrials)
  {
    r := RunSearch(Flights(v, m, integrate, ReferenceAreaAsWritten(v.diameter)), m, maxTrials);
  }

  /** `calculate` with the frontal disc `pi * diameter ** 2 / 4` as the reference area. */
  method CalculateCorrected(v: Vehicle, m: Transcendentals, integrate: Integrator, maxTrials: nat) returns (r: Result<Outcome>)
    requires WellFormed(v)
    ensures r == Search(Flights(v, m, integrate, ReferenceArea(v.diameter)), m, maxTrials)
  {
    r := RunSearch(Flights(v, m, integrate, ReferenceArea(v.diameter)), m, maxTrials);
  }
}
