/** The geometry calculator (tools/Geometry_calculator/Geometry_calculator.py):
    the diameter from the length-to-diameter ratio, the head's surface and the
    payload volume it encloses, and per stage the cylinder volume and, for
    stages with liquid engines, the hydrogen and oxygen tank volumes and
    surfaces. */
module Geometry {
  import opened Outcomes
  import opened Maths
  import opened Strings

  // ---------------------------------------------------------------------------
  // Engine strings (`read_input`)
  // ---------------------------------------------------------------------------

  /** How many engines of each kind one `Stage` element lists. */
  datatype StageEngines = StageEngines(srb: nat, p80: nat, gem60: nat, vulcain: nat, rs68: nat, sIvb: nat)

  function LiquidEngines(c: StageEngines): nat
  {
    c.vulcain + c.rs68 + c.sIvb
  }

  /** The string the chain of `if`s assigns for one stage: the last engine
      kind present in the order SRB, P80, GEM60, VULCAIN, RS68, SIVB wins and
      its name is repeated once per engine; `None` when the stage lists none,
      so that `engine_stage` keeps whatever it held before. */
  function StageEngineString(c: StageEngines): (r: Option<string>)
    ensures r.None? <==> c.srb + c.p80 + c.gem60 + c.vulcain + c.rs68 + c.sIvb == 0
    ensures r.Some? ==> |r.value| > 0
  {
    if c.sIvb > 0 then Some(Repeat("s_ivb", c.sIvb))
    else if c.rs68 > 0 then Some(Repeat("rs68", c.rs68))
    else if c.vulcain > 0 then Some(Repeat("vulcain", c.vulcain))
    else if c.gem60 > 0 then Some(Repeat("gem60", c.gem60))
    else if c.p80 > 0 then Some(Repeat("p80", c.p80))
    else if c.srb > 0 then Some(Repeat("srb", c.srb))
    else None
  }

  /** The last stage up to `k` that lists an engine (stage 0 if none does). */
  function LastListed(stages: seq<StageEngines>, k: nat): (j: nat)
    requires k < |stages|
    ensures j <= k
    ensures StageEngineString(stages[j]).Some? || j == 0
    ensures forall i :: j < i <= k ==> StageEngineString(stages[i]).None?
  {
    if StageEngineString(stages[k]).Some? || k == 0 then k else LastListed(stages, k - 1)
  }

  /** The value `engine_stage` holds when stage `k` is appended: the string of
      the last stage up to `k` that lists an engine, if there is one. */
  function Carried(stages: seq<StageEngines>, k: nat): (r: Option<string>)
    requires k < |stages|
    ensures r.None? <==> forall j :: 0 <= j <= k ==> StageEngineString(stages[j]).None?
  {
    StageEngineString(stages[LastListed(stages, k)])
  }

  /** The `for stage in stages` loop of `read_input` that builds `engines_stages`. */
  method EncodeEngines(stages: seq<StageEngines>) returns (r: Result<seq<string>>)
    ensures r.Err? <==> |stages| > 0 && StageEngineString(stages[0]).None?
    ensures r.Err? ==> r.error == UnboundName
    ensures r.Ok? ==> |r.value| == |stages| && forall i :: 0 <= i < |stages| ==> Carried(stages, i) == Some(r.value[i])
  {
    var strings: seq<string> := [];
    var current: Option<string> := None;
    for k := 0 to |stages|
      invariant |strings| == k
      invariant forall i :: 0 <= i < k ==> Carried(stages, i) == Some(strings[i])
      invariant k == 0 ==> current.None?
      invariant k > 0 ==> current == Carried(stages, k - 1) && StageEngineString(stages[0]).Some?
    {
      var s := StageEngineString(stages[k]);
      if s.Some? {
        current := s;
      }
      if current.None? {
        return Err(UnboundName);
      }
      strings := strings + [current.value];
    }
    return Ok(strings);
  }

  /** The test `vulcain + rs68 + s_ivb > 0` that `calculate` applies to a stage's string. */
  predicate IsLiquid(engines: string)
  {
    Count("vulcain", engines) + Count("rs68", engines) + Count("s_ivb", engines) > 0
  }

  /** A stage's own string passes the liquid test exactly when it lists a liquid engine. */
  lemma LiquidString(c: StageEngines)
    requires StageEngineString(c).Some?
    ensures IsLiquid(StageEngineString(c).value) <==> LiquidEngines(c) > 0
  {
    var s := StageEngineString(c).value;
    if c.sIvb > 0 {
      CountRepeat("s_ivb", c.sIvb);
    } else if c.rs68 > 0 {
      CountRepeat("rs68", c.rs68);
    } else if c.vulcain > 0 {
      CountRepeat("vulcain", c.vulcain);
    } else if c.gem60 > 0 {
      CountAbsentRepeat("vulcain", "gem60", c.gem60, 'v');
      CountAbsentRepeat("rs68", "gem60", c.gem60, 'r');
      CountAbsentRepeat("s_ivb", "gem60", c.gem60, '_');
    } else if c.p80 > 0 {
      CountAbsentRepeat("vulcain", "p80", c.p80, 'v');
      CountAbsentRepeat("rs68", "p80", c.p80, 'r');
      CountAbsentRepeat("s_ivb", "p80", c.p80, '_');
    } else {
      CountAbsentRepeat("vulcain", "srb", c.srb, 'v');
      CountAbsentRepeat("rs68", "srb", c.srb, '6');
      CountAbsentRepeat("s_ivb", "srb", c.srb, '_');
    }
  }

  /** A stage that lists no engine inherits the liquid test of the last stage
      before it that does. */
  lemma CarriedLiquid(stages: seq<StageEngines>, k: nat)
    requires k < |stages| && Carried(stages, k).Some?
    ensures IsLiquid(Carried(stages, k).value) <==> LiquidEngines(stages[LastListed(stages, k)]) > 0
  {
    LiquidString(stages[LastListed(stages, k)]);
  }

  // ---------------------------------------------------------------------------
  // The calculation (`calculate`)
  // ---------------------------------------------------------------------------

  /** Stoichiometric oxidizer-to-fuel mass ratio. */
  const RATIO_O_F: real := 7.937
  const DENSITY_LOX: real := 1140.0
  const DENSITY_LH2: real := 71.0

  datatype Head = Head(surfaceTip: real, volumeAvailable: real)

  /** The head's surface and enclosed volume for the shape named in the input:
      "Cone", "Sphere", and anything else is an ellipsoid. */
  function HeadOf(m: Transcendentals, headShape: string, coneAngle: real, lRatio: real,
                  totalLength: real, radius: real): (r: Result<Head>)
    ensures r.Err? ==> r.error == ZeroDivision || r.error == ComplexResult || r.error == NonFinite
    ensures headShape == "Sphere" ==> r.Ok?
  {
    if headShape == "Cone" then
      var t := m.tan(coneAngle * PI / 180.0);
      if t == 0.0 then Err(ZeroDivision)
      else
        var hCone := radius / t;
        var g := m.sqrt(radius * radius + hCone * hCone);
        Ok(Head(PI * radius * g, 1.0 / 3.0 * PI * hCone * (radius * radius)))
    else if headShape == "Sphere" then
      Ok(Head(2.0 * PI * (radius * radius), 4.0 / 3.0 * PI * (radius * radius * radius) / 2.0))
    else
      var l := lRatio * totalLength;
      if l == 0.0 then Err(ZeroDivision)
      else if l * l - radius * radius < 0.0 then Err(ComplexResult)
      else
        var eps := m.sqrt(l * l - radius * radius) / l;
        if 1.0 - eps == 0.0 then Err(ZeroDivision)
        else if (1.0 + eps) / (1.0 - eps) <= 0.0 || eps == 0.0 then Err(NonFinite)
        else
          var surface := PI * (l * l) + (m.log((1.0 + eps) / (1.0 - eps)) * PI / eps * (radius * radius)) / 2.0;
          Ok(Head(surface, 2.0 / 3.0 * PI * l * (radius * radius)))
  }

  /** `pi * diameter ** 2 / 4 * length_stage`. */
  function StageVolume(diameter: real, length: real): real
  {
    PI * (diameter * diameter) / 4.0 * length
  }

  datatype Tanks = Tanks(fuelVolume: real, oxidizerVolume: real, fuelSurface: real, oxidizerSurface: real)

  /** The tanks of a stage: a liquid stage splits its volume between hydrogen and
      oxygen so that their masses stand in the stoichiometric ratio, each tank a
      cylinder of the stage's radius closed at both ends; any other stage has none. */
  function TanksOf(engines: string, volumeStage: real, radius: real): Tanks
    requires radius != 0.0 || !IsLiquid(engines)
  {
    if IsLiquid(engines) then
      var volumeH2 := volumeStage / (DENSITY_LH2 * RATIO_O_F / DENSITY_LOX + 1.0);
      var volumeLox := volumeStage - volumeH2;
      var heightOxidizer := volumeLox / PI / radius / radius;
      var heightFuel := volumeH2 / PI / radius / radius;
      Tanks(volumeH2, volumeLox,
            PI * (radius * radius) * 2.0 + 2.0 * PI * radius * heightFuel,
            PI * (radius * radius) * 2.0 + 2.0 * PI * radius * heightOxidizer)
    else Tanks(0.0, 0.0, 0.0, 0.0)
  }

  datatype Layout = Layout(
    diameter: real, surfaceTip: real, volumeAvailable: real,
    stagesVolume: seq<real>, fuelVolumes: seq<real>, oxidizerVolumes: seq<real>,
    fuelSurfaces: seq<real>, oxidizerSurfaces: seq<real>)

  function StageVolumes(diameter: real, lengths: seq<real>): (v: seq<real>)
    ensures |v| == |lengths|
  {
    seq(|lengths|, i requires 0 <= i < |lengths| => StageVolume(diameter, lengths[i]))
  }

  /** Whether some stage (of the first `n`) fails the radius division. */
  predicate DivisionFails(lengths: seq<real>, engines: seq<string>, radius: real, n: nat)
    requires n <= |lengths| <= |engines|
  {
    radius == 0.0 && exists i :: 0 <= i < n && IsLiquid(engines[i])
  }

  /** The tanks `calculate` records for stage `i`. */
  function StageTanks(lengths: seq<real>, engines: seq<string>, diameter: real, i: nat): Tanks
    requires i < |lengths| <= |engines|
    requires !DivisionFails(lengths, engines, diameter / 2.0, |lengths|)
  {
    TanksOf(engines[i], StageVolume(diameter, lengths[i]), diameter / 2.0)
  }

  /** What `calculate(...)` returns, or the exception it raises. */
  function Calculation(m: Transcendentals, lD: real, lengths: seq<real>, headShape: string,
                       coneAngle: real, lRatio: real, engines: seq<string>): (r: Result<Layout>)
    requires |lengths| <= |engines|
    ensures r.Err? ==> r.error == ZeroDivision || r.error == ComplexResult || r.error == NonFinite
    ensures lD != 0.0 && headShape == "Sphere" && Sum(lengths) != 0.0 ==> r.Ok?
  {
    if lD == 0.0 then Err(ZeroDivision)
    else
      var totalLength := Sum(lengths);
      var diameter := totalLength / lD;
      var radius := diameter / 2.0;
      match HeadOf(m, headShape, coneAngle, lRatio, totalLength, radius)
      case Err(e) => Err(e)
      case Ok(head) =>
        if DivisionFails(lengths, engines, radius, |lengths|) then Err(ZeroDivision)
        else
          var n := |lengths|;
          Ok(Layout(diameter, head.surfaceTip, head.volumeAvailable,
                    StageVolumes(diameter, lengths),
                    seq(n, i requires 0 <= i < n => StageTanks(lengths, engines, diameter, i).fuelVolume),
                    seq(n, i requires 0 <= i < n => StageTanks(lengths, engines, diameter, i).oxidizerVolume),
                    seq(n, i requires 0 <= i < n => StageTanks(lengths, engines, diameter, i).fuelSurface),
                    seq(n, i requires 0 <= i < n => StageTanks(lengths, engines, diameter, i).oxidizerSurface)))
  }

  /** `calculate`, with its `for stage in range(len(length_stages_list))` loop. */
  method Calculate(m: Transcendentals, lD: real, lengths: seq<real>, headShape: string,
                   coneAngle: real, lRatio: real, engines: seq<string>) returns (r: Result<Layout>)
    requires |lengths| <= |engines|
    ensures r == Calculation(m, lD, lengths, headShape, coneAngle, lRatio, engines)
  {
    if lD == 0.0 {
      return Err(ZeroDivision);
    }
    var totalLength := Sum(lengths);
    var diameter := totalLength / lD;
    var radius := diameter / 2.0;
    var head := HeadOf(m, headShape, coneAngle, lRatio, totalLength, radius);
    if head.Err? {
      return Err(head.error);
    }
    var stagesVolume: seq<real> := [];
    var fuelVolumes: seq<real> := [];
    var oxidizerVolumes: seq<real> := [];
    var fuelSurfaces: seq<real> := [];
    var oxidizerSurfaces: seq<real> := [];
    for stage := 0 to |lengths|
      invariant !DivisionFails(lengths, engines, radius, stage)
      invariant |stagesVolume| == stage && |fuelVolumes| == stage && |oxidizerVolumes| == stage
      invariant |fuelSurfaces| == stage && |oxidizerSurfaces| == stage
      invariant forall i :: 0 <= i < stage ==> stagesVolume[i] == StageVolume(diameter, lengths[i])
      invariant forall i :: 0 <= i < stage ==>
                  Tanks(fuelVolumes[i], oxidizerVolumes[i], fuelSurfaces[i], oxidizerSurfaces[i])
                  == TanksOf(engines[i], stagesVolume[i], radius)
    {
      var volumeStage := StageVolume(diameter, lengths[stage]);
      stagesVolume := stagesVolume + [volumeStage];
      if IsLiquid(engines[stage]) && radius == 0.0 {
        return Err(ZeroDivision);
      }
      var tanks := TanksOf(engines[stage], volumeStage, radius);
      fuelVolumes := fuelVolumes + [tanks.fuelVolume];
      oxidizerVolumes := oxidizerVolumes + [tanks.oxidizerVolume];
      fuelSurfaces := fuelSurfaces + [tanks.fuelSurface];
      oxidizerSurfaces := oxidizerSurfaces + [tanks.oxidizerSurface];
    }
    r := Ok(Layout(diameter, head.value.surfaceTip, head.value.volumeAvailable,
                   stagesVolume, fuelVolumes, oxidizerVolumes, fuelSurfaces, oxidizerSurfaces));
    ghost var expected := Calculation(m, lD, lengths, headShape, coneAngle, lRatio, engines);
    assert stagesVolume == expected.value.stagesVolume;
    assert fuelVolumes == expected.value.fuelVolumes;
    assert oxidizerVolumes == expected.value.oxidizerVolumes;
    assert fuelSurfaces == expected.value.fuelSurfaces;
    assert oxidizerSurfaces == expected.value.oxidizerSurfaces;
  }

  // ---------------------------------------------------------------------------
  // Properties of the calculation
  // ---------------------------------------------------------------------------

  /** The tanks fill the stage, and the oxygen-to-hydrogen mass ratio is the
      stoichiometric one. */
  lemma PropellantSplit(engines: string, volumeStage: real, radius: real)
    requires radius != 0.0 && IsLiquid(engines)
    ensures TanksOf(engines, volumeStage, radius).fuelVolume + TanksOf(engines, volumeStage, radius).oxidizerVolume == volumeStage
    ensures TanksOf(engines, volumeStage, radius).oxidizerVolume * DENSITY_LOX
            == RATIO_O_F * (TanksOf(engines, volumeStage, radius).fuelVolume * DENSITY_LH2)
    ensures volumeStage > 0.0 ==> TanksOf(engines, volumeStage, radius).fuelVolume > 0.0
  {
    var k := DENSITY_LH2 * RATIO_O_F / DENSITY_LOX;
    var t := TanksOf(engines, volumeStage, radius);
    assert t.fuelVolume == volumeStage / (k + 1.0);
    assert t.oxidizerVolume == volumeStage * k / (k + 1.0);
  }

  /** Each tank's surface is that of a cylinder of the stage's radius holding the
      tank's volume, with both ends closed: `2 pi r^2 + 2 V / r`. */
  lemma TankSurfaces(engines: string, volumeStage: real, radius: real)
    requires radius != 0.0 && IsLiquid(engines)
    ensures var t := TanksOf(engines, volumeStage, radius);
            t.fuelSurface == 2.0 * PI * (radius * radius) + 2.0 * t.fuelVolume / radius
            && t.oxidizerSurface == 2.0 * PI * (radius * radius) + 2.0 * t.oxidizerVolume / radius
  {
    var t := TanksOf(engines, volumeStage, radius);
    CylinderWall(t.fuelVolume, radius);
    CylinderWall(t.oxidizerVolume, radius);
  }

  lemma CylinderWall(volume: real, radius: real)
    requires radius != 0.0
    ensures 2.0 * PI * radius * (volume / PI / radius / radius) == 2.0 * volume / radius
  {
    var height := volume / PI / radius / radius;
    assert height * PI * radius * radius == volume;
  }

  /** A stage without liquid engines has no tanks. */
  lemma DryStage(engines: string, volumeStage: real, radius: real)
    requires !IsLiquid(engines)
    ensures TanksOf(engines, volumeStage, radius) == Tanks(0.0, 0.0, 0.0, 0.0)
  {
  }

  /** The stage volumes add up to the volume of one cylinder as long as the whole vehicle. */
  lemma {:induction false} StageVolumesSum(diameter: real, lengths: seq<real>)
    ensures Sum(StageVolumes(diameter, lengths)) == StageVolume(diameter, Sum(lengths))
  {
    if lengths != [] {
      var c := PI * (diameter * diameter) / 4.0;
      assert StageVolumes(diameter, lengths)[1..] == StageVolumes(diameter, lengths[1..]);
      StageVolumesSum(diameter, lengths[1..]);
      assert StageVolume(diameter, Sum(lengths)) == c * lengths[0] + c * Sum(lengths[1..]);
    }
  }

  /** A successful calculation describes every stage, the diameter times the
      length-to-diameter ratio is the total length, and the output's "fuel volume
      positive" test singles out the liquid stages of positive volume. */
  lemma LayoutShape(m: Transcendentals, lD: real, lengths: seq<real>, headShape: string,
                    coneAngle: real, lRatio: real, engines: seq<string>)
    requires |lengths| <= |engines|
    requires Calculation(m, lD, lengths, headShape, coneAngle, lRatio, engines).Ok?
    ensures var g := Calculation(m, lD, lengths, headShape, coneAngle, lRatio, engines).value;
            |g.stagesVolume| == |g.fuelVolumes| == |g.oxidizerVolumes| == |g.fuelSurfaces|
              == |g.oxidizerSurfaces| == |lengths|
            && g.diameter * lD == Sum(lengths)
            && forall i :: 0 <= i < |lengths| ==>
                 (g.fuelVolumes[i] > 0.0 <==> IsLiquid(engines[i]) && g.stagesVolume[i] > 0.0)
  {
    var g := Calculation(m, lD, lengths, headShape, coneAngle, lRatio, engines).value;
    forall i | 0 <= i < |lengths|
      ensures g.fuelVolumes[i] > 0.0 <==> IsLiquid(engines[i]) && g.stagesVolume[i] > 0.0
    {
      if IsLiquid(engines[i]) {
        PropellantSplit(engines[i], g.stagesVolume[i], g.diameter / 2.0);
      }
    }
  }

  /** A vehicle of total length zero has radius zero: once the head has been
      computed, any liquid stage divides by zero. */
  lemma ZeroLengthLiquid(m: Transcendentals, lD: real, lengths: seq<real>, headShape: string,
                         coneAngle: real, lRatio: real, engines: seq<string>, i: nat)
    requires |lengths| <= |engines| && i < |lengths|
    requires lD != 0.0 && Sum(lengths) == 0.0 && IsLiquid(engines[i])
    requires HeadOf(m, headShape, coneAngle, lRatio, 0.0, 0.0).Ok?
    ensures Calculation(m, lD, lengths, headShape, coneAngle, lRatio, engines) == Err(ZeroDivision)
  {
    var diameter := Sum(lengths) / lD;
    ZeroQuotient(Sum(lengths), lD);
    assert diameter / 2.0 == 0.0;
    assert DivisionFails(lengths, engines, diameter / 2.0, |lengths|) by {
      assert 0 <= i < |lengths| && IsLiquid(engines[i]);
    }
  }

  lemma ZeroQuotient(x: real, d: real)
    requires x == 0.0 && d != 0.0
    ensures x / d == 0.0
  {
  }

  /** A half sphere: volume `2/3 pi r^3` and curved surface `2 pi r^2`, so the
      volume is a third of the surface times the radius. */
  lemma SphereHead(m: Transcendentals, coneAngle: real, lRatio: real, totalLength: real, radius: real)
    ensures HeadOf(m, "Sphere", coneAngle, lRatio, totalLength, radius).Ok?
    ensures var h := HeadOf(m, "Sphere", coneAngle, lRatio, totalLength, radius).value;
            h.volumeAvailable == 2.0 / 3.0 * PI * (radius * radius * radius)
            && h.volumeAvailable == h.surfaceTip * radius / 3.0
  {
  }

  /** A cone of base radius `r` and half-angle `a` has height `r / tan a`; the
      division fails exactly when `tan a == 0`, in particular when the angle is
      missing from the input and defaults to 0. */
  lemma ConeHead(m: Transcendentals, coneAngle: real, lRatio: real, totalLength: real, radius: real)
    ensures var t := m.tan(coneAngle * PI / 180.0);
            var h := HeadOf(m, "Cone", coneAngle, lRatio, totalLength, radius);
            (h.Err? <==> t == 0.0)
            && (h.Err? ==> h.error == ZeroDivision)
            && (h.Ok? ==> h.value.volumeAvailable * t == PI * (radius * radius * radius) / 3.0)
  {
    var t := m.tan(coneAngle * PI / 180.0);
    if t != 0.0 {
      var hCone := radius / t;
      assert hCone * t == radius;
      assert 1.0 / 3.0 * PI * hCone * (radius * radius) * t == PI * (radius * radius) * (hCone * t) / 3.0;
    }
  }

  /** The ellipsoid head: it raises when its length is zero, yields a complex
      surface when it is shorter than the radius, and otherwise encloses
      `2/3 pi l r^2`. */
  lemma EllipseHead(m: Transcendentals, headShape: string, coneAngle: real, lRatio: real,
                    totalLength: real, radius: real)
    requires headShape != "Cone" && headShape != "Sphere"
    ensures var l := lRatio * totalLength;
            var h := HeadOf(m, headShape, coneAngle, lRatio, totalLength, radius);
            (l == 0.0 ==> h == Err(ZeroDivision))
            && (l != 0.0 && l * l < radius * radius ==> h == Err(ComplexResult))
            && (h.Ok? ==> h.value.volumeAvailable == 2.0 / 3.0 * PI * l * (radius * radius)
                          && radius * radius <= l * l)
  {
  }

  /** The default cone angle 0 (the element is absent) makes a conical head fail
      whenever `tan 0 == 0`. */
  lemma MissingConeAngle(m: Transcendentals, lRatio: real, totalLength: real, radius: real)
    requires m.tan(0.0) == 0.0
    ensures HeadOf(m, "Cone", GetOr(None, 0.0), lRatio, totalLength, radius) == Err(ZeroDivision)
  {
  }
}
