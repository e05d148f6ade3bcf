/**
 The stage-1 rendering of scripts/render_staged_nav2_params.py: shared Nav2 parameters are
 tightened at a fixed set of paths.  The names of the file are constructors, so that two names
 are the same exactly when their spelling is.  A document is a tree: a mapping that stands at two
 places of the file, as an anchor and its aliases would, is two mappings here.
 */
module Stage1Params {
  import opened ParameterTree

  datatype Result<+T> = Ok(value: T) | Err(error: Error)

  datatype Error = NotAMapping | Refused(setting: Setting) | ExternalSpeed | OutsideEnvelope

  const TOLERANCE: real := 0.35
  const MAX_VX: real := 0.30
  const ROBOTTRACK_MAX_VX: real := 0.50
  const MAX_WZ: real := 0.40
  const MAX_LINEAR_ACCEL: real := 0.30
  const MAX_ANGULAR_ACCEL: real := 0.80

  /** The settings that the rendering touches. */
  datatype Setting =
    | GoalTolerance | RotateTolerance
    | MinVelY | MaxVelY | AccLimY | DecelLimY
    | MaxVelX | MaxVelTheta | MaxSpeedXy | MinSpeedTheta | AccLimX | AccLimTheta
    | DecelLimX | DecelLimTheta
    | MaxVelocity | MinVelocity | MaxAccel | MaxDecel

  datatype Name =
    | ControllerServer | RosParameters | GoalChecker | FollowPath | VelocitySmoother | XyGoalTolerance
    | Own(setting: Setting)
    | Other(text: string)

  type Doc = Tree<Name>

  predicate InSmoother(s: Setting) {
    s.MaxVelocity? || s.MinVelocity? || s.MaxAccel? || s.MaxDecel?
  }

  function PathOf(s: Setting): (p: seq<Name>)
    ensures |p| == if InSmoother(s) then 3 else 4
  {
    if s.GoalTolerance? then [ControllerServer, RosParameters, GoalChecker, XyGoalTolerance]
    else if s.RotateTolerance? then [ControllerServer, RosParameters, FollowPath, XyGoalTolerance]
    else if InSmoother(s) then [VelocitySmoother, RosParameters, Own(s)]
    else [ControllerServer, RosParameters, FollowPath, Own(s)]
  }

  function AllowedPaths(): set<seq<Name>> {
    set s: Setting | true :: PathOf(s)
  }

  lemma PathsApart(s: Setting, other: Setting)
    requires s != other
    ensures Apart(PathOf(s), PathOf(other))
  {
    var p, q := PathOf(s), PathOf(other);
    if InSmoother(s) && InSmoother(other) {
      assert p[2] != q[2];
    } else if InSmoother(s) || InSmoother(other) {
      assert p[0] != q[0];
    } else {
      assert p[3] != q[3] || p[2] != q[2];
    }
  }

  // ----- Reading and writing settings -----

  function At(t: Doc, s: Setting): Option<Doc> {
    Get(t, PathOf(s))
  }

  predicate HasNumber(t: Doc, s: Setting) {
    At(t, s).Some? && At(t, s).value.Number?
  }

  function NumberAt(t: Doc, s: Setting): real {
    if HasNumber(t, s) then At(t, s).value.number else 0.0
  }

  predicate IsVector(t: Doc) {
    t.List? && |t.items| == 3 && t.items[0].Number? && t.items[1].Number? && t.items[2].Number?
  }

  predicate HasVector(t: Doc, s: Setting) {
    At(t, s).Some? && IsVector(At(t, s).value)
  }

  function VectorAt(t: Doc, s: Setting, i: nat): real
    requires i < 3
  {
    if HasVector(t, s) then At(t, s).value.items[i].number else 0.0
  }

  function Vector(x: real, z: real): Doc {
    List([Number(x), Number(0.0), Number(z)])
  }

  function Min(a: real, b: real): real {
    if a <= b then a else b
  }

  function Max(a: real, b: real): real {
    if a >= b then a else b
  }

  function Abs(x: real): real {
    if x < 0.0 then -x else x
  }

  /** One setting was replaced and nothing else. */
  ghost predicate Wrote(before: Doc, after: Doc, s: Setting, value: Doc) {
    && At(after, s) == Some(value)
    && (forall other :: other != s ==> At(after, other) == At(before, other))
    && SameBut(before, after, AllowedPaths(), [])
  }

  lemma PutWrites(t: Doc, s: Setting, value: Doc)
    requires At(t, s).Some? && !At(t, s).value.Mapping? && !value.Mapping?
    ensures Wrote(t, Put(t, PathOf(s), value), s, value)
  {
    PutGet(t, PathOf(s), value);
    forall other | other != s ensures At(Put(t, PathOf(s), value), other) == At(t, other) {
      PathsApart(s, other);
      PutElsewhere(t, PathOf(s), value, PathOf(other));
    }
    assert [] + PathOf(s) == PathOf(s);
    PutIsSameBut(t, PathOf(s), value, AllowedPaths(), []);
  }

  // ----- What the rendering makes of each setting -----

  function UpperLimit(s: Setting): real {
    match s
    case MaxVelX => MAX_VX
    case MaxVelTheta => MAX_WZ
    case MaxSpeedXy => MAX_VX
    case MinSpeedTheta => MAX_WZ
    case AccLimX => MAX_LINEAR_ACCEL
    case _ => MAX_ANGULAR_ACCEL
  }

  function NegativeLimit(s: Setting): real {
    if s.DecelLimX? then MAX_LINEAR_ACCEL else MAX_ANGULAR_ACCEL
  }

  /** The tables of settings that are treated alike. */
  datatype Table = Zeros | Uppers | Negatives

  function Entries(table: Table): seq<Setting> {
    match table
    case Zeros => [MinVelY, MaxVelY, AccLimY, DecelLimY]
    case Uppers => [MaxVelX, MaxVelTheta, MaxSpeedXy, MinSpeedTheta, AccLimX, AccLimTheta]
    case Negatives => [DecelLimX, DecelLimTheta]
  }

  predicate In(table: Table, s: Setting) {
    match table
    case Zeros => s.MinVelY? || s.MaxVelY? || s.AccLimY? || s.DecelLimY?
    case Uppers => s.MaxVelX? || s.MaxVelTheta? || s.MaxSpeedXy? || s.MinSpeedTheta? || s.AccLimX? || s.AccLimTheta?
    case Negatives => s.DecelLimX? || s.DecelLimTheta?
  }

  lemma EntriesAreIn(table: Table)
    ensures forall s :: s in Entries(table) <==> In(table, s)
    ensures forall i, j :: 0 <= i < j < |Entries(table)| ==> Entries(table)[i] != Entries(table)[j]
  {
    forall s | In(table, s) ensures s in Entries(table) {
      var e := Entries(table);
      match table
      case Zeros => assert e[0] == MinVelY && e[1] == MaxVelY && e[2] == AccLimY && e[3] == DecelLimY;
      case Uppers => assert e[0] == MaxVelX && e[1] == MaxVelTheta && e[2] == MaxSpeedXy && e[3] == MinSpeedTheta
                       && e[4] == AccLimX && e[5] == AccLimTheta;
      case Negatives => assert e[0] == DecelLimX && e[1] == DecelLimTheta;
    }
  }

  /** The number that a setting is capped to before settings are related to each other. */
  function Capped(t: Doc, s: Setting): real {
    match s
    case GoalTolerance => TOLERANCE
    case RotateTolerance => TOLERANCE
    case MinVelY => 0.0
    case MaxVelY => 0.0
    case AccLimY => 0.0
    case DecelLimY => 0.0
    case DecelLimX => Max(NumberAt(t, s), -NegativeLimit(s))
    case DecelLimTheta => Max(NumberAt(t, s), -NegativeLimit(s))
    case _ => Min(NumberAt(t, s), UpperLimit(s))
  }

  /** The number of the rendered controller. */
  function Related(t: Doc, s: Setting): real {
    match s
    case MaxSpeedXy => Min(Capped(t, MaxSpeedXy), Capped(t, MaxVelX))
    case MinSpeedTheta => Min(Capped(t, MinSpeedTheta), Capped(t, MaxVelTheta))
    case _ => Capped(t, s)
  }

  function LinearSpeed(t: Doc, external: Option<real>): real {
    match external
    case Some(speed) => speed
    case None => Min(MAX_VX, Min(Related(t, MaxVelX), Related(t, MaxSpeedXy)))
  }

  function AngularSpeed(t: Doc): real {
    Min(MAX_WZ, Related(t, MaxVelTheta))
  }

  /** The first number of a rendered vector. */
  function RenderedX(t: Doc, s: Setting, external: Option<real>): real {
    match s
    case MaxVelocity => if external.None? then Min(VectorAt(t, s, 0), LinearSpeed(t, external)) else LinearSpeed(t, external)
    case MaxAccel => Min(VectorAt(t, s, 0), Min(MAX_LINEAR_ACCEL, Related(t, AccLimX)))
    case MaxDecel => Max(VectorAt(t, s, 0), -Min(MAX_LINEAR_ACCEL, Abs(Related(t, DecelLimX))))
    case _ => 0.0
  }

  /** Its last number. */
  function RenderedZ(t: Doc, s: Setting): real {
    match s
    case MaxVelocity => Min(VectorAt(t, s, 2), AngularSpeed(t))
    case MinVelocity => Max(VectorAt(t, s, 2), -AngularSpeed(t))
    case MaxAccel => Min(VectorAt(t, s, 2), Min(MAX_ANGULAR_ACCEL, Related(t, AccLimTheta)))
    case MaxDecel => Max(VectorAt(t, s, 2), -Min(MAX_ANGULAR_ACCEL, Abs(Related(t, DecelLimTheta))))
    case _ => 0.0
  }

  function Rendered(t: Doc, s: Setting, external: Option<real>): Doc {
    if InSmoother(s) then Vector(RenderedX(t, s, external), RenderedZ(t, s)) else Number(Related(t, s))
  }

  // ----- What the rendering demands -----

  predicate Acceptable(t: Doc, s: Setting) {
    match s
    case GoalTolerance => HasNumber(t, s) && NumberAt(t, s) >= TOLERANCE
    case RotateTolerance => HasNumber(t, s) && NumberAt(t, s) >= TOLERANCE
    case MinVelY => HasNumber(t, s)
    case MaxVelY => HasNumber(t, s)
    case AccLimY => HasNumber(t, s)
    case DecelLimY => HasNumber(t, s)
    case DecelLimX => HasNumber(t, s) && NumberAt(t, s) <= 0.0
    case DecelLimTheta => HasNumber(t, s) && NumberAt(t, s) <= 0.0
    case MaxVelocity => HasVector(t, s) && VectorAt(t, s, 0) >= 0.0 && VectorAt(t, s, 2) >= 0.0
    case MinVelocity => HasVector(t, s) && VectorAt(t, s, 0) <= 0.0 && VectorAt(t, s, 2) <= 0.0
    case MaxAccel => HasVector(t, s) && VectorAt(t, s, 0) >= 0.0 && VectorAt(t, s, 2) >= 0.0
    case MaxDecel => HasVector(t, s) && VectorAt(t, s, 0) <= 0.0 && VectorAt(t, s, 2) <= 0.0
    case _ => HasNumber(t, s) && NumberAt(t, s) >= 0.0
  }

  predicate AcceptableSpeed(external: Option<real>) {
    external.Some? ==> 0.0 < external.value <= ROBOTTRACK_MAX_VX
  }

  ghost predicate Renderable(t: Doc, external: Option<real>) {
    t.Mapping? && AcceptableSpeed(external) && forall s :: Acceptable(t, s)
  }

  /** The rendering of a document: each setting has its new value, everything else its old one. */
  ghost predicate IsRendering(before: Doc, after: Doc, external: Option<real>) {
    && SameBut(before, after, AllowedPaths(), [])
    && forall s :: At(after, s) == Some(Rendered(before, s, external))
  }

  // ----- Idempotence and the relation of smoother and controller -----

  lemma RenderedNumber(before: Doc, after: Doc, external: Option<real>, s: Setting)
    requires IsRendering(before, after, external) && !InSmoother(s)
    ensures HasNumber(after, s) && NumberAt(after, s) == Related(before, s)
  {
    assert At(after, s) == Some(Number(Related(before, s)));
  }

  /** Capping and relating once more changes no number. */
  lemma RelatedTwice(before: Doc, after: Doc, external: Option<real>, s: Setting)
    requires Renderable(before, external) && IsRendering(before, after, external) && !InSmoother(s)
    ensures Related(after, s) == Related(before, s) && Acceptable(after, s)
  {
    RenderedNumber(before, after, external, s);
    RenderedNumber(before, after, external, MaxVelX);
    RenderedNumber(before, after, external, MaxVelTheta);
    assert Acceptable(before, s) && Acceptable(before, MaxVelX) && Acceptable(before, MaxVelTheta);
  }

  lemma RenderedVector(before: Doc, after: Doc, external: Option<real>, s: Setting)
    requires IsRendering(before, after, external) && InSmoother(s)
    ensures HasVector(after, s)
    ensures VectorAt(after, s, 0) == Rendered(before, s, external).items[0].number
    ensures VectorAt(after, s, 2) == Rendered(before, s, external).items[2].number
  {
    assert At(after, s) == Some(Rendered(before, s, external));
  }

  lemma VelocityTwice(before: Doc, after: Doc, external: Option<real>, s: Setting)
    requires Renderable(before, external) && IsRendering(before, after, external) && (s.MaxVelocity? || s.MinVelocity?)
    ensures Rendered(after, s, external) == Rendered(before, s, external) && Acceptable(after, s)
  {
    RelatedTwice(before, after, external, MaxVelX);
    RelatedTwice(before, after, external, MaxSpeedXy);
    RelatedTwice(before, after, external, MaxVelTheta);
    RenderedVector(before, after, external, s);
    SpeedsAreNotNegative(before, external);
    assert Acceptable(before, s);
  }

  lemma AccelTwice(before: Doc, after: Doc, external: Option<real>)
    requires Renderable(before, external) && IsRendering(before, after, external)
    ensures Rendered(after, MaxAccel, external) == Rendered(before, MaxAccel, external) && Acceptable(after, MaxAccel)
  {
    RelatedTwice(before, after, external, AccLimX);
    RelatedTwice(before, after, external, AccLimTheta);
    RenderedVector(before, after, external, MaxAccel);
    SpeedsAreNotNegative(before, external);
    assert Acceptable(before, MaxAccel);
  }

  lemma DecelTwice(before: Doc, after: Doc, external: Option<real>)
    requires Renderable(before, external) && IsRendering(before, after, external)
    ensures Rendered(after, MaxDecel, external) == Rendered(before, MaxDecel, external) && Acceptable(after, MaxDecel)
  {
    RelatedTwice(before, after, external, DecelLimX);
    RelatedTwice(before, after, external, DecelLimTheta);
    RenderedVector(before, after, external, MaxDecel);
    assert Acceptable(before, MaxDecel);
  }

  lemma SpeedsAreNotNegative(t: Doc, external: Option<real>)
    requires Renderable(t, external)
    ensures LinearSpeed(t, external) >= 0.0 && AngularSpeed(t) >= 0.0
    ensures Related(t, AccLimX) >= 0.0 && Related(t, AccLimTheta) >= 0.0
  {
    assert Acceptable(t, MaxVelX) && Acceptable(t, MaxSpeedXy) && Acceptable(t, MaxVelTheta);
    assert Acceptable(t, AccLimX) && Acceptable(t, AccLimTheta);
  }

  lemma RenderedAgain(before: Doc, after: Doc, external: Option<real>, s: Setting)
    requires Renderable(before, external) && IsRendering(before, after, external)
    ensures Rendered(after, s, external) == Rendered(before, s, external) && Acceptable(after, s)
  {
    match s
    case MaxVelocity => VelocityTwice(before, after, external, s);
    case MinVelocity => VelocityTwice(before, after, external, s);
    case MaxAccel => AccelTwice(before, after, external);
    case MaxDecel => DecelTwice(before, after, external);
    case _ => RelatedTwice(before, after, external, s);
  }

  /** There is one rendering of a document. */
  lemma RenderingIsUnique(t: Doc, a: Doc, b: Doc, external: Option<real>)
    requires IsRendering(t, a, external) && IsRendering(t, b, external)
    ensures a == b
  {
    SameButFlips(t, a, AllowedPaths(), []);
    SameButChains(a, t, b, AllowedPaths(), []);
    SameSettings(a, b);
  }

  lemma {:induction false} SameButFlips(a: Doc, b: Doc, paths: set<seq<Name>>, prefix: seq<Name>)
    requires SameBut(a, b, paths, prefix)
    ensures SameBut(b, a, paths, prefix)
    decreases a
  {
    if a.Mapping? && b.Mapping? {
      forall k | k in b.fields ensures SameBut(b.fields[k], a.fields[k], paths, prefix + [k]) {
        SameButFlips(a.fields[k], b.fields[k], paths, prefix + [k]);
      }
    }
  }

  lemma SameSettings(a: Doc, b: Doc)
    requires SameBut(a, b, AllowedPaths(), []) && forall s :: At(a, s) == At(b, s)
    ensures a == b
  {
    forall p: seq<Name> | [] + p in AllowedPaths() ensures Get(a, p) == Get(b, p) {
      assert [] + p == p;
      var s: Setting :| PathOf(s) == p;
      assert At(a, s) == At(b, s);
    }
    SameEverywhere(a, b, AllowedPaths(), []);
  }

  /** Rendering a rendered document gives it back unchanged. */
  lemma RenderingIsIdempotent(t: Doc, once: Doc, twice: Doc, external: Option<real>)
    requires Renderable(t, external) && IsRendering(t, once, external) && IsRendering(once, twice, external)
    ensures twice == once
  {
    forall s ensures At(once, s) == At(twice, s) {
      RenderedAgain(t, once, external, s);
    }
    SameSettings(once, twice);
  }

  /** A rendered document can always be rendered. */
  lemma RenderedIsRenderable(t: Doc, once: Doc, external: Option<real>)
    requires Renderable(t, external) && IsRendering(t, once, external)
    ensures Renderable(once, external)
  {
    forall s ensures Acceptable(once, s) {
      RenderedAgain(t, once, external, s);
    }
    assert At(once, GoalTolerance).Some?;
  }

  /** The smoother's linear speed is within the controller's. */
  ghost predicate LinearWithinController(t: Doc) {
    VectorAt(t, MaxVelocity, 0) <= NumberAt(t, MaxVelX) && VectorAt(t, MaxVelocity, 0) <= NumberAt(t, MaxSpeedXy)
  }

  ghost predicate TurningWithinController(t: Doc) {
    && VectorAt(t, MinVelocity, 0) == 0.0
    && -NumberAt(t, MaxVelTheta) <= VectorAt(t, MinVelocity, 2) && VectorAt(t, MaxVelocity, 2) <= NumberAt(t, MaxVelTheta)
  }

  ghost predicate AccelWithinController(t: Doc) {
    VectorAt(t, MaxAccel, 0) <= NumberAt(t, AccLimX) && VectorAt(t, MaxAccel, 2) <= NumberAt(t, AccLimTheta)
  }

  ghost predicate DecelWithinController(t: Doc) {
    NumberAt(t, DecelLimX) <= VectorAt(t, MaxDecel, 0) && NumberAt(t, DecelLimTheta) <= VectorAt(t, MaxDecel, 2)
  }

  lemma TurningIsWithin(t: Doc, after: Doc, external: Option<real>)
    requires IsRendering(t, after, external)
    ensures TurningWithinController(after) && NumberAt(after, MaxVelTheta) <= MAX_WZ
  {
    RenderedVector(t, after, external, MinVelocity);
    RenderedVector(t, after, external, MaxVelocity);
    RenderedNumber(t, after, external, MaxVelTheta);
  }

  lemma AccelIsWithin(t: Doc, after: Doc, external: Option<real>)
    requires IsRendering(t, after, external)
    ensures AccelWithinController(after)
  {
    RenderedVector(t, after, external, MaxAccel);
    RenderedNumber(t, after, external, AccLimX);
    RenderedNumber(t, after, external, AccLimTheta);
  }

  lemma DecelIsWithin(t: Doc, after: Doc, external: Option<real>)
    requires Renderable(t, external) && IsRendering(t, after, external)
    ensures DecelWithinController(after)
  {
    assert Acceptable(t, DecelLimX) && Acceptable(t, DecelLimTheta);
    RenderedVector(t, after, external, MaxDecel);
    RenderedNumber(t, after, external, DecelLimX);
    RenderedNumber(t, after, external, DecelLimTheta);
  }

  /** What a caller can look at before rendering with an external speed. */
  predicate SpeedFitsDocument(t: Doc, speed: real) {
    speed <= MAX_VX && speed <= NumberAt(t, MaxVelX) && speed <= NumberAt(t, MaxSpeedXy)
  }

  lemma LinearIsWithin(t: Doc, after: Doc, external: Option<real>)
    requires IsRendering(t, after, external)
    ensures NumberAt(after, MaxVelX) <= MAX_VX
    ensures external.None? ==> LinearWithinController(after)
    ensures external.Some? ==> (LinearWithinController(after) <==> SpeedFitsDocument(t, external.value))
  {
    RenderedVector(t, after, external, MaxVelocity);
    RenderedNumber(t, after, external, MaxVelX);
    RenderedNumber(t, after, external, MaxSpeedXy);
  }

  /**
   The rendered smoother never asks for more than the rendered controller allows, except that an
   external linear speed is written as it is: then it is within the controller exactly when it was
   within the stage limit and the two speeds of the document that goes in.
   */
  lemma SmootherRespectsController(t: Doc, after: Doc, external: Option<real>)
    requires Renderable(t, external) && IsRendering(t, after, external)
    ensures TurningWithinController(after) && AccelWithinController(after) && DecelWithinController(after)
    ensures NumberAt(after, MaxVelX) <= MAX_VX && NumberAt(after, MaxVelTheta) <= MAX_WZ
    ensures external.None? ==> LinearWithinController(after)
    ensures external.Some? ==> (LinearWithinController(after) <==> SpeedFitsDocument(t, external.value))
  {
    TurningIsWithin(t, after, external);
    AccelIsWithin(t, after, external);
    DecelIsWithin(t, after, external);
    LinearIsWithin(t, after, external);
  }

  // ----- A document that an external speed takes out of the controller -----

  function SampleValue(s: Setting): Doc {
    match s
    case DecelLimX => Number(-0.5)
    case DecelLimTheta => Number(-0.5)
    case MinVelocity => Vector(0.0, -0.5)
    case MaxDecel => Vector(-0.5, -0.5)
    case MaxVelocity => Vector(0.5, 0.5)
    case MaxAccel => Vector(0.5, 0.5)
    case _ => Number(0.5)
  }

  function SampleFollowPath(): Doc {
    Mapping((map s: Setting | !InSmoother(s) :: Own(s) := SampleValue(s))[XyGoalTolerance := Number(0.5)])
  }

  function SampleServer(): Doc {
    Mapping(map[GoalChecker := Mapping(map[XyGoalTolerance := Number(0.5)]), FollowPath := SampleFollowPath()])
  }

  function SampleSmoother(): Doc {
    Mapping(map s: Setting | InSmoother(s) :: Own(s) := SampleValue(s))
  }

  /** All settings at one half, in the places where the renderer looks for them. */
  function SampleDocument(): Doc {
    Mapping(map[
      ControllerServer := Mapping(map[RosParameters := SampleServer()]),
      VelocitySmoother := Mapping(map[RosParameters := SampleSmoother()])])
  }

  lemma GetChild(t: Doc, name: Name, rest: seq<Name>)
    requires t.Mapping? && name in t.fields
    ensures Get(t, [name] + rest) == Get(t.fields[name], rest)
  {
    assert ([name] + rest)[1..] == rest;
  }

  lemma GetGrandchild(top: Name, tree: Doc, rest: seq<Name>)
    requires SampleDocument().fields.Keys == {ControllerServer, VelocitySmoother}
    requires (top == ControllerServer && tree == SampleServer()) || (top == VelocitySmoother && tree == SampleSmoother())
    ensures Get(SampleDocument(), [top, RosParameters] + rest) == Get(tree, rest)
  {
    assert [top, RosParameters] + rest == [top] + ([RosParameters] + rest);
    GetChild(SampleDocument(), top, [RosParameters] + rest);
    GetChild(SampleDocument().fields[top], RosParameters, rest);
  }

  lemma SampleAt(s: Setting)
    ensures At(SampleDocument(), s) == Some(SampleValue(s))
  {
    if InSmoother(s) {
      assert PathOf(s) == [VelocitySmoother, RosParameters] + [Own(s)];
      GetGrandchild(VelocitySmoother, SampleSmoother(), [Own(s)]);
      GetChild(SampleSmoother(), Own(s), []);
      assert [Own(s)] + [] == [Own(s)];
    } else {
      var section := if s.GoalTolerance? then GoalChecker else FollowPath;
      var name := if s.GoalTolerance? || s.RotateTolerance? then XyGoalTolerance else Own(s);
      assert PathOf(s) == [ControllerServer, RosParameters] + [section, name];
      GetGrandchild(ControllerServer, SampleServer(), [section, name]);
      assert [section, name] == [section] + [name];
      GetChild(SampleServer(), section, [name]);
      assert [name] == [name] + [];
      GetChild(SampleServer().fields[section], name, []);
    }
  }

  /** With a speed of 0.5 m/s it renders, and every rendering leaves the controller's 0.3 m/s. */
  lemma ExternalSpeedCanExceed(after: Doc)
    ensures Renderable(SampleDocument(), Some(0.5)) && !SpeedFitsDocument(SampleDocument(), 0.5)
    ensures IsRendering(SampleDocument(), after, Some(0.5)) ==> !LinearWithinController(after)
  {
    forall s ensures Acceptable(SampleDocument(), s) {
      SampleAt(s);
    }
    if IsRendering(SampleDocument(), after, Some(0.5)) {
      SmootherRespectsController(SampleDocument(), after, Some(0.5));
    }
  }

  // ----- The rendering -----

  /** The private copy of a document whose entries are replaced one after the other. */
  class Rendering {
    var root: Doc

    constructor (document: Doc)
      ensures root == document
    {
      root := document;
    }

    method Set(s: Setting, value: Doc)
      requires At(root, s).Some? && !At(root, s).value.Mapping? && !value.Mapping?
      modifies this
      ensures Wrote(old(root), root, s, value)
    {
      PutWrites(root, s, value);
      root := Put(root, PathOf(s), value);
    }

    method TightenPositiveLimit(s: Setting, limit: real) returns (ok: bool)
      modifies this
      ensures ok <==> HasNumber(old(root), s) && NumberAt(old(root), s) >= 0.0
      ensures if ok then Wrote(old(root), root, s, Number(Min(NumberAt(old(root), s), limit))) else root == old(root)
    {
      if !HasNumber(root, s) || NumberAt(root, s) < 0.0 { return false; }
      Set(s, Number(Min(NumberAt(root, s), limit)));
      ok := true;
    }

    method TightenNegativeMagnitudeLimit(s: Setting, limit: real) returns (ok: bool)
      modifies this
      ensures ok <==> HasNumber(old(root), s) && NumberAt(old(root), s) <= 0.0
      ensures if ok then Wrote(old(root), root, s, Number(Max(NumberAt(old(root), s), -limit))) else root == old(root)
    {
      if !HasNumber(root, s) || NumberAt(root, s) > 0.0 { return false; }
      Set(s, Number(Max(NumberAt(root, s), -limit)));
      ok := true;
    }

    method SetZero(s: Setting) returns (ok: bool)
      modifies this
      ensures ok <==> HasNumber(old(root), s)
      ensures if ok then Wrote(old(root), root, s, Number(0.0)) else root == old(root)
    {
      if !HasNumber(root, s) { return false; }
      Set(s, Number(0.0));
      ok := true;
    }

    method SetTolerance(s: Setting) returns (ok: bool)
      modifies this
      ensures ok <==> HasNumber(old(root), s) && NumberAt(old(root), s) >= TOLERANCE
      ensures if ok then Wrote(old(root), root, s, Number(TOLERANCE)) else root == old(root)
    {
      if !HasNumber(root, s) || NumberAt(root, s) < TOLERANCE { return false; }
      Set(s, Number(TOLERANCE));
      ok := true;
    }

    // ----- Capping -----

    /** The settings done so far hold their capped numbers, the others what the document had. */
    ghost predicate Capping(t: Doc, done: set<Setting>) reads this {
      && SameBut(t, root, AllowedPaths(), [])
      && forall s :: At(root, s) == if s in done then Some(Number(Capped(t, s))) else At(t, s)
    }

    lemma CappedOne(t: Doc, before: Doc, done: set<Setting>, s: Setting)
      requires SameBut(t, before, AllowedPaths(), [])
      requires forall other :: At(before, other) == if other in done then Some(Number(Capped(t, other))) else At(t, other)
      requires Wrote(before, root, s, Number(Capped(t, s)))
      ensures Capping(t, done + {s})
    {
      SameButChains(t, before, root, AllowedPaths(), []);
    }

    method CapTolerance(s: Setting, ghost t: Doc, ghost done: set<Setting>) returns (ok: bool)
      requires Capping(t, done) && s !in done && (s.GoalTolerance? || s.RotateTolerance?)
      modifies this
      ensures ok <==> Acceptable(t, s)
      ensures ok ==> Capping(t, done + {s})
    {
      ghost var before := root;
      ok := SetTolerance(s);
      if ok { CappedOne(t, before, done, s); }
    }

    method CapZero(s: Setting, ghost t: Doc, ghost done: set<Setting>) returns (ok: bool)
      requires Capping(t, done) && s !in done && In(Zeros, s)
      modifies this
      ensures ok <==> Acceptable(t, s)
      ensures ok ==> Capping(t, done + {s})
    {
      ghost var before := root;
      ok := SetZero(s);
      if ok { CappedOne(t, before, done, s); }
    }

    method CapUpper(s: Setting, ghost t: Doc, ghost done: set<Setting>) returns (ok: bool)
      requires Capping(t, done) && s !in done && In(Uppers, s)
      modifies this
      ensures ok <==> Acceptable(t, s)
      ensures ok ==> Capping(t, done + {s})
    {
      ghost var before := root;
      ok := TightenPositiveLimit(s, UpperLimit(s));
      if ok { CappedOne(t, before, done, s); }
    }

    method CapNegative(s: Setting, ghost t: Doc, ghost done: set<Setting>) returns (ok: bool)
      requires Capping(t, done) && s !in done && In(Negatives, s)
      modifies this
      ensures ok <==> Acceptable(t, s)
      ensures ok ==> Capping(t, done + {s})
    {
      ghost var before := root;
      ok := TightenNegativeMagnitudeLimit(s, NegativeLimit(s));
      if ok { CappedOne(t, before, done, s); }
    }

    method CapEntry(table: Table, s: Setting, ghost t: Doc, ghost done: set<Setting>) returns (ok: bool)
      requires Capping(t, done) && s !in done && In(table, s)
      modifies this
      ensures ok <==> Acceptable(t, s)
      ensures ok ==> Capping(t, done + {s})
    {
      match table
      case Zeros => ok := CapZero(s, t, done);
      case Uppers => ok := CapUpper(s, t, done);
      case Negatives => ok := CapNegative(s, t, done);
    }

    /** All settings of a table, or the first of them that is refused. */
    method CapTable(table: Table, ghost t: Doc, ghost start: set<Setting>) returns (refused: Option<Setting>)
      requires Capping(t, start) && forall s :: In(table, s) ==> s !in start
      modifies this
      ensures refused.None? <==> forall s :: In(table, s) ==> Acceptable(t, s)
      ensures refused.Some? ==> !Acceptable(t, refused.value)
      ensures refused.None? ==> Capping(t, start + (set s: Setting | In(table, s)))
    {
      var entries := Entries(table);
      EntriesAreIn(table);
      ghost var done := start;
      for i := 0 to |entries|
        invariant Capping(t, done) && forall s :: s in done <==> s in start || s in entries[..i]
        invariant forall s :: s in entries[..i] ==> Acceptable(t, s)
      {
        assert entries[i] in entries;
        var ok := CapEntry(table, entries[i], t, done);
        if !ok { return Some(entries[i]); }
        done := done + {entries[i]};
        assert entries[..i + 1] == entries[..i] + [entries[i]];
      }
      assert entries[..|entries|] == entries;
      assert done == start + (set s: Setting | In(table, s));
      refused := None;
    }

    method CapTolerances(ghost t: Doc) returns (refused: Option<Setting>)
      requires root == t
      modifies this
      ensures refused.None? <==> Acceptable(t, GoalTolerance) && Acceptable(t, RotateTolerance)
      ensures refused.Some? ==> !Acceptable(t, refused.value)
      ensures refused.None? ==> Capping(t, {GoalTolerance, RotateTolerance})
    {
      SameButReflects(t, AllowedPaths(), []);
      var ok := CapTolerance(GoalTolerance, t, {});
      if !ok { return Some(GoalTolerance); }
      assert {} + {GoalTolerance} == {GoalTolerance};
      ok := CapTolerance(RotateTolerance, t, {GoalTolerance});
      if !ok { return Some(RotateTolerance); }
      assert {GoalTolerance} + {RotateTolerance} == {GoalTolerance, RotateTolerance};
      refused := None;
    }

    predicate Tabled(s: Setting) {
      In(Zeros, s) || In(Uppers, s) || In(Negatives, s)
    }

    method CapTables(ghost t: Doc, ghost start: set<Setting>) returns (refused: Option<Setting>)
      requires Capping(t, start) && forall s :: Tabled(s) ==> s !in start
      modifies this
      ensures refused.None? <==> forall s :: Tabled(s) ==> Acceptable(t, s)
      ensures refused.Some? ==> !Acceptable(t, refused.value)
      ensures refused.None? ==>
        Capping(t, start + (set s: Setting | In(Zeros, s)) + (set s: Setting | In(Uppers, s)) + (set s: Setting | In(Negatives, s)))
    {
      ghost var done := start;
      refused := CapTable(Zeros, t, done);
      if refused.Some? { return; }
      done := done + (set s: Setting | In(Zeros, s));
      refused := CapTable(Uppers, t, done);
      if refused.Some? { return; }
      done := done + (set s: Setting | In(Uppers, s));
      refused := CapTable(Negatives, t, done);
    }

    /** Every number of the controller is capped, or the first refused setting ends the rendering. */
    method Cap(ghost t: Doc) returns (refused: Option<Setting>)
      requires root == t
      modifies this
      ensures refused.None? <==> forall s :: !InSmoother(s) ==> Acceptable(t, s)
      ensures refused.Some? ==> !Acceptable(t, refused.value)
      ensures refused.None? ==> Capping(t, set s: Setting | !InSmoother(s))
    {
      refused := CapTolerances(t);
      if refused.Some? { return; }
      ghost var start := {GoalTolerance, RotateTolerance};
      refused := CapTables(t, start);
      AllCapped(start);
    }

    lemma AllCapped(start: set<Setting>)
      requires start == {GoalTolerance, RotateTolerance}
      ensures start + (set s: Setting | In(Zeros, s)) + (set s: Setting | In(Uppers, s)) + (set s: Setting | In(Negatives, s))
        == (set s: Setting | !InSmoother(s))
    {
    }

    // ----- Relating and smoothing -----

    /**
     The controller is rendered, and of the smoother the settings done so far.  What a setting is
     rendered to comes as a function, of which only the values that matter are looked at.
     */
    ghost predicate Smoothing(t: Doc, rendered: Setting -> Doc, done: set<Setting>) reads this {
      && SameBut(t, root, AllowedPaths(), [])
      && forall s :: At(root, s) == if !InSmoother(s) || s in done then Some(rendered(s)) else At(t, s)
    }

    lemma CappedNumber(t: Doc, s: Setting)
      requires Capping(t, set other: Setting | !InSmoother(other)) && !InSmoother(s)
      ensures HasNumber(root, s) && NumberAt(root, s) == Capped(t, s)
    {
    }

    /** The lesser of a setting and another one. */
    method Bound(s: Setting, ceiling: Setting)
      requires HasNumber(root, s)
      modifies this
      ensures Wrote(old(root), root, s, Number(Min(NumberAt(old(root), s), NumberAt(old(root), ceiling))))
    {
      Set(s, Number(Min(NumberAt(root, s), NumberAt(root, ceiling))));
    }

    lemma RelationsHold(t: Doc, rendered: Setting -> Doc, capped: Doc, bounded: Doc)
      requires SameBut(t, capped, AllowedPaths(), [])
      requires forall s :: At(capped, s) == if !InSmoother(s) then Some(Number(Capped(t, s))) else At(t, s)
      requires forall s :: !InSmoother(s) ==> rendered(s) == Number(Related(t, s))
      requires Wrote(capped, bounded, MaxSpeedXy, Number(Related(t, MaxSpeedXy)))
      requires Wrote(bounded, root, MinSpeedTheta, Number(Related(t, MinSpeedTheta)))
      ensures Smoothing(t, rendered, {})
    {
      SameButChains(t, capped, bounded, AllowedPaths(), []);
      SameButChains(t, bounded, root, AllowedPaths(), []);
      forall s ensures At(root, s) == if !InSmoother(s) then Some(rendered(s)) else At(t, s) {
        if s != MaxSpeedXy && s != MinSpeedTheta { OnlyTwoRelate(t, s); }
      }
    }

    lemma OnlyTwoRelate(t: Doc, s: Setting)
      requires s != MaxSpeedXy && s != MinSpeedTheta
      ensures Related(t, s) == Capped(t, s)
    {
    }

    method TightenControllerRelationships(ghost t: Doc, ghost rendered: Setting -> Doc)
      requires Capping(t, set s: Setting | !InSmoother(s))
      requires forall s :: !InSmoother(s) ==> rendered(s) == Number(Related(t, s))
      modifies this
      ensures Smoothing(t, rendered, {})
    {
      ghost var capped := root;
      CappedNumber(t, MaxSpeedXy);
      CappedNumber(t, MaxVelX);
      CappedNumber(t, MinSpeedTheta);
      CappedNumber(t, MaxVelTheta);
      Bound(MaxSpeedXy, MaxVelX);
      ghost var bounded := root;
      Bound(MinSpeedTheta, MaxVelTheta);
      RelationsHold(t, rendered, capped, bounded);
    }

    /** Reads a number of the rendered controller. */
    method Controller(s: Setting, ghost t: Doc, ghost rendered: Setting -> Doc, ghost done: set<Setting>) returns (n: real)
      requires Smoothing(t, rendered, done) && !InSmoother(s) && rendered(s) == Number(Related(t, s))
      ensures n == Related(t, s)
    {
      assert At(root, s) == Some(rendered(s));
      n := NumberAt(root, s);
    }

    /** Writes one vector of the smoother. */
    method Smooth(s: Setting, x: real, z: real, ghost t: Doc, ghost rendered: Setting -> Doc, ghost done: set<Setting>)
      requires Smoothing(t, rendered, done) && InSmoother(s) && s !in done && HasVector(t, s)
      requires rendered(s) == Vector(x, z)
      modifies this
      ensures Smoothing(t, rendered, done + {s})
    {
      ghost var before := root;
      assert At(root, s) == At(t, s);
      Set(s, Vector(x, z));
      SameButChains(t, before, root, AllowedPaths(), []);
    }

    /** The sign that a vector's first and last numbers must have. */
    predicate SignsFit(s: Setting) reads this {
      && HasVector(root, s)
      && (if s.MaxVelocity? || s.MaxAccel? then VectorAt(root, s, 0) >= 0.0 && VectorAt(root, s, 2) >= 0.0
          else VectorAt(root, s, 0) <= 0.0 && VectorAt(root, s, 2) <= 0.0)
    }

    /** A setting of the smoother that is not done yet reads as in the document. */
    lemma UndoneVector(t: Doc, rendered: Setting -> Doc, done: set<Setting>, s: Setting)
      requires Smoothing(t, rendered, done) && InSmoother(s) && s !in done
      ensures SignsFit(s) <==> Acceptable(t, s)
      ensures VectorAt(root, s, 0) == VectorAt(t, s, 0) && VectorAt(root, s, 2) == VectorAt(t, s, 2)
    {
      assert At(root, s) == At(t, s);
    }

    /** With the whole smoother done the document is rendered. */
    lemma Complete(t: Doc, external: Option<real>, rendered: Setting -> Doc)
      requires Smoothing(t, rendered, set s: Setting | InSmoother(s))
      requires forall s :: rendered(s) == Rendered(t, s, external)
      ensures IsRendering(t, root, external)
    {
    }

    method SmoothMaxVelocity(external: Option<real>, ghost t: Doc, ghost rendered: Setting -> Doc) returns (ok: bool)
      requires Smoothing(t, rendered, {}) && forall s :: !InSmoother(s) ==> rendered(s) == Number(Related(t, s))
      requires rendered(MaxVelocity) == Rendered(t, MaxVelocity, external)
      modifies this
      ensures ok <==> Acceptable(t, MaxVelocity)
      ensures ok ==> Smoothing(t, rendered, {MaxVelocity})
    {
      var maxVelX := Controller(MaxVelX, t, rendered, {});
      var maxSpeedXy := Controller(MaxSpeedXy, t, rendered, {});
      var maxVelTheta := Controller(MaxVelTheta, t, rendered, {});
      var linear := match external
        case Some(speed) => speed
        case None => Min(MAX_VX, Min(maxVelX, maxSpeedXy));
      UndoneVector(t, rendered, {}, MaxVelocity);
      if !SignsFit(MaxVelocity) { return false; }
      var x := if external.None? then Min(VectorAt(root, MaxVelocity, 0), linear) else linear;
      Smooth(MaxVelocity, x, Min(VectorAt(root, MaxVelocity, 2), Min(MAX_WZ, maxVelTheta)), t, rendered, {});
      assert {} + {MaxVelocity} == {MaxVelocity};
      ok := true;
    }

    method SmoothMinVelocity(ghost t: Doc, ghost rendered: Setting -> Doc) returns (ok: bool)
      requires Smoothing(t, rendered, {MaxVelocity}) && rendered(MaxVelTheta) == Number(Related(t, MaxVelTheta))
      requires rendered(MinVelocity) == Vector(0.0, RenderedZ(t, MinVelocity))
      modifies this
      ensures ok <==> Acceptable(t, MinVelocity)
      ensures ok ==> Smoothing(t, rendered, {MaxVelocity, MinVelocity})
    {
      var maxVelTheta := Controller(MaxVelTheta, t, rendered, {MaxVelocity});
      UndoneVector(t, rendered, {MaxVelocity}, MinVelocity);
      if !SignsFit(MinVelocity) { return false; }
      Smooth(MinVelocity, 0.0, Max(VectorAt(root, MinVelocity, 2), -Min(MAX_WZ, maxVelTheta)), t, rendered, {MaxVelocity});
      assert {MaxVelocity} + {MinVelocity} == {MaxVelocity, MinVelocity};
      ok := true;
    }

    method SmoothMaxAccel(ghost t: Doc, ghost rendered: Setting -> Doc) returns (ok: bool)
      requires Smoothing(t, rendered, {MaxVelocity, MinVelocity})
      requires rendered(AccLimX) == Number(Related(t, AccLimX)) && rendered(AccLimTheta) == Number(Related(t, AccLimTheta))
      requires rendered(MaxAccel) == Vector(RenderedX(t, MaxAccel, None), RenderedZ(t, MaxAccel))
      modifies this
      ensures ok <==> Acceptable(t, MaxAccel)
      ensures ok ==> Smoothing(t, rendered, {MaxVelocity, MinVelocity, MaxAccel})
    {
      ghost var done := {MaxVelocity, MinVelocity};
      var accX := Controller(AccLimX, t, rendered, done);
      var accTheta := Controller(AccLimTheta, t, rendered, done);
      UndoneVector(t, rendered, done, MaxAccel);
      if !SignsFit(MaxAccel) { return false; }
      var x := Min(VectorAt(root, MaxAccel, 0), Min(MAX_LINEAR_ACCEL, accX));
      var z := Min(VectorAt(root, MaxAccel, 2), Min(MAX_ANGULAR_ACCEL, accTheta));
      Smooth(MaxAccel, x, z, t, rendered, done);
      assert done + {MaxAccel} == {MaxVelocity, MinVelocity, MaxAccel};
      ok := true;
    }

    method SmoothMaxDecel(ghost t: Doc, ghost rendered: Setting -> Doc) returns (ok: bool)
      requires Smoothing(t, rendered, {MaxVelocity, MinVelocity, MaxAccel})
      requires rendered(DecelLimX) == Number(Related(t, DecelLimX)) && rendered(DecelLimTheta) == Number(Related(t, DecelLimTheta))
      requires rendered(MaxDecel) == Vector(RenderedX(t, MaxDecel, None), RenderedZ(t, MaxDecel))
      modifies this
      ensures ok <==> Acceptable(t, MaxDecel)
      ensures ok ==> Smoothing(t, rendered, set s: Setting | InSmoother(s))
    {
      ghost var done := {MaxVelocity, MinVelocity, MaxAccel};
      var decelX := Controller(DecelLimX, t, rendered, done);
      var decelTheta := Controller(DecelLimTheta, t, rendered, done);
      UndoneVector(t, rendered, done, MaxDecel);
      if !SignsFit(MaxDecel) { return false; }
      var x := Max(VectorAt(root, MaxDecel, 0), -Min(MAX_LINEAR_ACCEL, Abs(decelX)));
      var z := Max(VectorAt(root, MaxDecel, 2), -Min(MAX_ANGULAR_ACCEL, Abs(decelTheta)));
      Smooth(MaxDecel, x, z, t, rendered, done);
      assert done + {MaxDecel} == (set s: Setting | InSmoother(s));
      ok := true;
    }

    /** The values of the function that the smoother's vectors are made from. */
    ghost predicate Meant(t: Doc, external: Option<real>, rendered: Setting -> Doc) {
      && (forall s :: !InSmoother(s) ==> rendered(s) == Number(Related(t, s)))
      && rendered(MaxVelocity) == Rendered(t, MaxVelocity, external)
      && rendered(MinVelocity) == Vector(0.0, RenderedZ(t, MinVelocity))
      && rendered(MaxAccel) == Vector(RenderedX(t, MaxAccel, None), RenderedZ(t, MaxAccel))
      && rendered(MaxDecel) == Vector(RenderedX(t, MaxDecel, None), RenderedZ(t, MaxDecel))
    }

    method SmoothVelocities(external: Option<real>, ghost t: Doc, ghost rendered: Setting -> Doc) returns (refused: Option<Setting>)
      requires Smoothing(t, rendered, {}) && forall s :: !InSmoother(s) ==> rendered(s) == Number(Related(t, s))
      requires rendered(MaxVelocity) == Rendered(t, MaxVelocity, external)
      requires rendered(MinVelocity) == Vector(0.0, RenderedZ(t, MinVelocity))
      modifies this
      ensures refused.None? <==> Acceptable(t, MaxVelocity) && Acceptable(t, MinVelocity)
      ensures refused.None? ==> Smoothing(t, rendered, {MaxVelocity, MinVelocity})
    {
      var ok := SmoothMaxVelocity(external, t, rendered);
      if !ok { return Some(MaxVelocity); }
      ok := SmoothMinVelocity(t, rendered);
      refused := if ok then None else Some(MinVelocity);
    }

    method SmoothAccelerations(ghost t: Doc, ghost rendered: Setting -> Doc) returns (refused: Option<Setting>)
      requires Smoothing(t, rendered, {MaxVelocity, MinVelocity})
      requires forall s :: !InSmoother(s) ==> rendered(s) == Number(Related(t, s))
      requires rendered(MaxAccel) == Vector(RenderedX(t, MaxAccel, None), RenderedZ(t, MaxAccel))
      requires rendered(MaxDecel) == Vector(RenderedX(t, MaxDecel, None), RenderedZ(t, MaxDecel))
      modifies this
      ensures refused.None? <==> Acceptable(t, MaxAccel) && Acceptable(t, MaxDecel)
      ensures refused.None? ==> Smoothing(t, rendered, set s: Setting | InSmoother(s))
    {
      var ok := SmoothMaxAccel(t, rendered);
      if !ok { return Some(MaxAccel); }
      ok := SmoothMaxDecel(t, rendered);
      refused := if ok then None else Some(MaxDecel);
    }

    /** The four vectors, or the first that is refused. */
    method SmoothAll(external: Option<real>, ghost t: Doc, ghost rendered: Setting -> Doc) returns (refused: Option<Setting>)
      requires Smoothing(t, rendered, {}) && Meant(t, external, rendered)
      modifies this
      ensures refused.None? <==> AcceptableVectors(t)
      ensures refused.None? ==> Smoothing(t, rendered, set s: Setting | InSmoother(s))
    {
      refused := SmoothVelocities(external, t, rendered);
      if refused.Some? { return; }
      refused := SmoothAccelerations(t, rendered);
    }

    method TightenSmootherVectors(external: Option<real>, ghost t: Doc, ghost rendered: Setting -> Doc) returns (refused: Option<Error>)
      requires Smoothing(t, rendered, {}) && Meant(t, external, rendered)
      modifies this
      ensures refused.None? <==> AcceptableSpeed(external) && AcceptableVectors(t)
      ensures refused.None? ==> Smoothing(t, rendered, set s: Setting | InSmoother(s))
      ensures refused != Some(OutsideEnvelope)
    {
      if external.Some? && (external.value <= 0.0 || external.value > ROBOTTRACK_MAX_VX) { return Some(ExternalSpeed); }
      var setting := SmoothAll(external, t, rendered);
      refused := if setting.Some? then Some(Refused(setting.value)) else None;
    }
  }

  predicate AcceptableVectors(t: Doc) {
    Acceptable(t, MaxVelocity) && Acceptable(t, MinVelocity) && Acceptable(t, MaxAccel) && Acceptable(t, MaxDecel)
  }

  lemma AllAcceptable(t: Doc)
    ensures (forall s :: Acceptable(t, s)) <==> AcceptableVectors(t) && forall s :: !InSmoother(s) ==> Acceptable(t, s)
  {
  }

  lemma TargetIsMeant(r: Rendering, t: Doc, external: Option<real>, target: Setting -> Doc)
    requires forall s :: target(s) == Rendered(t, s, external)
    ensures r.Meant(t, external, target)
  {
    forall s | !InSmoother(s) ensures target(s) == Number(Related(t, s)) {
      PlainNumber(t, s, external);
    }
    RenderedAsVector(t, MinVelocity, external);
    RenderedAsVector(t, MaxAccel, external);
    RenderedAsVector(t, MaxDecel, external);
  }

  lemma PlainNumber(t: Doc, s: Setting, external: Option<real>)
    requires !InSmoother(s)
    ensures Rendered(t, s, external) == Number(Related(t, s))
  {
  }

  /** An external speed only replaces the linear velocity. */
  lemma RenderedAsVector(t: Doc, s: Setting, external: Option<real>)
    requires InSmoother(s) && s != MaxVelocity
    ensures Rendered(t, s, external) == Vector(RenderedX(t, s, None), RenderedZ(t, s))
    ensures s == MinVelocity ==> RenderedX(t, s, None) == 0.0
  {
  }

  /** The private copy after all steps, or why a step refused. */
  method Tighten(document: Doc, external: Option<real>, ghost target: Setting -> Doc) returns (r: Result<Doc>)
    requires forall s :: target(s) == Rendered(document, s, external)
    ensures r.Ok? <==>
      AcceptableSpeed(external) && AcceptableVectors(document) && forall s :: !InSmoother(s) ==> Acceptable(document, s)
    ensures r.Ok? ==> IsRendering(document, r.value, external)
    ensures r.Err? ==> r.error != OutsideEnvelope
  {
    var rendered := new Rendering(document);
    var refused := rendered.Cap(document);
    if refused.Some? { return Err(Refused(refused.value)); }
    TargetIsMeant(rendered, document, external, target);
    rendered.TightenControllerRelationships(document, target);
    var wrong := rendered.TightenSmootherVectors(external, document, target);
    if wrong.Some? { return Err(wrong.value); }
    rendered.Complete(document, external, target);
    r := Ok(rendered.root);
  }

  /** The envelope check at the end is part of the code; no document without shared mappings fails it. */
  method RenderStage1Params(document: Doc, external: Option<real>) returns (r: Result<Doc>)
    ensures r.Ok? <==> Renderable(document, external)
    ensures r.Ok? ==> IsRendering(document, r.value, external)
    ensures r.Err? ==> r.error != OutsideEnvelope
  {
    if !document.Mapping? { return Err(NotAMapping); }
    ghost var target := (s: Setting) => Rendered(document, s, external);
    r := Tighten(document, external, target);
    AllAcceptable(document);
    if r.Err? { return; }
    SameButChangesOnly(document, r.value, AllowedPaths(), []);
    if !(ChangedPaths(document, r.value, []) <= AllowedPaths()) { return Err(OutsideEnvelope); }
  }
}
