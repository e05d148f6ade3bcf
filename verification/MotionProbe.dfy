/**
 The supervised motion probe of scripts/first_motion_probe.py.
 Messages, graph listings, service answers, operator interrupts and raised exceptions come from
 an arbitrary schedule; time is an integer clock in nanoseconds that moves on with every spin.
 The ghost trace records what the probe received, checked, decided and published.  The limits are
 parameters, so the theorems hold for every probe that runs this loop with its own limits.
 */
module MotionProbe {
  datatype Option<+T> = None | Some(value: T)

  type Gid = seq<nat>

  const GID_SIZE: nat := 24
  const MILLISECOND: nat := 1_000_000
  const SECOND: nat := 1000 * MILLISECOND

  datatype Limits = Limits(
    speed: real, stopDistance: real, stopDuration: nat,
    stateStale: nat, odomStale: nat, diagnosticStale: nat, graphPeriod: nat,
    minForward: real, maxLateral: real, maxYawChange: real,
    maxLinear: real, maxYawRate: real, maxDrift: real, minSamples: nat)

  const FIRST_PROBE: Limits := Limits(
    0.05, 0.09, 1800 * MILLISECOND,
    200 * MILLISECOND, 200 * MILLISECOND, 350 * MILLISECOND, 500 * MILLISECOND,
    0.02, 0.03, 0.20,
    0.03, 0.03, 0.02, 10)

  predicate ValidLimits(l: Limits) {
    l.speed > 0.0 && l.stopDistance > 0.0 && l.graphPeriod > 0
  }

  // ----- Telemetry -----

  datatype Guard = Disarmed | Preparing | Armed | OtherGuard

  datatype Fault = StateStampStopped | MarkerChanged | OdomStampStopped

  datatype Stamp = Stamp(sec: int, nanosec: int) {
    function Nanoseconds(): int {
      sec * SECOND + nanosec
    }

    predicate Valid() {
      sec >= 0 && 0 <= nanosec < SECOND && Nanoseconds() > 0
    }
  }

  datatype Pose = Pose(x: real, y: real, yaw: real, vx: real, vy: real, yawRate: real)

  datatype Report = Report(sound: bool, guard: Guard, daemonArmed: bool, permitSpent: bool, motionActive: bool)

  datatype Message =
    | SportState(stamp: Stamp, mode: int, marker: int)
    | Odometry(framesMatch: bool, finite: bool, unitQuaternion: bool, stamp: Stamp, pose: Pose)
    | Diagnostics(report: Option<Report>)

  datatype Session = Session(modes: set<int>, markers: set<int>)

  datatype Node = Node(
    stateReceipt: Option<nat>, odomReceipt: Option<nat>, diagnosticReceipt: Option<nat>,
    stateStamp: Option<int>, odomStamp: Option<int>, marker: Option<int>,
    odom: Option<Pose>, samples: nat,
    stateIssue: bool, odomIssue: bool, diagnosticIssue: bool, latched: Option<Fault>,
    guard: Guard, daemonArmed: bool, permitSpent: bool, motionActive: bool, motionObserved: bool)

  const NEW_NODE: Node :=
    Node(None, None, None, None, None, None, None, 0, true, true, true, None, OtherGuard, false, false, false, false)

  function Latch(n: Node, fault: Fault): Node {
    if n.latched.None? then n.(latched := Some(fault)) else n
  }

  predicate Progresses(previous: Option<int>, stamp: Stamp) {
    previous.Some? ==> stamp.Nanoseconds() > previous.value
  }

  predicate StampStops(n: Node, m: Message)
    requires m.SportState?
  {
    m.stamp.Valid() && !Progresses(n.stateStamp, m.stamp)
  }

  predicate MarkerChanges(n: Node, m: Message)
    requires m.SportState?
  {
    n.marker.Some? && n.marker.value != m.marker
  }

  predicate Refused(m: Message, session: Session)
    requires m.SportState?
  {
    !m.stamp.Valid() || m.mode !in session.modes || (m.marker != 0 && m.marker !in session.markers)
  }

  function StampSeen(n: Node, m: Message): Node
    requires m.SportState?
  {
    if StampStops(n, m) then Latch(n, StateStampStopped) else n
  }

  function MarkerSeen(n: Node, m: Message): Node
    requires m.SportState?
  {
    if MarkerChanges(n, m) then Latch(n, MarkerChanged) else n.(marker := Some(m.marker))
  }

  function AfterState(n: Node, m: Message, now: nat, session: Session): Node
    requires m.SportState?
  {
    var seen := MarkerSeen(StampSeen(n, m), m);
    if !Refused(m, session) && !StampStops(n, m) && !MarkerChanges(n, m) && seen.latched.None? then
      seen.(stateStamp := Some(m.stamp.Nanoseconds()), stateReceipt := Some(now), stateIssue := false)
    else seen.(stateIssue := true)
  }

  function AfterOdom(n: Node, m: Message, now: nat): Node
    requires m.Odometry?
  {
    var usable := m.framesMatch && m.finite && m.unitQuaternion;
    var stopped := usable && m.stamp.Valid() && !Progresses(n.odomStamp, m.stamp);
    var n1 := if stopped then Latch(n, OdomStampStopped) else n;
    if usable && m.stamp.Valid() && !stopped && n1.latched.None? then
      n1.(odomStamp := Some(m.stamp.Nanoseconds()), odomReceipt := Some(now), odom := Some(m.pose),
          samples := n1.samples + 1, odomIssue := false)
    else n1.(odomIssue := true)
  }

  function AfterDiagnostics(n: Node, m: Message, now: nat): Node
    requires m.Diagnostics?
  {
    match m.report
    case None => n.(diagnosticIssue := true)
    case Some(r) =>
      n.(guard := r.guard, daemonArmed := r.daemonArmed, permitSpent := r.permitSpent,
         motionActive := r.motionActive, motionObserved := n.motionObserved || (r.sound && r.motionActive),
         diagnosticIssue := !r.sound, diagnosticReceipt := if r.sound then Some(now) else n.diagnosticReceipt)
  }

  function After(n: Node, m: Message, now: nat, session: Session): Node {
    match m
    case SportState(_, _, _) => AfterState(n, m, now, session)
    case Odometry(_, _, _, _, _) => AfterOdom(n, m, now)
    case Diagnostics(_) => AfterDiagnostics(n, m, now)
  }

  predicate Fresh(now: nat, receipt: Option<nat>, limit: nat) {
    receipt.Some? && receipt.value <= now <= receipt.value + limit
  }

  /** What the health check demands of the node at a moment. */
  predicate Healthy(n: Node, now: nat, guards: set<Guard>, l: Limits) {
    && n.latched.None?
    && !n.stateIssue && !n.odomIssue && !n.diagnosticIssue
    && Fresh(now, n.stateReceipt, l.stateStale)
    && Fresh(now, n.odomReceipt, l.odomStale)
    && Fresh(now, n.diagnosticReceipt, l.diagnosticStale)
    && n.guard in guards
  }

  // ----- Ownership of the command graph -----

  datatype Endpoint = Probe | Adapter | Stranger

  datatype RawGid = Unusable | Usable(gid: Gid)

  datatype Graph = Graph(
    publishers: seq<Endpoint>, subscriptions: seq<Endpoint>, canonicalPublishers: nat,
    odomPublishers: seq<Endpoint>, sportWriters: seq<RawGid>, leaseWriters: nat,
    adapterNodes: nat, armServices: Option<nat>)

  predicate ValidGid(g: RawGid) {
    g.Usable? && |g.gid| == GID_SIZE && exists i :: 0 <= i < |g.gid| && g.gid[i] != 0
  }

  function GidsOf(writers: seq<RawGid>): set<Gid> {
    set i | 0 <= i < |writers| && writers[i].Usable? :: writers[i].gid
  }

  predicate Distinct(writers: seq<RawGid>) {
    forall i, j :: 0 <= i < j < |writers| ==> writers[i] != writers[j]
  }

  /** The writers are the baseline and one more, which is the bound one once there is one. */
  ghost predicate AddsOne(baseline: set<Gid>, writers: seq<RawGid>, bound: Option<Gid>, added: Gid) {
    && (forall i :: 0 <= i < |writers| ==> ValidGid(writers[i]))
    && Distinct(writers)
    && added !in baseline
    && GidsOf(writers) == baseline + {added}
    && (bound.Some? ==> bound == Some(added))
  }

  function TheOnly(s: set<Gid>): (g: Gid)
    requires |s| == 1
    ensures s == {g}
  {
    OnlyOne(s);
    var g :| g in s;
    g
  }

  lemma OnlyOne(s: set<Gid>)
    requires |s| == 1
    ensures exists g :: g in s && s == {g}
    ensures forall g, h :: g in s && h in s ==> g == h
  {
    var g :| g in s;
    assert |s - {g}| == 0;
    assert s == {g} + (s - {g});
  }

  /** The writer that the boot added to the baseline, or None when ownership cannot be settled. */
  function BindAdded(baseline: set<Gid>, writers: seq<RawGid>, bound: Option<Gid>): (r: Option<Gid>)
    ensures r.Some? ==> AddsOne(baseline, writers, bound, r.value)
    ensures r.None? ==> forall g :: !AddsOne(baseline, writers, bound, g)
  {
    if exists i :: 0 <= i < |writers| && !ValidGid(writers[i]) then None
    else
      var current := GidsOf(writers);
      if !Distinct(writers) then None
      else if !(baseline <= current) then None
      else
        var additions := current - baseline;
        OneAddition(baseline, current);
        if |additions| != 1 then None
        else
          var candidate := TheOnly(additions);
          if bound.Some? && candidate != bound.value then None else Some(candidate)
  }

  lemma OneAddition(baseline: set<Gid>, current: set<Gid>)
    requires baseline <= current
    ensures forall g :: g !in baseline && current == baseline + {g} <==> current - baseline == {g}
  {
    forall g | g !in baseline && current == baseline + {g} ensures current - baseline == {g} {
    }
    forall g | current - baseline == {g} ensures g !in baseline && current == baseline + {g} {
      assert g in current - baseline;
    }
  }

  predicate Isolated(g: Graph) {
    g.publishers == [Probe] && g.subscriptions == [Adapter] && g.canonicalPublishers == 0 && g.odomPublishers == [Adapter]
  }

  predicate Served(g: Graph) {
    g.leaseWriters == 0 && g.adapterNodes == 1 && g.armServices == Some(1)
  }

  predicate GraphPasses(g: Graph, baseline: set<Gid>, bound: Option<Gid>) {
    Isolated(g) && BindAdded(baseline, g.sportWriters, bound).Some? && Served(g)
  }

  /** The writer is bound as soon as it is settled, even when a later check of the graph fails. */
  function BoundAfter(g: Graph, baseline: set<Gid>, bound: Option<Gid>): Option<Gid> {
    var added := BindAdded(baseline, g.sportWriters, bound);
    if Isolated(g) && added.Some? then added else bound
  }

  // ----- The trace -----

  datatype Event =
    | Received(message: Message, at: nat)
    | GraphChecked(graph: Graph, at: nat)
    | HealthChecked(began: nat, at: nat)
    | Decided(at: nat)
    | MotionStarted(at: nat)
    | MotionEnded
    | Requested(arm: bool)
    | Published(speed: real)

  function NodeAt(trace: seq<Event>, session: Session): Node {
    if trace == [] then NEW_NODE
    else
      var last, before := trace[|trace| - 1], NodeAt(trace[..|trace| - 1], session);
      if last.Received? then After(before, last.message, last.at, session) else before
  }

  function BoundAt(trace: seq<Event>, baseline: set<Gid>): Option<Gid> {
    if trace == [] then None
    else
      var last, before := trace[|trace| - 1], BoundAt(trace[..|trace| - 1], baseline);
      if last.GraphChecked? then BoundAfter(last.graph, baseline, before) else before
  }

  /** When the graph was last checked, if the newest check passed. */
  function LastGraphPass(trace: seq<Event>, baseline: set<Gid>): Option<nat> {
    if trace == [] then None
    else
      var last, init := trace[|trace| - 1], trace[..|trace| - 1];
      if last.GraphChecked? then
        if GraphPasses(last.graph, baseline, BoundAt(init, baseline)) then Some(last.at) else None
      else LastGraphPass(init, baseline)
  }

  datatype Start = Start(at: nat, pose: Pose)

  /** Where and when the motion started, while it has not ended. */
  function StartAt(trace: seq<Event>, session: Session): Option<Start> {
    if trace == [] then None
    else
      var last, init := trace[|trace| - 1], trace[..|trace| - 1];
      match last
      case MotionStarted(at) =>
        var n := NodeAt(init, session);
        if n.odom.Some? then Some(Start(at, n.odom.value)) else None
      case MotionEnded => None
      case _ => StartAt(init, session)
  }

  predicate Ended(trace: seq<Event>) {
    trace != [] && (trace[|trace| - 1].MotionEnded? || Ended(trace[..|trace| - 1]))
  }

  function SquaredDistance(a: Pose, b: Pose): real {
    (b.x - a.x) * (b.x - a.x) + (b.y - a.y) * (b.y - a.y)
  }

  predicate WithinLimits(start: Start, now: nat, pose: Pose, l: Limits) {
    && SquaredDistance(start.pose, pose) < l.stopDistance * l.stopDistance
    && now < start.at + l.stopDuration
  }

  /**
   Everything a non-zero velocity has to rest on: the two newest events are the health check and
   the decision, both passed on what the node knows now, and the graph was checked recently.
   */
  predicate Justified(trace: seq<Event>, session: Session, baseline: set<Gid>, l: Limits) {
    && 2 <= |trace|
    && trace[|trace| - 1].Decided? && trace[|trace| - 2].HealthChecked?
    && var n, check, decided := NodeAt(trace, session), trace[|trace| - 2], trace[|trace| - 1].at;
      var start, graph := StartAt(trace, session), LastGraphPass(trace, baseline);
      && Healthy(n, check.at, {Armed}, l)
      && n.daemonArmed
      && n.odom.Some? && start.Some? && WithinLimits(start.value, decided, n.odom.value, l)
      && graph.Some? && graph.value <= check.began < graph.value + l.graphPeriod
      && !Ended(trace)
  }

  predicate Moves(e: Event) {
    e.Published? && e.speed != 0.0
  }

  ghost predicate SafeTrace(trace: seq<Event>, session: Session, baseline: set<Gid>, l: Limits) {
    trace != [] ==>
      var init, last := trace[..|trace| - 1], trace[|trace| - 1];
      && SafeTrace(init, session, baseline, l)
      && (Moves(last) ==> last.speed == l.speed && Justified(init, session, baseline, l))
  }

  /** The newest request to the arm service. */
  function LastRequest(trace: seq<Event>): Option<bool> {
    if trace == [] then None
    else if trace[|trace| - 1].Requested? then Some(trace[|trace| - 1].arm)
    else LastRequest(trace[..|trace| - 1])
  }

  /** The velocity handed to the publisher most recently. */
  function LastSpeed(trace: seq<Event>): Option<real> {
    if trace == [] then None
    else if trace[|trace| - 1].Published? then Some(trace[|trace| - 1].speed)
    else LastSpeed(trace[..|trace| - 1])
  }

  datatype Course = Course(start: Pose, stop: Pose)

  /** From where to where the motion went, once it has ended. */
  function CourseOf(trace: seq<Event>, session: Session): Option<Course> {
    if trace == [] then None
    else
      var last, init := trace[|trace| - 1], trace[..|trace| - 1];
      if last.MotionEnded? then
        var start, n := StartAt(init, session), NodeAt(init, session);
        if start.Some? && n.odom.Some? then Some(Course(start.value.pose, n.odom.value)) else None
      else CourseOf(init, session)
  }

  /** Sine, cosine and the representative of an angle around zero. */
  datatype Trigonometry = Trigonometry(cosine: real -> real, sine: real -> real, normalize: real -> real)

  function Forward(c: Course, t: Trigonometry): real {
    t.cosine(c.start.yaw) * (c.stop.x - c.start.x) + t.sine(c.start.yaw) * (c.stop.y - c.start.y)
  }

  function Lateral(c: Course, t: Trigonometry): real {
    -t.sine(c.start.yaw) * (c.stop.x - c.start.x) + t.cosine(c.start.yaw) * (c.stop.y - c.start.y)
  }

  function Abs(x: real): real {
    if x < 0.0 then -x else x
  }

  predicate Accepted(c: Course, t: Trigonometry, l: Limits) {
    && Forward(c, t) >= l.minForward
    && Abs(Lateral(c, t)) <= l.maxLateral
    && Abs(t.normalize(c.stop.yaw - c.start.yaw)) <= l.maxYawChange
  }

  predicate Stationary(start: Pose, current: Pose, l: Limits) {
    && current.vx * current.vx + current.vy * current.vy <= l.maxLinear * l.maxLinear
    && Abs(current.yawRate) <= l.maxYawRate
    && SquaredDistance(start, current) <= l.maxDrift * l.maxDrift
  }

  /** Disarmed, at rest, and with no fault. */
  predicate RestedNode(n: Node, start: Pose, l: Limits) {
    && n.latched.None? && n.guard == Disarmed && !n.daemonArmed && n.permitSpent && !n.motionActive
    && n.odom.Some? && Stationary(start, n.odom.value, l)
  }

  /** What may happen while the robot is watched at rest: zero, messages that leave it rested, and passed checks. */
  predicate RestEvent(before: seq<Event>, e: Event, start: Pose, session: Session, l: Limits) {
    match e
    case Received(m, at) => RestedNode(After(NodeAt(before, session), m, at, session), start, l)
    case HealthChecked(_, at) => Healthy(NodeAt(before, session), at, {Disarmed}, l)
    case Published(speed) => speed == 0.0
    case GraphChecked(_, _) => true
    case _ => false
  }

  predicate RestsAt(trace: seq<Event>, k: nat, start: Pose, session: Session, l: Limits)
    requires k < |trace|
  {
    RestEvent(trace[..k], trace[k], start, session, l)
  }

  /** From this position on the robot was at rest relative to a pose, in every state it reported. */
  ghost predicate RestsSince(trace: seq<Event>, from: nat, start: Pose, session: Session, l: Limits) {
    from <= |trace| && forall k: nat :: from <= k < |trace| ==> RestsAt(trace, k, start, session, l)
  }

  // ----- What a safe trace says -----

  lemma {:induction false} SafePrefix(trace: seq<Event>, k: nat, session: Session, baseline: set<Gid>, l: Limits)
    requires SafeTrace(trace, session, baseline, l) && k <= |trace|
    ensures SafeTrace(trace[..k], session, baseline, l)
  {
    if k < |trace| {
      SafePrefix(trace[..|trace| - 1], k, session, baseline, l);
      assert trace[..|trace| - 1][..k] == trace[..k];
    } else {
      assert trace[..k] == trace;
    }
  }

  /** Each velocity of a run rests on what was known when it was published. */
  lemma EveryMoveIsJustified(trace: seq<Event>, k: nat, session: Session, baseline: set<Gid>, l: Limits)
    requires SafeTrace(trace, session, baseline, l) && k < |trace| && Moves(trace[k])
    ensures trace[k].speed == l.speed && Justified(trace[..k], session, baseline, l)
  {
    SafePrefix(trace, k + 1, session, baseline, l);
    assert trace[..k + 1][..k] == trace[..k];
  }

  lemma MarkerSeenKeeps(n: Node, m: Message)
    requires m.SportState?
    ensures var n' := MarkerSeen(n, m);
      && (n.latched.Some? ==> n'.latched == n.latched)
      && (n'.latched.None? ==> n'.marker == Some(m.marker) && (n.marker.Some? ==> n.marker == n'.marker))
  {
  }

  lemma StateKeeps(n: Node, m: Message, now: nat, session: Session)
    requires m.SportState?
    ensures var n' := AfterState(n, m, now, session);
      && (n.latched.Some? ==> n'.latched == n.latched)
      && (n'.latched.None? ==> n'.marker == Some(m.marker) && (n.marker.Some? ==> n.marker == n'.marker))
  {
    MarkerSeenKeeps(StampSeen(n, m), m);
  }

  lemma MessageKeeps(n: Node, m: Message, now: nat, session: Session)
    ensures var n' := After(n, m, now, session);
      && (n.latched.Some? ==> n'.latched == n.latched)
      && (n'.latched.None? && n.marker.Some? ==> n'.marker == n.marker)
      && (n'.latched.None? && m.SportState? ==> n'.marker == Some(m.marker))
  {
    if m.SportState? {
      StateKeeps(n, m, now, session);
    }
  }

  lemma {:induction false} LatchStays(trace: seq<Event>, k: nat, session: Session)
    requires k <= |trace| && NodeAt(trace[..k], session).latched.Some?
    ensures NodeAt(trace, session).latched == NodeAt(trace[..k], session).latched
  {
    if k < |trace| {
      var last, init := trace[|trace| - 1], trace[..|trace| - 1];
      assert init[..k] == trace[..k];
      LatchStays(init, k, session);
      if last.Received? {
        MessageKeeps(NodeAt(init, session), last.message, last.at, session);
      }
    } else {
      assert trace[..k] == trace;
    }
  }

  lemma {:induction false} EndStays(trace: seq<Event>, k: nat)
    requires k <= |trace| && Ended(trace[..k])
    ensures Ended(trace)
  {
    if k < |trace| {
      assert trace[..|trace| - 1][..k] == trace[..k];
      EndStays(trace[..|trace| - 1], k);
    } else {
      assert trace[..k] == trace;
    }
  }

  /** Once a fault has latched or the motion has ended, the robot is never moved again. */
  lemma NoMotionAfterwards(trace: seq<Event>, i: nat, k: nat, session: Session, baseline: set<Gid>, l: Limits)
    requires SafeTrace(trace, session, baseline, l) && i <= k < |trace|
    requires NodeAt(trace[..i], session).latched.Some? || Ended(trace[..i])
    ensures !Moves(trace[k])
  {
    if Moves(trace[k]) {
      EveryMoveIsJustified(trace, k, session, baseline, l);
      assert trace[..k][..i] == trace[..i];
      if NodeAt(trace[..i], session).latched.Some? {
        LatchStays(trace[..k], i, session);
      } else {
        EndStays(trace[..k], i);
      }
    }
  }

  /** While nothing has latched, every state message received so far carried the one marker that is bound. */
  lemma {:induction false} OneMarker(trace: seq<Event>, k: nat, session: Session)
    requires NodeAt(trace, session).latched.None?
    requires k < |trace| && trace[k].Received? && trace[k].message.SportState?
    ensures NodeAt(trace, session).marker == Some(trace[k].message.marker)
  {
    var last, init := trace[|trace| - 1], trace[..|trace| - 1];
    if last.Received? {
      MessageKeeps(NodeAt(init, session), last.message, last.at, session);
    }
    if k < |init| {
      OneMarker(init, k, session);
    }
  }

  lemma {:induction false} BindingStays(trace: seq<Event>, k: nat, baseline: set<Gid>)
    requires k <= |trace| && BoundAt(trace[..k], baseline).Some?
    ensures BoundAt(trace, baseline) == BoundAt(trace[..k], baseline)
  {
    if k < |trace| {
      assert trace[..|trace| - 1][..k] == trace[..k];
      BindingStays(trace[..|trace| - 1], k, baseline);
    } else {
      assert trace[..k] == trace;
    }
  }

  predicate PassesAt(trace: seq<Event>, k: nat, baseline: set<Gid>)
    requires k < |trace|
  {
    trace[k].GraphChecked? && GraphPasses(trace[k].graph, baseline, BoundAt(trace[..k], baseline))
  }

  lemma PassingBinds(trace: seq<Event>, k: nat, baseline: set<Gid>)
    requires k < |trace| && PassesAt(trace, k, baseline)
    ensures var bound := BoundAt(trace[..k + 1], baseline);
      bound.Some? && bound.value !in baseline && GidsOf(trace[k].graph.sportWriters) == baseline + {bound.value}
  {
    assert trace[..k + 1][..k] == trace[..k];
  }

  /** All passed graph checks of a run saw the same writers: the baseline and one bound writer. */
  lemma SameWritersThroughout(trace: seq<Event>, i: nat, k: nat, baseline: set<Gid>)
    requires i <= k < |trace| && PassesAt(trace, i, baseline) && PassesAt(trace, k, baseline)
    ensures GidsOf(trace[i].graph.sportWriters) == GidsOf(trace[k].graph.sportWriters)
  {
    PassingBinds(trace, i, baseline);
    PassingBinds(trace, k, baseline);
    assert trace[..k + 1][..i + 1] == trace[..i + 1];
    BindingStays(trace[..k + 1], i + 1, baseline);
  }

  lemma RestGrows(trace: seq<Event>, from: nat, e: Event, start: Pose, session: Session, l: Limits)
    requires RestsSince(trace, from, start, session, l) && RestEvent(trace, e, start, session, l)
    ensures RestsSince(trace + [e], from, start, session, l)
  {
    var longer := trace + [e];
    forall k: nat | from <= k < |longer| ensures RestsAt(longer, k, start, session, l) {
      if k < |trace| {
        assert RestsAt(trace, k, start, session, l);
        assert longer[..k] == trace[..k];
      } else {
        assert longer[..k] == trace;
      }
    }
  }

  /** An event that is not the given kind of thing leaves the node as it was. */
  lemma NodeKeeps(trace: seq<Event>, e: Event, session: Session)
    ensures NodeAt(trace + [e], session)
         == if e.Received? then After(NodeAt(trace, session), e.message, e.at, session) else NodeAt(trace, session)
  {
    assert (trace + [e])[..|trace|] == trace;
  }

  /** What one interaction with the world brings; a raise stands for any exception of the client library. */
  datatype Turn = Turn(
    elapsed: nat, raises: bool, message: Option<Message>, graph: Graph, stop: bool, alive: bool,
    ready: bool, done: bool, accepted: bool)

  /** What a spin records: at most one message. */
  function Heard(turn: Turn, now: nat): seq<Event> {
    if turn.raises || turn.message.None? then [] else [Received(turn.message.value, now)]
  }

  /** At most one graph check. */
  predicate Listing(events: seq<Event>) {
    events == [] || (|events| == 1 && events[0].GraphChecked?)
  }

  /** One round of the watch: zero, perhaps a message, perhaps a graph check, and the health check. */
  lemma RoundRests(
    trace: seq<Event>, turn: Turn, now: nat, listed: seq<Event>, check: Event,
    from: nat, start: Pose, session: Session, l: Limits)
    requires RestsSince(trace, from, start, session, l) && Listing(listed) && check.HealthChecked?
    requires var spun := NodeAt(trace + [Published(0.0)] + Heard(turn, now), session);
      Healthy(spun, check.at, {Disarmed}, l) && RestedNode(spun, start, l)
    ensures RestsSince(trace + [Published(0.0)] + Heard(turn, now) + listed + [check], from, start, session, l)
  {
    var published := trace + [Published(0.0)];
    var spun := published + Heard(turn, now);
    RestGrows(trace, from, Published(0.0), start, session, l);
    if Heard(turn, now) == [] {
      assert spun == published;
    } else {
      NodeKeeps(published, Heard(turn, now)[0], session);
      RestGrows(published, from, Heard(turn, now)[0], start, session, l);
    }
    ListingRests(spun, listed, from, start, session, l);
    RestGrows(spun + listed, from, check, start, session, l);
  }

  lemma ListingRests(trace: seq<Event>, listed: seq<Event>, from: nat, start: Pose, session: Session, l: Limits)
    requires RestsSince(trace, from, start, session, l) && Listing(listed)
    ensures RestsSince(trace + listed, from, start, session, l)
    ensures NodeAt(trace + listed, session) == NodeAt(trace, session)
  {
    if listed == [] {
      assert trace + listed == trace;
    } else {
      assert listed == [listed[0]];
      NodeKeeps(trace, listed[0], session);
      RestGrows(trace, from, listed[0], start, session, l);
    }
  }

  /** The measured components are those of the distance, so an accepted course has really moved. */
  lemma AcceptedMoved(c: Course, t: Trigonometry, l: Limits)
    requires t.cosine(c.start.yaw) * t.cosine(c.start.yaw) + t.sine(c.start.yaw) * t.sine(c.start.yaw) == 1.0
    requires Accepted(c, t, l) && l.minForward >= 0.0
    ensures Forward(c, t) * Forward(c, t) + Lateral(c, t) * Lateral(c, t) == SquaredDistance(c.start, c.stop)
    ensures SquaredDistance(c.start, c.stop) >= l.minForward * l.minForward
  {
    var cs, sn, dx, dy := t.cosine(c.start.yaw), t.sine(c.start.yaw), c.stop.x - c.start.x, c.stop.y - c.start.y;
    var f, side := Forward(c, t), Lateral(c, t);
    assert f * f == cs * cs * (dx * dx) + 2.0 * (cs * sn * (dx * dy)) + sn * sn * (dy * dy);
    assert side * side == sn * sn * (dx * dx) - 2.0 * (cs * sn * (dx * dy)) + cs * cs * (dy * dy);
    assert f * f + side * side == (cs * cs + sn * sn) * (dx * dx) + (cs * cs + sn * sn) * (dy * dy);
    assert side * side >= 0.0;
    assert f * f >= l.minForward * l.minForward;
  }

  // ----- The probe -----

  /** A call returns, or an exception ends the attempt. */
  datatype Outcome = Fine | Raised

  class FirstMotionProbe {
    const turns: nat -> Turn
    const limits: Limits
    const session: Session
    const baseline: set<Gid>
    const trigonometry: Trigonometry

    var now: nat
    var step: nat
    var node: Node
    var sportGid: Option<Gid>
    var nextGraphCheck: nat
    ghost var trace: seq<Event>

    constructor (
      turns: nat -> Turn, limits: Limits, session: Session, baseline: set<Gid>, trigonometry: Trigonometry, now: nat)
      requires ValidLimits(limits)
      ensures Valid() && trace == [] && nextGraphCheck == 0
      ensures this.limits == limits && this.session == session && this.baseline == baseline
    {
      this.turns, this.limits, this.session, this.baseline, this.now := turns, limits, session, baseline, now;
      this.trigonometry := trigonometry;
      step, node, sportGid, nextGraphCheck, trace := 0, NEW_NODE, None, 0, [];
    }

    ghost predicate Valid() reads this {
      && ValidLimits(limits)
      && node == NodeAt(trace, session)
      && sportGid == BoundAt(trace, baseline)
      && SafeTrace(trace, session, baseline, limits)
    }

    /** The newest graph check passed, and the next one is due one period after it. */
    ghost predicate GraphCurrent() reads this {
      && limits.graphPeriod <= nextGraphCheck
      && LastGraphPass(trace, baseline) == Some(nextGraphCheck - limits.graphPeriod)
      && nextGraphCheck - limits.graphPeriod <= now
    }

    /** The motion did not start or end meanwhile. */
    twostate predicate SamePhase()
      reads this
    {
      && old(step) <= step
      && StartAt(trace, session) == StartAt(old(trace), session)
      && (Ended(trace) <==> Ended(old(trace)))
      && CourseOf(trace, session) == CourseOf(old(trace), session)
    }

    /** Nothing was asked of the arm service either. */
    twostate predicate Undisturbed()
      reads this
    {
      SamePhase() && LastRequest(trace) == LastRequest(old(trace))
    }

    twostate predicate StillZero()
      reads this
    {
      LastSpeed(old(trace)) == Some(0.0) ==> LastSpeed(trace) == Some(0.0)
    }

    /** The client library was alive at every look at it. */
    ghost predicate AliveThrough(first: nat, end: nat) {
      forall k: nat :: first <= k < end ==> turns(k).alive
    }

    // ----- Callbacks -----

    method NoteStamp(m: Message) returns (stops: bool)
      requires m.SportState?
      modifies this`node
      ensures stops == StampStops(old(node), m) && node == StampSeen(old(node), m)
    {
      stops := m.stamp.Valid() && node.stateStamp.Some? && m.stamp.Nanoseconds() <= node.stateStamp.value;
      if stops {
        node := Latch(node, StateStampStopped);
      }
    }

    method NoteMarker(m: Message) returns (changes: bool)
      requires m.SportState?
      modifies this`node
      ensures changes == MarkerChanges(old(node), m) && node == MarkerSeen(old(node), m)
    {
      changes := false;
      if node.marker.None? {
        node := node.(marker := Some(m.marker));
      } else if m.marker != node.marker.value {
        node := Latch(node, MarkerChanged);
        changes := true;
      } else {
        assert node == node.(marker := Some(m.marker));
      }
    }

    method OnState(m: Message)
      requires m.SportState?
      modifies this`node
      ensures node == AfterState(old(node), m, now, session)
    {
      var stops := NoteStamp(m);
      var changes := NoteMarker(m);
      if !Refused(m, session) && !stops && !changes && node.latched.None? {
        node := node.(stateStamp := Some(m.stamp.Nanoseconds()), stateReceipt := Some(now), stateIssue := false);
      } else {
        node := node.(stateIssue := true);
      }
    }

    method OnOdom(m: Message)
      requires m.Odometry?
      modifies this`node
      ensures node == AfterOdom(old(node), m, now)
    {
      var issue := !m.framesMatch || !m.finite || !m.unitQuaternion;
      if !issue && !m.stamp.Valid() {
        issue := true;
      } else if !issue && node.odomStamp.Some? && m.stamp.Nanoseconds() <= node.odomStamp.value {
        node := Latch(node, OdomStampStopped);
        issue := true;
      }
      if !issue && node.latched.None? {
        node := node.(odomStamp := Some(m.stamp.Nanoseconds()), odomReceipt := Some(now), odom := Some(m.pose));
        node := node.(samples := node.samples + 1, odomIssue := false);
      } else {
        node := node.(odomIssue := true);
      }
    }

    method OnDiagnostics(m: Message)
      requires m.Diagnostics?
      modifies this`node
      ensures node == AfterDiagnostics(old(node), m, now)
    {
      if m.report.None? {
        node := node.(diagnosticIssue := true);
        return;
      }
      var r := m.report.value;
      node := node.(guard := r.guard, daemonArmed := r.daemonArmed, permitSpent := r.permitSpent, motionActive := r.motionActive);
      if r.sound && r.motionActive {
        node := node.(motionObserved := true);
      }
      node := node.(diagnosticIssue := !r.sound);
      if r.sound {
        node := node.(diagnosticReceipt := Some(now));
      }
    }

    method OnMessage(m: Message)
      requires Valid()
      modifies this`node, this`trace
      ensures Valid() && trace == old(trace) + [Received(m, now)]
      ensures GraphCurrent() <==> old(GraphCurrent())
      ensures Undisturbed() && StillZero()
    {
      match m {
        case SportState(_, _, _) => OnState(m);
        case Odometry(_, _, _, _, _) => OnOdom(m);
        case Diagnostics(_) => OnDiagnostics(m);
      }
      trace := trace + [Received(m, now)];
      assert trace[..|trace| - 1] == old(trace);
    }

    // ----- Single interactions -----

    method Tick() returns (turn: Turn)
      modifies this`now, this`step
      ensures now >= old(now) && step == old(step) + 1 && turn == turns(old(step))
    {
      turn := turns(step);
      step := step + 1;
      now := now + turn.elapsed;
    }

    /** Waits for at most one message and handles it. */
    method Spin() returns (r: Outcome)
      requires Valid()
      modifies this`now, this`step, this`node, this`trace
      ensures Valid() && now > old(now) && step == old(step) + 1 && Undisturbed() && StillZero()
      ensures old(GraphCurrent()) ==> GraphCurrent()
      ensures trace == old(trace) + Heard(turns(old(step)), now)
    {
      var turn := Tick();
      now := now + 1;
      if turn.raises { return Raised; }
      if turn.message.Some? {
        OnMessage(turn.message.value);
      }
      r := Fine;
    }

    method Publish(speed: real) returns (r: Outcome)
      requires Valid()
      requires speed == 0.0 || (speed == limits.speed && Justified(trace, session, baseline, limits))
      modifies this`now, this`step, this`trace
      ensures Valid() && now >= old(now) && Undisturbed()
      ensures old(GraphCurrent()) ==> GraphCurrent()
      ensures trace == old(trace) + [Published(speed)] && LastSpeed(trace) == Some(speed)
    {
      var turn := Tick();
      trace := trace + [Published(speed)];
      assert trace[..|trace| - 1] == old(trace);
      r := if turn.raises then Raised else Fine;
    }

    /** Reads the command graph; the exception of a listing ends the attempt. */
    method CheckGraph(began: nat) returns (r: Outcome, passes: bool)
      requires Valid() && began <= now
      modifies this`now, this`step, this`sportGid, this`trace
      ensures Valid() && now >= old(now) && Undisturbed() && StillZero()
      ensures r.Fine? && passes ==> LastGraphPass(trace, baseline) == Some(began) && sportGid.Some?
      ensures r.Raised? ==> trace == old(trace)
      ensures r.Fine? ==> trace == old(trace) + [GraphChecked(turns(old(step)).graph, began)]
    {
      var turn := Tick();
      if turn.raises { return Raised, false; }
      var graph := turn.graph;
      passes := GraphPasses(graph, baseline, sportGid);
      sportGid := BoundAfter(graph, baseline, sportGid);
      trace := trace + [GraphChecked(graph, began)];
      assert trace[..|trace| - 1] == old(trace);
      r := Fine;
    }

    /** The check reads the clock anew; phases may also fix the permit and the activity. */
    method CheckHealth(began: nat, guards: set<Guard>, permit: Option<bool>, active: Option<bool>) returns (passes: bool)
      requires Valid()
      modifies this`now, this`step, this`trace
      ensures Valid() && now >= old(now) && Undisturbed() && StillZero()
      ensures old(GraphCurrent()) ==> GraphCurrent()
      ensures trace == old(trace) + [HealthChecked(began, now)]
      ensures passes <==>
        && Healthy(node, now, guards, limits)
        && (permit.Some? ==> node.permitSpent == permit.value)
        && (active.Some? ==> node.motionActive == active.value)
    {
      var turn := Tick();
      trace := trace + [HealthChecked(began, now)];
      assert trace[..|trace| - 1] == old(trace);
      passes := Healthy(node, now, guards, limits)
        && (permit.None? || node.permitSpent == permit.value)
        && (active.None? || node.motionActive == active.value);
    }

    /** The graph check, when one is due. */
    method CheckGraphWhenDue(began: nat, force: bool) returns (r: Outcome, passes: bool, ghost listed: seq<Event>)
      requires Valid() && (nextGraphCheck == 0 || GraphCurrent()) && began == now
      modifies this`now, this`step, this`sportGid, this`nextGraphCheck, this`trace
      ensures Valid() && now >= old(now) && Undisturbed() && StillZero()
      ensures r.Raised? ==> !passes
      ensures passes ==> GraphCurrent() && began < nextGraphCheck <= began + limits.graphPeriod
      ensures passes ==> trace == old(trace) + listed && Listing(listed)
    {
      listed, passes, r := [], true, Fine;
      if force || began >= nextGraphCheck {
        nextGraphCheck := began + limits.graphPeriod;
        listed := [GraphChecked(turns(step).graph, began)];
        r, passes := CheckGraph(began);
        passes := passes && r.Fine?;
      }
    }

    /** Telemetry every time, the graph when a check is due. */
    method CheckRuntime(guards: set<Guard>, permit: Option<bool>, active: Option<bool>, force: bool)
      returns (r: Outcome, passes: bool, ghost listed: seq<Event>, ghost began: nat)
      requires Valid() && (nextGraphCheck == 0 || GraphCurrent())
      modifies this`now, this`step, this`sportGid, this`nextGraphCheck, this`trace
      ensures Valid() && now >= old(now) && Undisturbed() && StillZero()
      ensures r.Raised? ==> !passes
      ensures passes ==>
        && GraphCurrent() && began < nextGraphCheck <= began + limits.graphPeriod
        && trace == old(trace) + listed + [HealthChecked(began, now)] && Listing(listed)
        && Healthy(node, now, guards, limits)
        && (permit.Some? ==> node.permitSpent == permit.value)
        && (active.Some? ==> node.motionActive == active.value)
    {
      var turn := Tick();
      var start := now;
      began := start;
      r, passes, listed := CheckGraphWhenDue(start, force);
      if r.Raised? || !passes { return; }
      passes := CheckHealth(start, guards, permit, active);
    }

    // ----- Phases before the motion -----

    /** A zero velocity, then a spin; the pulse of every phase but the motion. */
    method Pulse() returns (r: Outcome)
      requires Valid()
      modifies this`now, this`step, this`node, this`trace
      ensures Valid() && now >= old(now) && Undisturbed() && LastSpeed(trace) == Some(0.0)
      ensures r.Fine? ==> now > old(now)
      ensures old(GraphCurrent()) ==> GraphCurrent()
    {
      r := Publish(0.0);
      if r.Fine? {
        r := Spin();
      }
    }

    /** Sends the request, when the service is there. */
    method Request(arm: bool) returns (r: Outcome, sent: bool)
      requires Valid()
      modifies this`now, this`step, this`trace
      ensures Valid() && now >= old(now) && SamePhase() && StillZero()
      ensures old(GraphCurrent()) ==> GraphCurrent()
      ensures r.Raised? ==> !sent
      ensures sent ==> LastRequest(trace) == Some(arm)
    {
      var turn := Tick();
      r, sent := if turn.raises then Raised else Fine, !turn.raises && turn.ready;
      if sent {
        ghost var before := trace;
        trace := trace + [Requested(arm)];
        assert trace[..|trace| - 1] == before;
      }
    }

    /** Keeps sending zero until the adapter answers or the time is over. */
    method AwaitAnswer(timeout: nat) returns (r: Outcome, answer: Turn)
      requires Valid()
      modifies this`now, this`step, this`node, this`trace
      ensures Valid() && now >= old(now) && Undisturbed() && StillZero()
      ensures old(GraphCurrent()) ==> GraphCurrent()
    {
      r := Fine;
      answer := Tick();
      var deadline := now + timeout;
      while !answer.done && now < deadline
        invariant Valid() && now >= old(now) && Undisturbed() && StillZero()
        invariant old(GraphCurrent()) ==> GraphCurrent()
        decreases deadline - now
      {
        r := Pulse();
        if r.Raised? { return; }
        answer := Tick();
      }
    }

    /** Asks the adapter to arm or disarm. */
    method CallArm(arm: bool, timeout: nat) returns (r: Outcome, accepted: bool)
      requires Valid()
      modifies this`now, this`step, this`node, this`trace
      ensures Valid() && now >= old(now) && SamePhase() && StillZero()
      ensures old(GraphCurrent()) ==> GraphCurrent()
      ensures r.Fine? && accepted ==> LastRequest(trace) == Some(arm)
    {
      r, accepted := Request(arm);
      if !accepted { return; }
      var answer;
      r, answer := AwaitAnswer(timeout);
      if r.Raised? { return r, false; }
      accepted := answer.done && !answer.raises && answer.accepted;
    }

    /** Fresh telemetry and three passed graph checks in a row, within eight seconds. */
    method Acquire() returns (r: Outcome)
      requires Valid()
      modifies this`now, this`step, this`node, this`sportGid, this`trace
      ensures Valid() && SamePhase()
      ensures r.Fine? ==> sportGid.Some?
    {
      var deadline, stable, nextCheck := now + 8 * SECOND, 0, 0;
      var turn := Tick();
      while now < deadline && stable < 3
        invariant Valid() && SamePhase()
        invariant stable > 0 ==> sportGid.Some?
        decreases if now < deadline then deadline - now else 0
      {
        if turn.stop { return Raised; }
        r := Pulse();
        if r.Raised? { return; }
        turn := Tick();
        if now >= nextCheck {
          var seen := now;
          var passes;
          r, passes := CheckGraph(now);
          if r.Raised? { return; }
          if passes {
            passes := CheckHealth(now, {Disarmed}, Some(false), Some(false));
          }
          stable := if passes then stable + 1 else 0;
          nextCheck := seen + 100 * MILLISECOND;
        }
        turn := Tick();
      }
      r := if stable < 3 || sportGid.None? then Raised else Fine;
    }

    /** One round of a zero-velocity phase: the operator, the runtime check, then the pulse. */
    method Round(guards: set<Guard>, permit: Option<bool>, active: Option<bool>) returns (r: Outcome)
      requires Valid() && (nextGraphCheck == 0 || GraphCurrent())
      modifies this`now, this`step, this`node, this`sportGid, this`nextGraphCheck, this`trace
      ensures Valid() && SamePhase() && now >= old(now)
      ensures r.Fine? ==> GraphCurrent() && now > old(now)
    {
      var turn := Tick();
      if turn.stop { return Raised; }
      var passes; ghost var listed, began;
      r, passes, listed, began := CheckRuntime(guards, permit, active, false);
      if r.Raised? || !passes { return Raised; }
      r := Pulse();
    }

    method ZeroPreamble() returns (r: Outcome)
      requires Valid()
      modifies this`now, this`step, this`node, this`sportGid, this`nextGraphCheck, this`trace
      ensures Valid() && SamePhase()
      ensures r.Fine? ==> nextGraphCheck == 0 || GraphCurrent()
    {
      nextGraphCheck := 0;
      var turn := Tick();
      var deadline := now + 600 * MILLISECOND;
      while now < deadline
        invariant Valid() && SamePhase() && (nextGraphCheck == 0 || GraphCurrent())
        decreases if now < deadline then deadline - now else 0
      {
        r := Round({Disarmed}, Some(false), Some(false));
        if r.Raised? { return; }
      }
      r := Fine;
    }

    /** Waits for the armed zero of adapter and daemon, then forces a graph check. */
    method AwaitArmed() returns (r: Outcome)
      requires Valid() && (nextGraphCheck == 0 || GraphCurrent())
      modifies this`now, this`step, this`node, this`sportGid, this`nextGraphCheck, this`trace
      ensures Valid() && SamePhase()
      ensures r.Fine? ==> GraphCurrent() && node.odom.Some?
    {
      var turn := Tick();
      var deadline := now + 2 * SECOND;
      var armed := false;
      while now < deadline && !armed
        invariant Valid() && SamePhase() && (nextGraphCheck == 0 || GraphCurrent())
        decreases if now < deadline then deadline - now else 0
      {
        r := Round({Disarmed, Preparing, Armed}, None, None);
        if r.Raised? { return; }
        armed := node.guard == Armed && node.daemonArmed;
      }
      if node.guard != Armed || !node.daemonArmed { return Raised; }
      var passes; ghost var listed, began;
      r, passes, listed, began := CheckRuntime({Armed}, Some(true), Some(false), true);
      if r.Raised? || !passes || node.odom.None? { return Raised; }
    }

    // ----- The motion -----

    /** Compares distance and time with the soft limits. */
    method Decide(start: Start) returns (goOn: bool)
      requires Valid() && node.odom.Some?
      modifies this`now, this`step, this`trace
      ensures Valid() && Undisturbed() && now >= old(now)
      ensures trace == old(trace) + [Decided(now)]
      ensures old(GraphCurrent()) ==> GraphCurrent()
      ensures goOn <==> WithinLimits(start, now, node.odom.value, limits)
    {
      var turn := Tick();
      trace := trace + [Decided(now)];
      assert trace[..|trace| - 1] == old(trace);
      goOn := true;
      if SquaredDistance(start.pose, node.odom.value) >= limits.stopDistance * limits.stopDistance {
        goOn := false;
      } else if now >= start.at + limits.stopDuration {
        goOn := false;
      }
    }

    /** Health, graph and daemon are checked before the decision is made. */
    method MayMove(start: Start) returns (r: Outcome, goOn: bool)
      requires Valid() && GraphCurrent() && !Ended(trace)
      requires StartAt(trace, session) == Some(start)
      modifies this`now, this`step, this`sportGid, this`nextGraphCheck, this`trace
      ensures Valid() && Undisturbed() && now >= old(now)
      ensures r.Fine? ==> GraphCurrent() && node.odom.Some?
      ensures r.Fine? && goOn ==> Justified(trace, session, baseline, limits) && now < start.at + limits.stopDuration
      ensures r.Fine? && !goOn ==> !WithinLimits(start, now, node.odom.value, limits)
    {
      goOn := false;
      var turn := Tick();
      if turn.stop { return Raised, false; }
      var passes; ghost var listed, began;
      r, passes, listed, began := CheckRuntime({Armed}, None, None, false);
      if r.Raised? || !passes || !node.daemonArmed || node.odom.None? { return Raised, false; }
      ghost var checked := trace;
      goOn := Decide(start);
      assert trace[|trace| - 2] == checked[|checked| - 1];
    }

    /** The only place where the probe moves the robot. */
    method MotionLoop(start: Start) returns (r: Outcome)
      requires Valid() && GraphCurrent() && !Ended(trace)
      requires StartAt(trace, session) == Some(start)
      modifies this`now, this`step, this`node, this`sportGid, this`nextGraphCheck, this`trace
      ensures Valid() && Undisturbed()
      ensures r.Fine? ==> node.odom.Some? && GraphCurrent()
    {
      while true
        invariant Valid() && Undisturbed() && GraphCurrent() && !Ended(trace)
        decreases if now < start.at + limits.stopDuration then start.at + limits.stopDuration - now else 0
      {
        var goOn;
        r, goOn := MayMove(start);
        if r.Raised? || !goOn { return; }
        r := Publish(limits.speed);
        if r.Raised? { return; }
        r := Spin();
        if r.Raised? { return; }
      }
    }

    method Move() returns (r: Outcome)
      requires Valid() && GraphCurrent() && node.odom.Some? && !Ended(trace)
      modifies this`now, this`step, this`node, this`sportGid, this`nextGraphCheck, this`trace
      ensures Valid() && Ended(trace) && old(step) <= step
      ensures r.Fine? ==> CourseOf(trace, session).Some? && Accepted(CourseOf(trace, session).value, trigonometry, limits)
      ensures r.Fine? ==> node.motionObserved
    {
      var turn := Tick();
      var start := Start(now, node.odom.value);
      trace := trace + [MotionStarted(now)];
      assert trace[..|trace| - 1] == old(trace);
      r := MotionLoop(start);
      ghost var ran := trace;
      trace := trace + [MotionEnded];
      assert trace[..|trace| - 1] == ran;
      if r.Raised? { return; }
      r := Conclude(Course(start.pose, node.odom.value));
    }

    /** The zero that ends the motion, and the acceptance of what was measured. */
    method Conclude(course: Course) returns (r: Outcome)
      requires Valid() && Ended(trace) && CourseOf(trace, session) == Some(course)
      modifies this`now, this`step, this`trace
      ensures Valid() && Undisturbed()
      ensures r.Fine? ==> Accepted(course, trigonometry, limits) && node.motionObserved
    {
      r := Publish(0.0);
      if r.Fine? && (!node.motionObserved || !Accepted(course, trigonometry, limits)) {
        r := Raised;
      }
    }

    // ----- After the motion -----

    /** Whatever happened, zero is sent, the adapter is asked to disarm, and zero is held. */
    method ZeroAndDisarm() returns (success: bool)
      requires Valid()
      modifies this`now, this`step, this`node, this`trace
      ensures Valid() && SamePhase() && LastSpeed(trace) == Some(0.0)
      ensures success ==> LastRequest(trace) == Some(false)
    {
      var r := Publish(0.0);
      r, success := CallArm(false, 1500 * MILLISECOND);
      success := success && r.Fine?;
      var turn := Tick();
      var deadline := now + 350 * MILLISECOND;
      while turn.alive && now < deadline
        invariant Valid() && SamePhase() && LastSpeed(trace) == Some(0.0) && (success ==> LastRequest(trace) == Some(false))
        decreases if now < deadline then deadline - now else 0
      {
        r := Pulse();
        if r.Raised? { break; }
        turn := Tick();
      }
    }

    /** One round of the watch; it is good only when the robot is still at rest. */
    method RestRound(start: Pose, ghost from: nat) returns (r: Outcome, good: bool)
      requires Valid() && (nextGraphCheck == 0 || GraphCurrent())
      requires RestsSince(trace, from, start, session, limits)
      modifies this`now, this`step, this`node, this`sportGid, this`nextGraphCheck, this`trace
      ensures Valid() && Undisturbed() && StillZero()
      ensures r.Raised? ==> !good
      ensures good ==> now > old(now) && GraphCurrent() && RestsSince(trace, from, start, session, limits) && old(trace) <= trace
    {
      good := false;
      r := Publish(0.0);
      if r.Raised? { return; }
      r := Spin();
      if r.Raised? { return; }
      ghost var turn, heard := turns(step - 1), now;
      var passes; ghost var listed, began;
      r, passes, listed, began := CheckRuntime({Disarmed}, Some(true), Some(false), false);
      if r.Raised? || !passes { return; }
      if node.daemonArmed || node.odom.None? || !Stationary(start, node.odom.value, limits) { return; }
      good := true;
      RoundRests(old(trace), turn, heard, listed, HealthChecked(began, now), from, start, session, limits);
    }

    /** Rounds until the time is over or the client library has died. */
    method WatchRest(start: Pose, ghost from: nat, time: nat) returns (r: Outcome, good: bool)
      requires Valid() && nextGraphCheck == 0
      requires RestsSince(trace, from, start, session, limits)
      modifies this`now, this`step, this`node, this`sportGid, this`nextGraphCheck, this`trace
      ensures Valid() && Undisturbed() && StillZero()
      ensures good ==> old(trace) <= trace && RestsSince(trace, from, start, session, limits)
      ensures good && AliveThrough(old(step), step) ==> old(now) + time <= now
    {
      var turn := Tick();
      var deadline := now + time;
      while turn.alive && now < deadline
        invariant Valid() && Undisturbed() && StillZero() && (nextGraphCheck == 0 || GraphCurrent())
        invariant old(trace) <= trace && RestsSince(trace, from, start, session, limits)
        invariant old(step) < step && turn == turns(step - 1)
        decreases if now < deadline then deadline - now else 0
      {
        r, good := RestRound(start, from);
        if !good { return; }
        turn := Tick();
      }
      r, good := Fine, true;
    }

    /**
     One second of zero velocity during which the robot stays disarmed and where it is: every state
     it reports is looked at.  Only a dying client library shortens the second.
     */
    method VerifyPostStop() returns (r: Outcome, success: bool)
      requires Valid()
      modifies this`now, this`step, this`node, this`sportGid, this`nextGraphCheck, this`trace
      ensures Valid() && Undisturbed() && StillZero()
      ensures success ==>
        && old(node).odom.Some? && old(trace) <= trace
        && RestsSince(trace, |old(trace)|, old(node).odom.value, session, limits)
        && node.samples >= old(node).samples + limits.minSamples
        && (AliveThrough(old(step), step) ==> old(now) + SECOND <= now)
    {
      if node.odom.None? { return Fine, false; }
      var start, samples := node.odom.value, node.samples;
      nextGraphCheck := 0;
      var good;
      r, good := WatchRest(start, |trace|, SECOND);
      success := good && node.samples - samples >= limits.minSamples;
    }

    // ----- The run -----

    /** Everything that may raise. */
    method Attempt() returns (r: Outcome, armAccepted: bool)
      requires Valid() && trace == []
      modifies this`now, this`step, this`node, this`sportGid, this`nextGraphCheck, this`trace
      ensures Valid() && old(step) <= step
      ensures r.Fine? ==>
        && Ended(trace) && node.motionObserved
        && CourseOf(trace, session).Some? && Accepted(CourseOf(trace, session).value, trigonometry, limits)
    {
      armAccepted := false;
      r := Acquire();
      if r.Raised? { return; }
      r := ZeroPreamble();
      if r.Raised? { return; }
      var accepted;
      r, accepted := CallArm(true, 1500 * MILLISECOND);
      if r.Raised? || !accepted { return Raised, false; }
      armAccepted := true;
      r := AwaitArmed();
      if r.Raised? { return; }
      r := Move();
    }

    /**
     At this position the disarm had been acknowledged; from there on the robot was at rest where it
     then was, nothing was asked of the arm service, and enough new poses arrived.
     */
    ghost predicate VerifiedAtRest(from: nat)
      reads this
    {
      && from <= |trace| && Ended(trace[..from]) && LastRequest(trace[..from]) == Some(false)
      && var was := NodeAt(trace[..from], session);
      && was.odom.Some? && RestsSince(trace, from, was.odom.value, session, limits)
      && node.samples >= was.samples + limits.minSamples
    }

    /**
     A run passes only after an accepted motion, an acknowledged disarm and a verified rest.  Passed
     or not, it leaves zero as the newest velocity unless the client library has died.
     */
    method Run() returns (passed: bool, ghost from: nat)
      requires Valid() && trace == []
      modifies this`now, this`step, this`node, this`sportGid, this`nextGraphCheck, this`trace
      ensures SafeTrace(trace, session, baseline, limits) && node == NodeAt(trace, session)
      ensures passed ==>
        && CourseOf(trace, session).Some? && Accepted(CourseOf(trace, session).value, trigonometry, limits)
        && VerifiedAtRest(from)
      ensures passed || (!turns(old(step)).raises && AliveThrough(old(step), step)) ==> LastSpeed(trace) == Some(0.0)
    {
      from := 0;
      var created := Tick();
      if created.raises { return false, from; }
      var r, armAccepted := Attempt();
      var disarmed, rested := false, false;
      var turn := Tick();
      if turn.alive {
        disarmed := ZeroAndDisarm();
        if armAccepted && disarmed {
          ghost var stopped := trace;
          from := |stopped|;
          var verified;
          verified, rested := VerifyPostStop();
          assert rested ==> trace[..from] == stopped;
        }
      }
      turn := Tick();
      passed := r.Fine? && disarmed && rested && !turn.raises;
    }
  }
}
