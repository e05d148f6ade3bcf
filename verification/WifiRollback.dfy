/**
 The private Wi-Fi cutover of scripts/nomotion_private_wifi_rollback.py.
 NetworkManager is an arbitrary oracle: the n-th interaction gets the n-th entry of an unknown
 schedule, so every contract below holds for every pattern of failures, time-outs, observations
 and signals.  The ghost trace records each request that was made with what came back.
 */
module WifiRollback {
  import RouteIsolation
  import opened HostCommands

  type Uuid = nat

  const STABLE_OBSERVATIONS: nat := 4
  const STABILITY_SAMPLE_LIMIT: nat := 10
  const ROLLBACK_ATTEMPTS: nat := 3
  const NANOSECONDS: nat := 1_000_000_000

  /** The connections found by the preflight. */
  datatype ConnectionState = ConnectionState(campus: Uuid, target: Uuid, wired: Uuid)

  datatype Request =
    | Activate(uuid: Uuid, interface: Interface)
    | Deactivate(uuid: Uuid)
    | ActiveUuid(interface: Interface)
    | CampusDefaultRoute
    | Addresses
    | RouteView
    | Dns
    | Ping(host: nat)
    | CampusProfile(uuid: Uuid)
    | FindTarget
    | CheckProfile(uuid: Uuid)

  /**
   What one interaction does: whether the command or the parse succeeded, what it printed, and
   which signals arrive before it starts and while it runs.
   */
  datatype Reply = Reply(
    ok: bool, uuid: Option<Uuid>, present: bool, records: seq<AddressRecord>, view: RouteIsolation.View,
    before: Option<nat>, during: Option<nat>, elapsed: nat)

  /** A request with what came back, and the monotonic time at which it had ended. */
  datatype Event = Event(request: Request, reply: Reply, at: int)

  // ----- Reading a trace -----

  predicate Changes(e: Event) {
    e.request.Activate? || e.request.Deactivate?
  }

  ghost predicate Extends(before: seq<Event>, after: seq<Event>) {
    |before| <= |after| && after[..|before|] == before
  }

  ghost predicate Silent(events: seq<Event>) {
    forall i :: 0 <= i < |events| ==> !Changes(events[i])
  }

  /** Nothing but observations was added. */
  ghost predicate OnlyObserved(before: seq<Event>, after: seq<Event>) {
    Extends(before, after) && forall i :: |before| <= i < |after| ==> !Changes(after[i])
  }

  /** An address listing was read and no interface owned the host address. */
  predicate SeesNoOwner(e: Event) {
    e.request.Addresses? && e.reply.ok && Owners(e.reply.records) == []
  }

  /**
   How many listings at the end of the trace in a row saw no owner, counted back to the last
   listing that failed or saw one and to the last request that could have changed it.
   */
  ghost function OwnerFreeTail(trace: seq<Event>): nat {
    if trace == [] then 0
    else
      var last := trace[|trace| - 1];
      if Changes(last) || (last.request.Addresses? && !SeesNoOwner(last)) then 0
      else OwnerFreeTail(trace[..|trace| - 1]) + if SeesNoOwner(last) then 1 else 0
  }

  /** The connection-changing requests, oldest first. */
  ghost function Changelog(trace: seq<Event>): (log: seq<Request>)
    ensures forall i :: 0 <= i < |log| ==> log[i].Activate? || log[i].Deactivate?
  {
    if trace == [] then []
    else
      var init, last := Changelog(trace[..|trace| - 1]), trace[|trace| - 1];
      if Changes(last) then init + [last.request] else init
  }

  /** The connection most recently requested on wlo1. */
  ghost function NewestWifi(log: seq<Request>): Option<Uuid> {
    if log == [] then None
    else
      var last := log[|log| - 1];
      if last.Activate? && last.interface == Wifi then Some(last.uuid) else NewestWifi(log[..|log| - 1])
  }

  /** The campus was requested, then the target cancelled, then the campus requested anew. */
  ghost predicate Reconciled(log: seq<Request>, st: ConnectionState) {
    && 3 <= |log|
    && log[|log| - 3..] == [Activate(st.campus, Wifi), Deactivate(st.target), Activate(st.campus, Wifi)]
  }

  lemma ThreeReconcile(log: seq<Request>, st: ConnectionState)
    ensures var after := log + [Activate(st.campus, Wifi)] + [Deactivate(st.target)] + [Activate(st.campus, Wifi)];
      Reconciled(after, st) && NewestWifi(after) == Some(st.campus)
  {
  }

  predicate IsWiredActivation(e: Event) {
    e.request.Activate? && e.request.interface == Wired
  }

  /**
   From position `start` on, each wired activation directly follows four listings without an
   owner, taken after the wlo1 requests were reconciled.
   */
  ghost predicate WiredOnlyWhenFree(trace: seq<Event>, st: ConnectionState, start: nat) {
    forall i :: start <= i < |trace| && IsWiredActivation(trace[i]) ==>
      STABLE_OBSERVATIONS <= OwnerFreeTail(trace[..i]) && Reconciled(Changelog(trace[..i]), st)
  }

  /** From position `start` on, only the requests of a rollback change connections. */
  ghost predicate OnlyRollbackRequests(trace: seq<Event>, st: ConnectionState, start: nat) {
    forall i :: start <= i < |trace| && Changes(trace[i]) ==>
      trace[i].request in {Activate(st.campus, Wifi), Deactivate(st.target), Activate(st.wired, Wired), Deactivate(st.wired)}
  }

  // ----- Stability samples -----

  datatype SampleKind = CampusWithoutHost | FullyRestored | NoHostOwner | WiredUnique

  function SampleLength(kind: SampleKind): nat {
    match kind
    case CampusWithoutHost => 3
    case FullyRestored => 4
    case NoHostOwner => 1
    case WiredUnique => 3
  }

  predicate SeesActive(e: Event, interface: Interface, uuid: Uuid) {
    e.request == ActiveUuid(interface) && e.reply.ok && e.reply.uuid == Some(uuid)
  }

  predicate SeesCampusActive(st: ConnectionState, e0: Event, e1: Event) {
    SeesActive(e0, Wifi, st.campus) && e1.request == CampusDefaultRoute && e1.reply.ok && e1.reply.present
  }

  predicate SeesExactOwner(e: Event, interface: Interface) {
    e.request.Addresses? && e.reply.ok && ExactOwner(e.reply.records, interface)
  }

  /** The observations that make up one positive sample. */
  ghost predicate PositiveSample(kind: SampleKind, st: ConnectionState, block: seq<Event>) {
    && |block| == SampleLength(kind)
    && match kind
       case CampusWithoutHost => SeesCampusActive(st, block[0], block[1]) && SeesNoOwner(block[2])
       case FullyRestored => SeesCampusActive(st, block[0], block[1])
                             && SeesActive(block[2], Wired, st.wired) && SeesExactOwner(block[3], Wired)
       case NoHostOwner => SeesNoOwner(block[0])
       case WiredUnique => block[0].request == ActiveUuid(Wifi) && block[0].reply.ok && block[0].reply.uuid != Some(st.target)
                           && SeesActive(block[1], Wired, st.wired) && SeesExactOwner(block[2], Wired)
  }

  /** The trace ends with n positive samples back to back. */
  ghost predicate EndsWithSamples(kind: SampleKind, st: ConnectionState, trace: seq<Event>, n: nat)
    decreases n
  {
    n == 0 || (var k := SampleLength(kind);
               k <= |trace| && PositiveSample(kind, st, trace[|trace| - k..])
               && EndsWithSamples(kind, st, trace[..|trace| - k], n - 1))
  }

  // ----- The private validation -----

  const TARGET_HOSTS: seq<nat> := [
    RouteIsolation.V4(192, 168, 123, 1), RouteIsolation.V4(192, 168, 123, 18), RouteIsolation.V4(192, 168, 123, 161)]

  /** The route-isolation check, as a function of what it reads. */
  type IsolationCheck = RouteIsolation.View -> bool

  /** wlo1 holds the target and is the exact owner of the host address; the wire holds no address. */
  ghost predicate PrivateLink(st: ConnectionState, active: Event, listing: Event) {
    && SeesActive(active, Wifi, st.target)
    && SeesExactOwner(listing, Wifi) && AddressesOn(listing.reply.records, Wired) == []
  }

  ghost predicate PrivateRouting(check: IsolationCheck, routes: Event, dns: Event) {
    && routes.request.RouteView? && routes.reply.ok && check(routes.reply.view)
    && dns.request.Dns? && dns.reply.ok && !dns.reply.present
  }

  /** The four readings that prove the private topology. */
  ghost predicate PrivateBlock(check: IsolationCheck, st: ConnectionState, block: seq<Event>) {
    |block| == 4 && PrivateLink(st, block[0], block[1]) && PrivateRouting(check, block[2], block[3])
  }

  ghost predicate PingBlock(block: seq<Event>) {
    |block| == 3 && forall i :: 0 <= i < 3 ==> block[i].request == Ping(TARGET_HOSTS[i]) && block[i].reply.ok
  }

  /** Any number of private readings back to back. */
  ghost predicate Rechecks(check: IsolationCheck, st: ConnectionState, block: seq<Event>) {
    block == [] || (4 <= |block| && PrivateBlock(check, st, block[|block| - 4..]) && Rechecks(check, st, block[..|block| - 4]))
  }

  lemma ReadingsAppend(check: IsolationCheck, st: ConnectionState, trace: seq<Event>, rechecks: seq<Event>, block: seq<Event>)
    requires Rechecks(check, st, rechecks) && Silent(rechecks) && Silent(block)
    ensures trace + rechecks + block == trace + (rechecks + block) && Silent(rechecks + block)
    ensures PrivateBlock(check, st, block) ==> Rechecks(check, st, rechecks + block)
  {
    var all := rechecks + block;
    if PrivateBlock(check, st, block) {
      assert all[|all| - 4..] == block && all[..|all| - 4] == rechecks;
    }
  }

  /** A validated cutover: both requests accepted, the private state proven, the hosts reached, every recheck good. */
  ghost predicate ValidatedCutover(check: IsolationCheck, st: ConnectionState, block: seq<Event>) {
    && 9 <= |block|
    && block[0].request == Deactivate(st.wired) && block[0].reply.ok
    && block[1].request == Activate(st.target, Wifi) && block[1].reply.ok
    && PrivateBlock(check, st, block[2..6]) && PingBlock(block[6..9]) && Rechecks(check, st, block[9..])
  }

  /** Whatever happens before the rollback, at most these two requests change connections. */
  ghost predicate OnlyCutoverRequests(block: seq<Event>, st: ConnectionState) {
    forall i :: 0 <= i < |block| && Changes(block[i]) ==>
      block[i].request == Deactivate(st.wired) || block[i].request == Activate(st.target, Wifi)
  }

  /** Fully restored, or wired alone and unique, or wired removed by the very last request. */
  ghost predicate SafeEnding(st: ConnectionState, trace: seq<Event>) {
    || EndsWithSamples(FullyRestored, st, trace, STABLE_OBSERVATIONS)
    || EndsWithSamples(WiredUnique, st, trace, STABLE_OBSERVATIONS)
    || (Changelog(trace) != [] && Changelog(trace)[|Changelog(trace)| - 1] == Deactivate(st.wired))
  }

  /** The first event of the rollback ended at least so many seconds after the last ping had ended. */
  ghost predicate Held(trace: seq<Event>, ping: Event, rollback: nat, seconds: nat) {
    rollback < |trace| && ping.at + seconds * NANOSECONDS <= trace[rollback].at
  }

  /** The wired rule of the rollback extends over the whole run: before it nothing activates the wire. */
  lemma {:induction false} JoinRun(start: seq<Event>, before: seq<Event>, block: seq<Event>, ready: seq<Event>, end: seq<Event>, st: ConnectionState)
    requires ready == start + before + block && Extends(ready, end)
    requires Silent(before) && OnlyCutoverRequests(block, st)
    requires WiredOnlyWhenFree(end, st, |ready|)
    ensures WiredOnlyWhenFree(end, st, |start|)
  {
    forall i | |start| <= i < |ready| ensures !IsWiredActivation(end[i]) {
      assert end[i] == ready[i];
      if i < |start| + |before| {
        assert ready[i] == before[i - |start|];
      } else {
        assert ready[i] == block[i - |start| - |before|];
      }
    }
  }

  lemma CutoverShape(check: IsolationCheck, st: ConnectionState, e0: seq<Event>, e1: seq<Event>,
                     readings: seq<Event>, pings: seq<Event>, rechecks: seq<Event>)
    requires |e0| == 1 && e0[0].request == Deactivate(st.wired) && e0[0].reply.ok
    requires |e1| == 1 && e1[0].request == Activate(st.target, Wifi) && e1[0].reply.ok
    requires PrivateBlock(check, st, readings) && PingBlock(pings)
    ensures Rechecks(check, st, rechecks) ==> ValidatedCutover(check, st, e0 + e1 + (readings + pings) + rechecks)
  {
    var block := e0 + e1 + (readings + pings) + rechecks;
    assert block[2..6] == readings && block[6..9] == pings && block[9..] == rechecks;
  }

  lemma AnotherSample(kind: SampleKind, st: ConnectionState, before: seq<Event>, after: seq<Event>, n: nat)
    requires EndsWithSamples(kind, st, before, n)
    requires Extends(before, after) && PositiveSample(kind, st, after[|before|..])
    ensures EndsWithSamples(kind, st, after, n + 1)
  {
    assert |after| - SampleLength(kind) == |before|;
  }

  ghost function TrailingTrue(flags: seq<bool>): nat {
    if flags == [] || !flags[|flags| - 1] then 0 else 1 + TrailingTrue(flags[..|flags| - 1])
  }

  lemma TailAppends(trace: seq<Event>, e: Event)
    requires !Changes(e) && (e.request.Addresses? ==> SeesNoOwner(e))
    ensures OwnerFreeTail(trace + [e]) == OwnerFreeTail(trace) + if SeesNoOwner(e) then 1 else 0
  {
    assert (trace + [e])[..|trace|] == trace;
  }

  lemma FreeSample(kind: SampleKind, st: ConnectionState, trace: seq<Event>, block: seq<Event>)
    requires kind == CampusWithoutHost || kind == NoHostOwner
    requires PositiveSample(kind, st, block)
    ensures OwnerFreeTail(trace + block) == OwnerFreeTail(trace) + 1
  {
    if kind == NoHostOwner {
      TailAppends(trace, block[0]);
      assert trace + block == trace + [block[0]];
    } else {
      TailAppends(trace, block[0]);
      TailAppends(trace + [block[0]], block[1]);
      TailAppends(trace + [block[0]] + [block[1]], block[2]);
      assert trace + block == trace + [block[0]] + [block[1]] + [block[2]];
    }
  }

  lemma {:induction false} SamplesSeeNoOwner(kind: SampleKind, st: ConnectionState, trace: seq<Event>, n: nat)
    requires kind == CampusWithoutHost || kind == NoHostOwner
    requires EndsWithSamples(kind, st, trace, n)
    ensures n <= OwnerFreeTail(trace)
  {
    if n > 0 {
      var init := |trace| - SampleLength(kind);
      SamplesSeeNoOwner(kind, st, trace[..init], n - 1);
      FreeSample(kind, st, trace[..init], trace[init..]);
      assert trace[..init] + trace[init..] == trace;
    }
  }

  lemma {:induction false} ObservationsKeep(before: seq<Event>, after: seq<Event>, st: ConnectionState, start: nat)
    requires OnlyObserved(before, after)
    ensures Changelog(after) == Changelog(before)
    ensures WiredOnlyWhenFree(before, st, start) ==> WiredOnlyWhenFree(after, st, start)
    ensures OnlyRollbackRequests(before, st, start) ==> OnlyRollbackRequests(after, st, start)
    decreases |after|
  {
    if |before| < |after| {
      var init := after[..|after| - 1];
      assert init[..|before|] == before;
      ObservationsKeep(before, init, st, start);
      AppendKeeps(init, after[|after| - 1], st, start);
      assert after == init + [after[|after| - 1]];
    } else {
      assert after == before;
    }
  }

  /** One more event: what it must satisfy for the rollback rules to keep holding. */
  lemma AppendKeeps(trace: seq<Event>, e: Event, st: ConnectionState, start: nat)
    ensures Changelog(trace + [e]) == if Changes(e) then Changelog(trace) + [e.request] else Changelog(trace)
    ensures WiredOnlyWhenFree(trace, st, start)
            && (IsWiredActivation(e) ==> STABLE_OBSERVATIONS <= OwnerFreeTail(trace) && Reconciled(Changelog(trace), st))
            ==> WiredOnlyWhenFree(trace + [e], st, start)
    ensures OnlyRollbackRequests(trace, st, start)
            && (Changes(e) ==> e.request in {Activate(st.campus, Wifi), Deactivate(st.target), Activate(st.wired, Wired), Deactivate(st.wired)})
            ==> OnlyRollbackRequests(trace + [e], st, start)
  {
    var longer := trace + [e];
    assert longer[..|trace|] == trace;
    if WiredOnlyWhenFree(trace, st, start)
       && (IsWiredActivation(e) ==> STABLE_OBSERVATIONS <= OwnerFreeTail(trace) && Reconciled(Changelog(trace), st)) {
      forall i | start <= i < |longer| && IsWiredActivation(longer[i])
        ensures STABLE_OBSERVATIONS <= OwnerFreeTail(longer[..i]) && Reconciled(Changelog(longer[..i]), st)
      {
        if i < |trace| { assert longer[..i] == trace[..i] && longer[i] == trace[i]; }
      }
    }
  }

  // ----- The latch, the oracle and the workflow -----

  /** NetworkManager, the kernel and the clock, answering from an arbitrary schedule. */
  class Host {
    const replies: nat -> Reply
    var next: nat
    var clock: int
    ghost var trace: seq<Event>

    constructor (replies: nat -> Reply)
      ensures this.replies == replies && trace == []
    {
      this.replies := replies;
      next, clock, trace := 0, 0, [];
    }
  }

  class PrivateWifiRollback {
    const latch: SignalLatch
    const host: Host
    const check: IsolationCheck
    var state: Option<ConnectionState>
    var rollbackArmed: bool
    var rollbackStarted: bool
    ghost var rollbackRuns: nat

    constructor (latch: SignalLatch, host: Host, check: IsolationCheck)
      ensures this.latch == latch && this.host == host && this.check == check
      ensures state == None && !rollbackArmed && !rollbackStarted && rollbackRuns == 0
    {
      this.latch, this.host, this.check := latch, host, check;
      state, rollbackArmed, rollbackStarted, rollbackRuns := None, false, false, 0;
    }

    ghost predicate KeepsLatch(depthBefore: nat, pendingBefore: Option<nat>)
      reads latch
    {
      latch.deferDepth == depthBefore && (pendingBefore.Some? ==> latch.pending == pendingBefore)
    }

    /**
     One bounded external command.  A signal never stops a command half-way: it surfaces before
     the command starts or after it ended, and not at all while raising is deferred.
     */
    method Run(request: Request) returns (r: Outcome<Reply>)
      modifies latch`pending, host
      ensures KeepsLatch(old(latch.deferDepth), old(latch.pending))
      ensures r.Done? ==> host.trace == old(host.trace) + [Event(request, r.value, host.clock)] && r.value.ok && latch.Raises() == None
      ensures r.Failed? ==> |host.trace| == |old(host.trace)| + 1 && latch.Raises() == None
                            && host.trace[|old(host.trace)|].request == request && !host.trace[|old(host.trace)|].reply.ok
      ensures r.Interrupted? ==> latch.Raises() == Some(r.signum)
      ensures host.trace == old(host.trace) || (|host.trace| == |old(host.trace)| + 1 && host.trace[|old(host.trace)|].request == request)
      ensures Extends(old(host.trace), host.trace)
      ensures old(host.clock) <= host.clock
      ensures |old(host.trace)| < |host.trace| ==> host.trace[|old(host.trace)|].at == host.clock
    {
      var reply := host.replies(host.next);
      host.next := host.next + 1;
      if reply.before.Some? {
        latch.Capture(reply.before.value);
      }
      if latch.Raises().Some? {
        return Interrupted(latch.Raises().value);
      }
      host.clock := host.clock + reply.elapsed;
      host.trace := host.trace + [Event(request, reply, host.clock)];
      if reply.during.Some? {
        latch.Capture(reply.during.value);
      }
      if latch.Raises().Some? {
        return Interrupted(latch.Raises().value);
      }
      r := if reply.ok then Done(reply) else Failed;
    }

    method BestEffort(request: Request)
      requires latch.deferDepth > 0
      modifies latch`pending, host
      ensures KeepsLatch(old(latch.deferDepth), old(latch.pending))
      ensures |host.trace| == |old(host.trace)| + 1
      ensures host.trace == old(host.trace) + [host.trace[|old(host.trace)|]] && host.trace[|old(host.trace)|].request == request
      ensures old(host.clock) <= host.trace[|old(host.trace)|].at
    {
      var _ := Run(request);
    }

    // ----- Samples -----

    method ActiveConnection(interface: Interface) returns (r: Outcome<Uuid>)
      modifies latch`pending, host
      ensures KeepsLatch(old(latch.deferDepth), old(latch.pending)) && Extends(old(host.trace), host.trace)
      ensures old(host.clock) <= host.clock
      ensures |host.trace| <= |old(host.trace)| + 1
      ensures forall i :: |old(host.trace)| <= i < |host.trace| ==> host.trace[i].request == ActiveUuid(interface)
      ensures r.Interrupted? ==> latch.Raises() == Some(r.signum)
      ensures !r.Interrupted? ==> latch.Raises() == None
      ensures r.Done? ==> |host.trace| == |old(host.trace)| + 1 && SeesActive(host.trace[|old(host.trace)|], interface, r.value)
      ensures r.Failed? ==> |host.trace| == |old(host.trace)| + 1
                            && !(host.trace[|old(host.trace)|].reply.ok && host.trace[|old(host.trace)|].reply.uuid.Some?)
    {
      var reply := Run(ActiveUuid(interface));
      match reply
      case Done(v) => r := if v.uuid.Some? then Done(v.uuid.value) else Failed;
      case Failed => r := Failed;
      case Interrupted(s) => r := Interrupted(s);
    }

    ghost predicate Observing(traceBefore: seq<Event>, depthBefore: nat, pendingBefore: Option<nat>)
      reads latch, host
    {
      KeepsLatch(depthBefore, pendingBefore) && OnlyObserved(traceBefore, host.trace)
    }

    method CampusActiveSample(st: ConnectionState) returns (r: Outcome<bool>)
      requires latch.deferDepth > 0
      modifies latch`pending, host
      ensures Observing(old(host.trace), old(latch.deferDepth), old(latch.pending)) && !r.Interrupted?
      ensures |host.trace| <= |old(host.trace)| + 2
      ensures r == Done(true) <==> (|host.trace| == |old(host.trace)| + 2
                && SeesCampusActive(st, host.trace[|old(host.trace)|], host.trace[|old(host.trace)| + 1]))
    {
      var active := ActiveConnection(Wifi);
      if !active.Done? {
        return Failed;
      }
      if active.value != st.campus {
        return Done(false);
      }
      var route := Run(CampusDefaultRoute);
      r := if route.Done? then Done(route.value.present) else Failed;
    }

    /** The wire's identity and the exact ownership of the host address, as the last two readings. */
    method WiredOwnerSample(st: ConnectionState) returns (r: Outcome<bool>)
      requires latch.deferDepth > 0
      modifies latch`pending, host
      ensures Observing(old(host.trace), old(latch.deferDepth), old(latch.pending)) && !r.Interrupted?
      ensures |host.trace| <= |old(host.trace)| + 2
      ensures r == Done(true) <==> (|host.trace| == |old(host.trace)| + 2
                && SeesActive(host.trace[|old(host.trace)|], Wired, st.wired)
                && SeesExactOwner(host.trace[|old(host.trace)| + 1], Wired))
    {
      var active := ActiveConnection(Wired);
      if !active.Done? {
        return Failed;
      }
      if active.value != st.wired {
        return Done(false);
      }
      var listing := Run(Addresses);
      r := if listing.Done? then Done(ExactOwner(listing.value.records, Wired)) else Failed;
    }

    /** One sample; an exception inside it is a Failed outcome. */
    method Sample(kind: SampleKind, st: ConnectionState) returns (r: Outcome<bool>)
      requires latch.deferDepth > 0
      modifies latch`pending, host
      ensures Observing(old(host.trace), old(latch.deferDepth), old(latch.pending)) && !r.Interrupted?
      ensures r == Done(true) <==> PositiveSample(kind, st, host.trace[|old(host.trace)|..])
    {
      match kind
      case CampusWithoutHost =>
        r := CampusActiveSample(st);
        if r == Done(true) {
          var listing := Run(Addresses);
          r := if listing.Done? then Done(Owners(listing.value.records) == []) else Failed;
        }
      case FullyRestored =>
        r := CampusActiveSample(st);
        if r == Done(true) {
          r := WiredOwnerSample(st);
        }
      case NoHostOwner =>
        var listing := Run(Addresses);
        r := if listing.Done? then Done(Owners(listing.value.records) == []) else Failed;
      case WiredUnique =>
        // Here the script itself turns an exception into a negative sample.
        var wifi := Run(ActiveUuid(Wifi));
        if !wifi.Done? || wifi.value.uuid == Some(st.target) {
          return Done(false);
        }
        r := WiredOwnerSample(st);
        r := Done(r == Done(true));
    }

    /** One more sample; any exception counts as a negative one. */
    method NextSample(kind: SampleKind, st: ConnectionState, ghost run: nat) returns (valid: bool)
      requires latch.deferDepth > 0 && EndsWithSamples(kind, st, host.trace, run)
      modifies latch`pending, host
      ensures Observing(old(host.trace), old(latch.deferDepth), old(latch.pending))
      ensures valid <==> PositiveSample(kind, st, host.trace[|old(host.trace)|..])
      ensures valid ==> EndsWithSamples(kind, st, host.trace, run + 1)
    {
      var sample := Sample(kind, st);
      valid := sample == Done(true);
      if valid {
        AnotherSample(kind, st, old(host.trace), host.trace, run);
      }
    }

    /**
     Samples up to ten times for four positive samples in a row.  `seen` is what the samples
     said; the answer is yes exactly when they ended in such a run, and no only after all ten.
     */
    method WaitForStable(kind: SampleKind, st: ConnectionState) returns (stable: bool, ghost seen: seq<bool>)
      requires latch.deferDepth > 0
      modifies latch`pending, host
      ensures Observing(old(host.trace), old(latch.deferDepth), old(latch.pending))
      ensures stable ==> EndsWithSamples(kind, st, host.trace, STABLE_OBSERVATIONS)
      ensures |seen| <= STABILITY_SAMPLE_LIMIT
      ensures stable <==> STABLE_OBSERVATIONS <= TrailingTrue(seen)
      ensures !stable ==> |seen| == STABILITY_SAMPLE_LIMIT
    {
      var consecutive: nat := 0;
      seen := [];
      for index := 0 to STABILITY_SAMPLE_LIMIT
        invariant Observing(old(host.trace), old(latch.deferDepth), old(latch.pending))
        invariant consecutive == TrailingTrue(seen) < STABLE_OBSERVATIONS && |seen| == index
        invariant EndsWithSamples(kind, st, host.trace, consecutive)
      {
        var valid := NextSample(kind, st, consecutive);
        assert (seen + [valid])[..|seen|] == seen;
        consecutive := if valid then consecutive + 1 else 0;
        seen := seen + [valid];
        if consecutive >= STABLE_OBSERVATIONS {
          return true, seen;
        }
      }
      stable := false;
    }

    // ----- Rollback -----

    /** The first event of the rollback ended no earlier than the rollback began. */
    ghost predicate Timely(traceBefore: seq<Event>, since: int)
      reads host
    {
      since <= if |traceBefore| < |host.trace| then host.trace[|traceBefore|].at else host.clock
    }

    ghost predicate RollingBack(st: ConnectionState, traceBefore: seq<Event>, since: int, depthBefore: nat, pendingBefore: Option<nat>)
      reads latch, host
    {
      && KeepsLatch(depthBefore, pendingBefore) && Extends(traceBefore, host.trace) && Timely(traceBefore, since)
      && WiredOnlyWhenFree(host.trace, st, |traceBefore|) && OnlyRollbackRequests(host.trace, st, |traceBefore|)
    }

    /** One best-effort request of the rollback; its failure is ignored. */
    method Attempt(st: ConnectionState, request: Request, ghost start: seq<Event>, ghost since: int, ghost depth: nat, ghost pending: Option<nat>)
      requires latch.deferDepth > 0 && RollingBack(st, start, since, depth, pending)
      requires request in {Activate(st.campus, Wifi), Deactivate(st.target), Activate(st.wired, Wired), Deactivate(st.wired)}
      requires request.Activate? && request.interface == Wired ==>
        STABLE_OBSERVATIONS <= OwnerFreeTail(host.trace) && Reconciled(Changelog(host.trace), st)
      modifies latch`pending, host
      ensures RollingBack(st, start, since, depth, pending) && latch.deferDepth == old(latch.deferDepth)
      ensures Changelog(host.trace) == Changelog(old(host.trace)) + [request] && |start| < |host.trace|
    {
      BestEffort(request);
      AppendKeeps(old(host.trace), host.trace[|old(host.trace)|], st, |start|);
    }

    /** Waits for stability; observations leave everything the rollback keeps as it is. */
    method Await(kind: SampleKind, st: ConnectionState, ghost start: seq<Event>, ghost since: int, ghost depth: nat, ghost pending: Option<nat>)
      returns (stable: bool)
      requires |start| < |host.trace|
      requires latch.deferDepth > 0 && RollingBack(st, start, since, depth, pending)
      modifies latch`pending, host
      ensures RollingBack(st, start, since, depth, pending) && latch.deferDepth == old(latch.deferDepth)
      ensures Changelog(host.trace) == Changelog(old(host.trace)) && |start| < |host.trace|
      ensures stable ==> EndsWithSamples(kind, st, host.trace, STABLE_OBSERVATIONS)
      ensures stable && (kind == CampusWithoutHost || kind == NoHostOwner) ==> STABLE_OBSERVATIONS <= OwnerFreeTail(host.trace)
    {
      ghost var before := host.trace;
      ghost var seen;
      stable, seen := WaitForStable(kind, st);
      ObservationsKeep(before, host.trace, st, |start|);
      if stable && (kind == CampusWithoutHost || kind == NoHostOwner) {
        SamplesSeeNoOwner(kind, st, host.trace, STABLE_OBSERVATIONS);
      }
    }

    /** Campus, cancel the target, campus again: the campus request ends up newer than any other. */
    method Reconcile(st: ConnectionState, ghost start: seq<Event>, ghost since: int, ghost depth: nat, ghost pending: Option<nat>)
      requires latch.deferDepth > 0 && RollingBack(st, start, since, depth, pending)
      modifies latch`pending, host
      ensures RollingBack(st, start, since, depth, pending) && latch.deferDepth == old(latch.deferDepth)
      ensures Reconciled(Changelog(host.trace), st) && NewestWifi(Changelog(host.trace)) == Some(st.campus)
      ensures |start| < |host.trace|
    {
      Attempt(st, Activate(st.campus, Wifi), start, since, depth, pending);
      Attempt(st, Deactivate(st.target), start, since, depth, pending);
      Attempt(st, Activate(st.campus, Wifi), start, since, depth, pending);
      ThreeReconcile(Changelog(old(host.trace)), st);
    }

    /** One round: reconcile, and only if the host address is free bring the wire up and watch it. */
    method RecoveryRound(st: ConnectionState, ghost start: seq<Event>, ghost since: int, ghost depth: nat, ghost pending: Option<nat>)
      returns (restored: bool)
      requires latch.deferDepth > 0 && RollingBack(st, start, since, depth, pending)
      modifies latch`pending, host
      ensures RollingBack(st, start, since, depth, pending) && latch.deferDepth == old(latch.deferDepth)
      ensures NewestWifi(Changelog(host.trace)) == Some(st.campus) && |start| < |host.trace|
      ensures restored ==> EndsWithSamples(FullyRestored, st, host.trace, STABLE_OBSERVATIONS)
    {
      restored := false;
      Reconcile(st, start, since, depth, pending);
      var free := Await(CampusWithoutHost, st, start, since, depth, pending);
      if free {
        Attempt(st, Activate(st.wired, Wired), start, since, depth, pending);
        restored := Await(FullyRestored, st, start, since, depth, pending);
        if !restored {
          Attempt(st, Deactivate(st.wired), start, since, depth, pending);
        }
      }
    }

    /** Up to three ordered recovery rounds. */
    method RecoverInOrder(st: ConnectionState, ghost start: seq<Event>, ghost since: int, ghost depth: nat, ghost pending: Option<nat>)
      returns (restored: bool)
      requires latch.deferDepth > 0 && RollingBack(st, start, since, depth, pending)
      modifies latch`pending, host
      ensures RollingBack(st, start, since, depth, pending) && latch.deferDepth == old(latch.deferDepth)
      ensures NewestWifi(Changelog(host.trace)) == Some(st.campus) && |start| < |host.trace|
      ensures restored ==> EndsWithSamples(FullyRestored, st, host.trace, STABLE_OBSERVATIONS)
    {
      restored := false;
      for attempt := 0 to ROLLBACK_ATTEMPTS
        invariant latch.deferDepth == old(latch.deferDepth) && RollingBack(st, start, since, depth, pending)
        invariant attempt > 0 ==> NewestWifi(Changelog(host.trace)) == Some(st.campus) && |start| < |host.trace|
      {
        restored := RecoveryRound(st, start, since, depth, pending);
        if restored {
          return;
        }
      }
    }

    /** The last resort: the wired profile alone, and only if nothing else owns the host address. */
    method FallBackToWired(st: ConnectionState, ghost start: seq<Event>, ghost since: int, ghost depth: nat, ghost pending: Option<nat>)
      returns (safe: bool)
      requires latch.deferDepth > 0 && RollingBack(st, start, since, depth, pending)
      modifies latch`pending, host
      ensures RollingBack(st, start, since, depth, pending) && latch.deferDepth == old(latch.deferDepth)
      ensures NewestWifi(Changelog(host.trace)) == Some(st.campus) && |start| < |host.trace|
      ensures safe ==> EndsWithSamples(WiredUnique, st, host.trace, STABLE_OBSERVATIONS)
      ensures !safe ==> var log := Changelog(host.trace); log != [] && log[|log| - 1] == Deactivate(st.wired)
    {
      safe := false;
      Reconcile(st, start, since, depth, pending);
      var free := Await(NoHostOwner, st, start, since, depth, pending);
      if free {
        Attempt(st, Activate(st.wired, Wired), start, since, depth, pending);
        safe := Await(WiredUnique, st, start, since, depth, pending);
      }
      if !safe {
        Attempt(st, Deactivate(st.wired), start, since, depth, pending);
      }
    }

    predicate MustRollBack()
      reads this
    {
      rollbackArmed && !rollbackStarted && state.Some?
    }

    /**
     The rollback.  It runs at most once, no signal surfaces inside it, and it ends in one of
     three ways: fully restored; or failed with the wired profile as the proven unique owner; or
     failed with the removal of the wired profile as the last request.
     */
    method Rollback() returns (r: Outcome<()>)
      modifies this, latch, host
      ensures KeepsLatch(old(latch.deferDepth), old(latch.pending)) && !r.Interrupted?
      ensures state == old(state)
      ensures !old(MustRollBack()) ==>
        r == Done(()) && rollbackRuns == old(rollbackRuns) && host.trace == old(host.trace)
        && rollbackArmed == old(rollbackArmed) && rollbackStarted == old(rollbackStarted) && latch.pending == old(latch.pending)
      ensures old(MustRollBack()) ==>
        && rollbackRuns == old(rollbackRuns) + 1 && rollbackStarted && !rollbackArmed
        && RollingBack(state.value, old(host.trace), old(host.clock), old(latch.deferDepth), old(latch.pending))
        && |old(host.trace)| < |host.trace|
        && NewestWifi(Changelog(host.trace)) == Some(state.value.campus)
        && (r.Done? ==> EndsWithSamples(FullyRestored, state.value, host.trace, STABLE_OBSERVATIONS))
        && (r.Failed? ==>
              || EndsWithSamples(WiredUnique, state.value, host.trace, STABLE_OBSERVATIONS)
              || Changelog(host.trace)[|Changelog(host.trace)| - 1] == Deactivate(state.value.wired))
    {
      if !MustRollBack() {
        return Done(());
      }
      rollbackStarted := true;
      rollbackRuns := rollbackRuns + 1;
      var st := state.value;
      latch.deferDepth := latch.deferDepth + 1;
      ghost var depth := latch.deferDepth;
      var safe := false;
      var restored := RecoverInOrder(st, old(host.trace), old(host.clock), depth, old(latch.pending));
      if !restored {
        safe := FallBackToWired(st, old(host.trace), old(host.clock), depth, old(latch.pending));
      }
      latch.deferDepth := latch.deferDepth - 1;
      rollbackArmed := false;
      r := if restored then Done(()) else Failed;
    }

    // ----- Execution -----

    /** A read-only interaction. */
    method Observe(request: Request) returns (r: Outcome<Reply>, ghost added: seq<Event>)
      requires !request.Activate? && !request.Deactivate?
      modifies latch`pending, host
      ensures KeepsLatch(old(latch.deferDepth), old(latch.pending)) && old(host.clock) <= host.clock
      ensures host.trace == old(host.trace) + added && Silent(added) && |added| <= 1
      ensures r.Done? ==> added == [Event(request, r.value, host.clock)] && r.value.ok && latch.Raises() == None
      ensures r.Failed? ==> |added| == 1 && added[0].request == request && !added[0].reply.ok && latch.Raises() == None
      ensures r.Interrupted? ==> latch.Raises() == Some(r.signum)
    {
      ghost var before := host.trace;
      r := Run(request);
      added := host.trace[|before|..];
    }

    method PreflightCampus() returns (r: Outcome<Uuid>, ghost added: seq<Event>)
      modifies latch`pending, host
      ensures KeepsLatch(old(latch.deferDepth), old(latch.pending)) && old(host.clock) <= host.clock
      ensures host.trace == old(host.trace) + added && Silent(added)
      ensures r.Done? ==> 3 <= |added| && SeesActive(added[0], Wifi, r.value) && added[1].request == CampusProfile(r.value)
                          && added[1].reply.present && added[2].request == CampusDefaultRoute && added[2].reply.present
      ensures r.Interrupted? ==> latch.Raises() == Some(r.signum)
    {
      var campus, e0 := Observe(ActiveUuid(Wifi));
      if !campus.Done? || campus.value.uuid.None? {
        return campus.Propagate(), e0;
      }
      var uuid := campus.value.uuid.value;
      var profile, e1 := Observe(CampusProfile(uuid));
      if !profile.Done? || !profile.value.present {
        return profile.Propagate(), e0 + e1;
      }
      var route, e2 := Observe(CampusDefaultRoute);
      r := if route.Done? && route.value.present then Done(uuid) else route.Propagate();
      added := e0 + e1 + e2;
    }

    method PreflightProfiles(campus: Uuid) returns (r: Outcome<ConnectionState>, ghost added: seq<Event>)
      modifies latch`pending, host
      ensures KeepsLatch(old(latch.deferDepth), old(latch.pending)) && old(host.clock) <= host.clock
      ensures host.trace == old(host.trace) + added && Silent(added)
      ensures r.Done? ==> r.value.campus == campus != r.value.target
      ensures r.Done? ==> 4 <= |added| && SeesActive(added[0], Wired, r.value.wired) && added[1].request == FindTarget
                          && added[1].reply.uuid == Some(r.value.target)
                          && added[2].request == CheckProfile(r.value.target) && added[3].request == CheckProfile(r.value.wired)
                          && added[2].reply.ok && added[3].reply.ok
      ensures r.Interrupted? ==> latch.Raises() == Some(r.signum)
    {
      var wired, e0 := Observe(ActiveUuid(Wired));
      if !wired.Done? || wired.value.uuid.None? {
        return wired.Propagate(), e0;
      }
      var target, e1 := Observe(FindTarget);
      if !target.Done? || target.value.uuid.None? || target.value.uuid == Some(campus) {
        return target.Propagate(), e0 + e1;
      }
      var st := ConnectionState(campus, target.value.uuid.value, wired.value.uuid.value);
      var targetProfile, e2 := Observe(CheckProfile(st.target));
      if !targetProfile.Done? {
        return targetProfile.Propagate(), e0 + e1 + e2;
      }
      var wiredProfile, e3 := Observe(CheckProfile(st.wired));
      r := if wiredProfile.Done? then Done(st) else wiredProfile.Propagate();
      added := e0 + e1 + e2 + e3;
    }

    /** Reads only; on success the three connections are recorded. */
    method Preflight(gateOk: bool, interfacesOk: bool) returns (r: Outcome<()>, ghost added: seq<Event>)
      modifies this`state, latch`pending, host
      ensures KeepsLatch(old(latch.deferDepth), old(latch.pending)) && old(host.clock) <= host.clock
      ensures host.trace == old(host.trace) + added && Silent(added)
      ensures r.Done? ==> gateOk && interfacesOk && state.Some? && state.value.target != state.value.campus
      ensures r.Done? ==> 0 < |added| && SeesExactOwner(added[|added| - 1], Wired)
                          && AddressesOn(added[|added| - 1].reply.records, Wifi) != []
      ensures !r.Done? ==> state == old(state)
      ensures r.Interrupted? ==> latch.Raises() == Some(r.signum)
    {
      added := [];
      if !gateOk || !interfacesOk {
        return Failed, added;
      }
      var campus, e0 := PreflightCampus();
      if !campus.Done? {
        return campus.Propagate(), e0;
      }
      var profiles, e1 := PreflightProfiles(campus.value);
      if !profiles.Done? {
        return profiles.Propagate(), e0 + e1;
      }
      var listing, e2 := Observe(Addresses);
      added := e0 + e1 + e2;
      if !listing.Done? || !ExactOwner(listing.value.records, Wired) {
        return listing.Propagate(), added;
      }
      var wifi := AddressesOn(listing.value.records, Wifi);
      if wifi == [] || Owners(wifi) != [] {
        return Failed, added;
      }
      state := Some(profiles.value);
      r := Done(());
    }

    method ValidatePrivateLink(st: ConnectionState) returns (r: Outcome<()>, ghost added: seq<Event>)
      modifies latch`pending, host
      ensures KeepsLatch(old(latch.deferDepth), old(latch.pending)) && old(host.clock) <= host.clock
      ensures host.trace == old(host.trace) + added && Silent(added) && |added| <= 2
      ensures r.Done? ==> |added| == 2 && PrivateLink(st, added[0], added[1])
      ensures r.Failed? ==> |added| < 2 || !PrivateLink(st, added[0], added[1])
      ensures r.Interrupted? ==> latch.Raises() == Some(r.signum)
    {
      var active, e0 := Observe(ActiveUuid(Wifi));
      if !active.Done? || active.value.uuid != Some(st.target) {
        return active.Propagate(), e0;
      }
      var listing, e1 := Observe(Addresses);
      added := e0 + e1;
      if !listing.Done? || !ExactOwner(listing.value.records, Wifi) || AddressesOn(listing.value.records, Wired) != [] {
        return listing.Propagate(), added;
      }
      r := Done(());
    }

    method ValidatePrivateRouting() returns (r: Outcome<()>, ghost added: seq<Event>)
      modifies latch`pending, host
      ensures KeepsLatch(old(latch.deferDepth), old(latch.pending)) && old(host.clock) <= host.clock
      ensures host.trace == old(host.trace) + added && Silent(added) && |added| <= 2
      ensures r.Done? ==> |added| == 2 && PrivateRouting(check, added[0], added[1]) && latch.Raises() == None
      ensures r.Failed? ==> |added| < 2 || !PrivateRouting(check, added[0], added[1])
      ensures r.Interrupted? ==> latch.Raises() == Some(r.signum)
    {
      var routes, e0 := Observe(RouteView);
      if !routes.Done? || !check(routes.value.view) {
        return routes.Propagate(), e0;
      }
      var dns, e1 := Observe(Dns);
      added := e0 + e1;
      r := if dns.Done? && !dns.value.present then Done(()) else dns.Propagate();
    }

    /** The four private readings; it succeeds exactly when they prove the private topology. */
    method ValidatePrivateState(st: ConnectionState) returns (r: Outcome<()>, ghost block: seq<Event>)
      modifies latch`pending, host
      ensures KeepsLatch(old(latch.deferDepth), old(latch.pending)) && old(host.clock) <= host.clock
      ensures host.trace == old(host.trace) + block && Silent(block)
      ensures r.Done? ==> PrivateBlock(check, st, block) && latch.Raises() == None
      ensures r.Failed? ==> !PrivateBlock(check, st, block)
      ensures r.Interrupted? ==> latch.Raises() == Some(r.signum)
    {
      var link, e0 := ValidatePrivateLink(st);
      if !link.Done? {
        return link, e0;
      }
      var routing, e1 := ValidatePrivateRouting();
      r, block := routing, e0 + e1;
    }

    method ValidatePrivateRuntime(st: ConnectionState) returns (r: Outcome<()>, ghost readings: seq<Event>, ghost pings: seq<Event>)
      modifies latch`pending, host
      ensures KeepsLatch(old(latch.deferDepth), old(latch.pending)) && old(host.clock) <= host.clock
      ensures host.trace == old(host.trace) + (readings + pings) && Silent(readings) && Silent(pings)
      ensures r.Done? ==> PrivateBlock(check, st, readings) && PingBlock(pings) && latch.Raises() == None
      ensures r.Done? ==> pings[2].at == host.clock
      ensures r.Interrupted? ==> latch.Raises() == Some(r.signum)
    {
      pings := [];
      r, readings := ValidatePrivateState(st);
      if !r.Done? {
        return;
      }
      for k := 0 to |TARGET_HOSTS|
        invariant KeepsLatch(old(latch.deferDepth), old(latch.pending)) && old(host.clock) <= host.clock
        invariant host.trace == old(host.trace) + (readings + pings) && Silent(pings) && |pings| == k
        invariant latch.Raises() == None && (k > 0 ==> pings[k - 1].at == host.clock)
        invariant forall i :: 0 <= i < k ==> pings[i].request == Ping(TARGET_HOSTS[i]) && pings[i].reply.ok
      {
        var ping, e := Observe(Ping(TARGET_HOSTS[k]));
        pings := pings + e;
        if !ping.Done? {
          return ping.Propagate(), readings, pings;
        }
      }
      r := Done(());
    }

    /** A connection-changing request outside the rollback. */
    method Change(request: Request) returns (r: Outcome<Reply>, ghost added: seq<Event>)
      modifies latch`pending, host
      ensures KeepsLatch(old(latch.deferDepth), old(latch.pending)) && old(host.clock) <= host.clock
      ensures host.trace == old(host.trace) + added && |added| <= 1 && (|added| == 1 ==> added[0].request == request)
      ensures r.Done? ==> |added| == 1 && added[0].reply.ok
      ensures r.Interrupted? ==> latch.Raises() == Some(r.signum)
    {
      ghost var before := host.trace;
      r := Run(request);
      added := host.trace[|before|..];
    }

    /** Reads the monotonic clock; time may pass before the reading, and a signal may arrive. */
    method Monotonic() returns (now: int)
      modifies latch`pending, host`next, host`clock
      ensures KeepsLatch(old(latch.deferDepth), old(latch.pending))
      ensures old(host.clock) <= host.clock == now
    {
      var reply := host.replies(host.next);
      host.next := host.next + 1;
      host.clock := host.clock + reply.elapsed;
      if reply.during.Some? {
        latch.Capture(reply.during.value);
      }
      now := host.clock;
    }

    method Sleep(duration: nat)
      modifies latch`pending, host`next, host`clock
      ensures KeepsLatch(old(latch.deferDepth), old(latch.pending))
      ensures old(host.clock) + duration <= host.clock
    {
      var _ := Monotonic();
      host.clock := host.clock + duration;
    }

    /** One step of the hold: a sleep of at most a second, and the private readings. */
    method Recheck(st: ConnectionState, deadline: int) returns (r: Outcome<()>, ghost block: seq<Event>)
      modifies latch`pending, host
      ensures KeepsLatch(old(latch.deferDepth), old(latch.pending)) && old(host.clock) <= host.clock
      ensures old(host.clock) < deadline ==> old(host.clock) < host.clock
      ensures host.trace == old(host.trace) + block && Silent(block)
      ensures r.Done? ==> PrivateBlock(check, st, block)
      ensures r.Interrupted? ==> latch.Raises() == Some(r.signum)
    {
      block := [];
      var again := Monotonic();
      var remaining := if deadline <= again then 0 else deadline - again;
      Sleep(if remaining < NANOSECONDS then remaining else NANOSECONDS);
      if latch.Raises().Some? {
        return Interrupted(latch.Raises().value), block;
      }
      r, block := ValidatePrivateState(st);
    }

    /** Rechecks the validated state until the deadline has passed. */
    method HoldUntil(st: ConnectionState, deadline: int) returns (r: Outcome<()>, ghost rechecks: seq<Event>)
      modifies latch`pending, host
      ensures KeepsLatch(old(latch.deferDepth), old(latch.pending))
      ensures host.trace == old(host.trace) + rechecks && Silent(rechecks)
      ensures r.Done? ==> Rechecks(check, st, rechecks) && deadline <= host.clock
      ensures r.Interrupted? ==> latch.Raises() == Some(r.signum)
    {
      rechecks := [];
      var now := Monotonic();
      while now < deadline
        invariant KeepsLatch(old(latch.deferDepth), old(latch.pending)) && now == host.clock
        invariant host.trace == old(host.trace) + rechecks && Silent(rechecks) && Rechecks(check, st, rechecks)
        decreases deadline - now
      {
        ghost var block;
        r, block := Recheck(st, deadline);
        ReadingsAppend(check, st, old(host.trace), rechecks, block);
        rechecks := rechecks + block;
        if !r.Done? {
          return;
        }
        now := Monotonic();
      }
      r := Done(());
    }

    /** Holds the validated state for the given time. */
    method Hold(st: ConnectionState, holdSeconds: nat) returns (r: Outcome<()>, ghost rechecks: seq<Event>)
      modifies latch`pending, host
      ensures KeepsLatch(old(latch.deferDepth), old(latch.pending))
      ensures host.trace == old(host.trace) + rechecks && Silent(rechecks)
      ensures r.Done? ==> Rechecks(check, st, rechecks) && old(host.clock) + holdSeconds * NANOSECONDS <= host.clock
      ensures r.Interrupted? ==> latch.Raises() == Some(r.signum)
    {
      var start := Monotonic();
      r, rechecks := HoldUntil(st, start + holdSeconds * NANOSECONDS);
    }

    /** The cutover and the hold, in front of the rollback; the hold counts from the last ping on. */
    method Cutover(st: ConnectionState, holdSeconds: nat) returns (r: Outcome<()>, ghost block: seq<Event>)
      modifies latch`pending, host
      ensures KeepsLatch(old(latch.deferDepth), old(latch.pending))
      ensures host.trace == old(host.trace) + block && OnlyCutoverRequests(block, st)
      ensures r.Interrupted? ==> latch.Raises() == Some(r.signum)
      ensures r.Done? ==> ValidatedCutover(check, st, block) && block[8].at + holdSeconds * NANOSECONDS <= host.clock
    {
      var down, e0 := Change(Deactivate(st.wired));
      if !down.Done? {
        return down.Propagate(), e0;
      }
      var up, e1 := Change(Activate(st.target, Wifi));
      if !up.Done? {
        return up.Propagate(), e0 + e1;
      }
      ghost var readings, pings;
      r, readings, pings := ValidatePrivateRuntime(st);
      block := e0 + e1 + (readings + pings);
      if !r.Done? {
        return;
      }
      ghost var rechecks;
      r, rechecks := Hold(st, holdSeconds);
      CutoverShape(check, st, e0, e1, readings, pings, rechecks);
      block := block + rechecks;
    }

    /**
     The whole run.  `before` are the preflight readings, `block` the cutover and hold; what
     follows them in the trace is the rollback.
     */
    method Execute(holdSeconds: nat, interactive: bool, terminalReady: bool, gateOk: bool, interfacesOk: bool)
      returns (r: Outcome<()>, ghost armed: bool, ghost before: seq<Event>, ghost block: seq<Event>)
      requires latch.deferDepth == 0 && !rollbackStarted
      modifies this, latch, host
      ensures latch.deferDepth == 0
      ensures !armed ==> !r.Done? && Silent(before) && host.trace == old(host.trace) + before
                         && rollbackRuns == old(rollbackRuns) && rollbackStarted == old(rollbackStarted)
                         && rollbackArmed == old(rollbackArmed)
      ensures armed ==> rollbackRuns == old(rollbackRuns) + 1 && rollbackStarted && !rollbackArmed && state.Some?
      ensures armed ==> RunShape(old(host.trace), before, block, state.value)
      ensures r.Done? ==> ValidatedCutover(check, state.value, block)
                          && Held(host.trace, block[8], |old(host.trace) + before + block|, holdSeconds)
      ensures r.Done? || (r.Interrupted? && armed) ==> EndsWithSamples(FullyRestored, state.value, host.trace, STABLE_OBSERVATIONS)
      ensures r.Done? ==> latch.pending == None
      ensures armed ==> SafeEnding(state.value, host.trace)
      ensures r.Interrupted? ==> latch.pending == Some(r.signum)
    {
      armed, before, block := false, [], [];
      if interactive && !terminalReady {
        return Failed, armed, before, block;
      }
      var preflight;
      preflight, before := Preflight(gateOk, interfacesOk);
      if !preflight.Done? {
        return preflight, armed, before, block;
      }
      rollbackArmed := true;
      armed := true;
      var st := state.value;
      var primary;
      primary, block := Cutover(st, holdSeconds);
      ghost var ready := host.trace;
      var rollback := Rollback();
      JoinRun(old(host.trace), before, block, ready, host.trace, st);
      if rollback.Failed? {
        r := Failed;
      } else if !primary.Done? {
        r := primary;
      } else if latch.Raises().Some? {
        r := Interrupted(latch.Raises().value);
      } else {
        r := Done(());
      }
    }

    /** How an armed run looks from outside. */
    ghost predicate RunShape(start: seq<Event>, before: seq<Event>, block: seq<Event>, st: ConnectionState)
      reads host
    {
      var ready := start + before + block;
      && Silent(before) && OnlyCutoverRequests(block, st)
      && Extends(ready, host.trace) && OnlyRollbackRequests(host.trace, st, |ready|)
      && WiredOnlyWhenFree(host.trace, st, |start|)
      && NewestWifi(Changelog(host.trace)) == Some(st.campus)
    }

    /**
     The script's main for an execute mode: a signal that surfaces asks for the rollback again,
     which by then does nothing.  The exit code 0 means a validated cutover and a proven
     restoration, 128 + n that nothing was changed or all was restored, and 70 cannot occur.
     */
    method Supervise(holdSeconds: nat, interactive: bool, terminalReady: bool, gateOk: bool, interfacesOk: bool)
      returns (exitCode: int, ghost armed: bool, ghost before: seq<Event>, ghost block: seq<Event>)
      requires latch.deferDepth == 0 && !rollbackStarted && !rollbackArmed && latch.pending == None
      modifies this, latch, host
      ensures rollbackRuns == old(rollbackRuns) + if armed then 1 else 0
      ensures !armed ==> OnlyObserved(old(host.trace), host.trace)
      ensures armed ==> state.Some? && SafeEnding(state.value, host.trace)
                        && RunShape(old(host.trace), before, block, state.value)
      ensures exitCode == 0 ==>
                armed && ValidatedCutover(check, state.value, block)
                && Held(host.trace, block[8], |old(host.trace) + before + block|, holdSeconds)
                && EndsWithSamples(FullyRestored, state.value, host.trace, STABLE_OBSERVATIONS) && latch.pending == None
      ensures exitCode == 0 || exitCode == 1 || (latch.pending.Some? && exitCode == 128 + latch.pending.value)
      ensures exitCode != 0 && exitCode != 1 && armed ==>
                EndsWithSamples(FullyRestored, state.value, host.trace, STABLE_OBSERVATIONS)
    {
      var outcome;
      outcome, armed, before, block := Execute(holdSeconds, interactive, terminalReady, gateOk, interfacesOk);
      match outcome
      case Done(_) => exitCode := 0;
      case Failed => exitCode := 1;
      case Interrupted(signum) =>
        var again := Rollback();
        exitCode := if again.Failed? then 70 else 128 + signum;
    }
  }

  /** The workflow as the script builds it: one latch, one host, and the real isolation check. */
  method StartWorkflow(replies: nat -> Reply) returns (workflow: PrivateWifiRollback)
    ensures fresh(workflow) && fresh(workflow.latch) && fresh(workflow.host)
    ensures workflow.check == (view => RouteIsolation.IsolatedView(view))
    ensures workflow.host.replies == replies && workflow.host.trace == []
    ensures workflow.latch.deferDepth == 0 && workflow.latch.pending == None
    ensures workflow.rollbackRuns == 0 && !workflow.rollbackStarted && !workflow.rollbackArmed
  {
    var latch := new SignalLatch();
    var host := new Host(replies);
    workflow := new PrivateWifiRollback(latch, host, view => RouteIsolation.IsolatedView(view));
  }
}
