/**
 The temporary router Wi-Fi audit of scripts/nomotion_router_gateway_wifi_rollback.py.
 NetworkManager is an arbitrary oracle: commands fail or time out and may still take effect,
 profiles come and go between commands, and signals arrive at any command.  The ghost trace
 records every request with its reply.
 */
module RouterAudit {
  import RouteIsolation
  import opened HostCommands

  type Uuid = nat
  type Text = nat

  const ROLLBACK_ATTEMPTS: nat := 3
  const SAMPLE_LIMIT: nat := 12
  const STABLE_SAMPLES: nat := 4

  const RECHECK_INTERVAL: nat := 1_000_000_000
  const TARGET_HOSTS: seq<nat> := [
    RouteIsolation.V4(192, 168, 123, 1), RouteIsolation.V4(192, 168, 123, 18), RouteIsolation.V4(192, 168, 123, 161)]

  datatype Request =
    | Gate
    | ActiveUuid
    | CampusSsid(uuid: Uuid)
    | DefaultRoutes
    | Addresses
    | Dns
    | ListUuids
    | FindSource
    | SourceProfile(uuid: Uuid)
    | ProfileName(uuid: Uuid)
    | Persistence(uuid: Uuid)
    | SecretFlags(uuid: Uuid)
    | RouterState
    | Ping(host: nat)
    | Probe
    | Clone(source: Uuid, name: Text)
    | Modify(uuid: Uuid)
    | Up(uuid: Uuid)
    | Down(uuid: Uuid)
    | Delete(uuid: Uuid)

  /** A command succeeds, ends with an error code, or runs out of time. */
  datatype Ending = Success | ErrorCode | OutOfTime

  /** What came back; `fine` is the verdict on output that this model does not look into. */
  datatype Reply = Reply(
    ending: Ending, uuids: seq<Uuid>, uuid: Option<Uuid>, name: Text, text: Text, records: seq<AddressRecord>,
    fine: bool, before: Option<nat>, during: Option<nat>, elapsed: nat)

  /** A request with what came back, and the monotonic time at which it had ended. */
  datatype Event = Event(request: Request, reply: Reply, at: int)

  datatype Baseline = Baseline(
    campus: Uuid, source: Uuid, initial: set<Uuid>, addresses: seq<AddressRecord>, routes: Text, dns: Text)

  // ----- Reading a trace -----

  predicate Changes(r: Request) {
    r.Clone? || r.Modify? || r.Up? || r.Down? || r.Delete?
  }

  predicate Worked(e: Event) {
    e.reply.ending.Success?
  }

  /** The profile was read and carried the name that this run made up for its clone. */
  predicate Identified(trace: seq<Event>, uuid: Uuid, name: Text) {
    trace != [] && (
      var last := trace[|trace| - 1];
      (last.request == ProfileName(uuid) && Worked(last) && last.reply.name == name)
      || Identified(trace[..|trace| - 1], uuid, name))
  }

  /** The profile is none of those that existed before the audit, and it was seen under the audit's name. */
  predicate IsAuditProfile(trace: seq<Event>, uuid: Uuid, b: Baseline, name: Text) {
    uuid !in b.initial && Identified(trace, uuid, name)
  }

  /** The profiles were listed, and they were those of the preflight. */
  predicate ListsExactly(e: Event, initial: set<Uuid>) {
    e.request == ListUuids && Worked(e) && (set u | u in e.reply.uuids) == initial
  }

  predicate Allowed(trace: seq<Event>, r: Request, b: Baseline, name: Text) {
    match r
    case Clone(source, n) => source == b.source && n == name && trace != [] && ListsExactly(trace[|trace| - 1], b.initial)
    case Modify(uuid) => IsAuditProfile(trace, uuid, b, name)
    case Down(uuid) => IsAuditProfile(trace, uuid, b, name)
    case Delete(uuid) => IsAuditProfile(trace, uuid, b, name)
    case Up(uuid) => uuid == b.campus || IsAuditProfile(trace, uuid, b, name)
    case _ => true
  }

  predicate AllowedAt(trace: seq<Event>, k: nat, b: Baseline, name: Text)
    requires k < |trace|
  {
    Allowed(trace[..k], trace[k].request, b, name)
  }

  /** Every request of the run was allowed when it was made. */
  ghost predicate SafeTrace(trace: seq<Event>, b: Baseline, name: Text) {
    forall k: nat :: k < |trace| ==> AllowedAt(trace, k, b, name)
  }

  predicate Silent(trace: seq<Event>) {
    trace == [] || (!Changes(trace[|trace| - 1].request) && Silent(trace[..|trace| - 1]))
  }

  /** The profile most recently asked up on wlo1. */
  function NewestUp(trace: seq<Event>): Option<Uuid> {
    if trace == [] then None
    else if trace[|trace| - 1].request.Up? then Some(trace[|trace| - 1].request.uuid)
    else NewestUp(trace[..|trace| - 1])
  }

  // ----- Restoration samples -----

  /** The listed profiles that were not there before, each once. */
  function Newcomers(listed: seq<Uuid>, initial: set<Uuid>): (unseen: seq<Uuid>)
    ensures forall u :: u in unseen <==> u in listed && u !in initial
    ensures forall i, j :: 0 <= i < j < |unseen| ==> unseen[i] != unseen[j]
  {
    if listed == [] then []
    else
      var rest := Newcomers(listed[1..], initial);
      if listed[0] in initial || listed[0] in rest then rest else [listed[0]] + rest
  }

  /** The reads that look at the name of each newcomer. */
  predicate NameReads(block: seq<Event>, unseen: seq<Uuid>) {
    |block| == |unseen| && forall i :: 0 <= i < |unseen| ==> block[i].request == ProfileName(unseen[i]) && Worked(block[i])
  }

  predicate NoneNamed(block: seq<Event>, name: Text) {
    forall i :: 0 <= i < |block| ==> block[i].reply.name != name
  }

  /** wlo1 is back on the campus profile with its addresses, and nobody holds the host address. */
  predicate CampusLink(block: seq<Event>, b: Baseline) {
    && |block| == 3
    && block[0].request == ActiveUuid && Worked(block[0]) && block[0].reply.uuid == Some(b.campus)
    && block[1].request == Addresses && Worked(block[1]) && AddressesOn(block[1].reply.records, Wifi) == b.addresses
    && block[2].request == Addresses && Worked(block[2]) && Owners(block[2].reply.records) == []
  }

  predicate CampusRouting(block: seq<Event>, b: Baseline) {
    && |block| == 2
    && block[0].request == DefaultRoutes && Worked(block[0]) && block[0].reply.text == b.routes
    && block[1].request == Dns && Worked(block[1]) && block[1].reply.text == b.dns
  }

  /** No profile of this run is left: every newcomer was read and bears another name. */
  ghost predicate NoAuditLeft(block: seq<Event>, b: Baseline, name: Text) {
    && block != [] && block[0].request == ListUuids && Worked(block[0])
    && NameReads(block[1..], Newcomers(block[0].reply.uuids, b.initial))
    && NoneNamed(block[1..], name)
  }

  predicate SourceUntouched(block: seq<Event>, b: Baseline) {
    |block| == 1 && block[0].request == SourceProfile(b.source) && Worked(block[0]) && block[0].reply.fine
  }

  /** The parts of one sample that found everything as it was. */
  datatype Sample = Sample(link: seq<Event>, routing: seq<Event>, profiles: seq<Event>, source: seq<Event>) {
    ghost predicate Restored(b: Baseline, name: Text) {
      CampusLink(link, b) && CampusRouting(routing, b) && NoAuditLeft(profiles, b, name) && SourceUntouched(source, b)
    }

    function Events(): seq<Event> {
      link + routing + profiles + source
    }
  }

  /** The trace ends with these samples back to back, each of which found everything as it was. */
  ghost predicate EndsRestored(trace: seq<Event>, samples: seq<Sample>, b: Baseline, name: Text)
    decreases |samples|
  {
    samples != [] ==>
      var last := samples[|samples| - 1];
      var k := |last.Events()|;
      && last.Restored(b, name)
      && k <= |trace| && trace[|trace| - k..] == last.Events()
      && EndsRestored(trace[..|trace| - k], samples[..|samples| - 1], b, name)
  }

  lemma SplitBehind(a: seq<Event>, b: seq<Event>)
    ensures (a + b)[|a + b| - |b|..] == b && (a + b)[..|a + b| - |b|] == a
  {
  }

  lemma {:induction false} AnotherSample(trace: seq<Event>, samples: seq<Sample>, s: Sample, b: Baseline, name: Text)
    requires EndsRestored(trace, samples, b, name) && s.Restored(b, name)
    ensures EndsRestored(trace + s.Events(), samples + [s], b, name)
  {
    var events, longer := s.Events(), samples + [s];
    SplitBehind(trace, events);
    assert longer[..|longer| - 1] == samples && longer[|longer| - 1] == s;
  }

  // ----- The snapshot -----

  predicate SnapshotsIdentity(block: seq<Event>, campus: Uuid) {
    && |block| == 3 && Worked(block[0]) && Worked(block[1]) && Worked(block[2])
    && block[0].request == Gate && block[0].reply.fine
    && block[1].request == ActiveUuid && block[1].reply.uuid == Some(campus)
    && block[2].request == CampusSsid(campus) && block[2].reply.fine
  }

  predicate SnapshotsLink(block: seq<Event>, b: Baseline) {
    && |block| == 3 && Worked(block[0]) && Worked(block[1]) && Worked(block[2])
    && block[0].request == DefaultRoutes && block[0].reply.fine && block[0].reply.text == b.routes
    && block[1].request == Addresses && AddressesOn(block[1].reply.records, Wifi) == b.addresses != []
    && block[2].request == Dns && block[2].reply.fine && block[2].reply.text == b.dns
  }

  predicate SnapshotsProfiles(block: seq<Event>, b: Baseline) {
    && |block| == 2 && Worked(block[0]) && Worked(block[1])
    && block[0].request == ListUuids && b.initial == (set u | u in block[0].reply.uuids)
    && block[1].request == FindSource && block[1].reply.uuid == Some(b.source) && b.source != b.campus
  }

  predicate SnapshotsSource(block: seq<Event>, b: Baseline) {
    && |block| == 2 && Worked(block[0]) && Worked(block[1])
    && block[0].request == SourceProfile(b.source) && block[0].reply.fine
    && block[1].request == Addresses && Owners(block[1].reply.records) == []
  }

  /** The reads that a snapshot was taken from. */
  datatype Snapshot = Snapshot(identity: seq<Event>, link: seq<Event>, profiles: seq<Event>, source: seq<Event>) {
    predicate Shows(b: Baseline) {
      SnapshotsIdentity(identity, b.campus) && SnapshotsLink(link, b) && SnapshotsProfiles(profiles, b) && SnapshotsSource(source, b)
    }

    function Events(): seq<Event> {
      identity + link + profiles + source
    }
  }

  // ----- The proof of the router link -----

  predicate ProvenOwner(block: seq<Event>, audit: Uuid) {
    && |block| == 2 && Worked(block[0]) && Worked(block[1])
    && block[0].request == ActiveUuid && block[0].reply.uuid == Some(audit)
    && block[1].request == Addresses && Owners(block[1].reply.records) == [AddressRecord(Wifi, HOST_IP, 24)]
  }

  predicate ProvenRouter(block: seq<Event>) {
    && |block| == 2 && Worked(block[0]) && Worked(block[1])
    && block[0].request == Addresses && AddressesOn(block[0].reply.records, Wired) == []
    && block[1].request == RouterState && block[1].reply.fine
  }

  /** The four readings: the clone is active, wlo1 alone owns the host address, the wire is bare, the router is used. */
  predicate RuntimeProven(block: seq<Event>, audit: Uuid) {
    |block| == 4 && ProvenOwner(block[..2], audit) && ProvenRouter(block[2..])
  }

  predicate Unanswered(block: seq<Event>, host: nat) {
    forall i :: 0 <= i < |block| ==> block[i].request == Ping(host) && !Worked(block[i])
  }

  /** Warm-up pings of which the last one, and only this, was answered. */
  predicate Warmed(block: seq<Event>, host: nat) {
    && 1 <= |block| <= 3 && Unanswered(block[..|block| - 1], host)
    && block[|block| - 1].request == Ping(host) && Worked(block[|block| - 1])
  }

  lemma OneMorePing(block: seq<Event>, one: seq<Event>, host: nat)
    requires |block| < 3 && Unanswered(block, host) && |one| == 1 && one[0].request == Ping(host)
    ensures if Worked(one[0]) then Warmed(block + one, host) else Unanswered(block + one, host)
  {
    assert (block + one)[..|block + one| - 1] == block;
  }

  predicate HostAnswers(block: seq<Event>, host: nat) {
    && block != [] && Warmed(block[..|block| - 1], host)
    && block[|block| - 1].request == Ping(host) && Worked(block[|block| - 1]) && block[|block| - 1].reply.fine
  }

  predicate Probed(e: Event) {
    e.request == Probe && Worked(e) && e.reply.fine
  }

  function Joined(blocks: seq<seq<Event>>): seq<Event> {
    if blocks == [] then [] else Joined(blocks[..|blocks| - 1]) + blocks[|blocks| - 1]
  }

  lemma JoinedSnoc(base: seq<Event>, blocks: seq<seq<Event>>, block: seq<Event>)
    ensures base + Joined(blocks) + block == base + Joined(blocks + [block])
  {
    assert (blocks + [block])[..|blocks|] == blocks;
  }

  /** The readings of one complete reachability check. */
  datatype Reach = Reach(runtime: seq<Event>, hosts: seq<seq<Event>>, probe: seq<Event>) {
    predicate Shows(audit: Uuid) {
      && RuntimeProven(runtime, audit)
      && HostsAnswer(hosts, |TARGET_HOSTS|)
      && |probe| == 1 && Probed(probe[0])
    }

    function Events(): seq<Event> {
      runtime + Joined(hosts) + probe
    }
  }

  /** The first n target hosts answered, in their order. */
  predicate HostsAnswer(hosts: seq<seq<Event>>, n: nat)
    requires n <= |TARGET_HOSTS|
  {
    |hosts| == n && forall i :: 0 <= i < n ==> HostAnswers(hosts[i], TARGET_HOSTS[i])
  }

  predicate AllProven(rechecks: seq<seq<Event>>, audit: Uuid) {
    forall i :: 0 <= i < |rechecks| ==> RuntimeProven(rechecks[i], audit)
  }

  /** What an audit that succeeded has seen after the clone came up: a check, the rechecks of the hold, and a check. */
  datatype Proof = Proof(audit: Uuid, setup: seq<Event>, first: Reach, rechecks: seq<seq<Event>>, last: Reach) {
    predicate Shows(holdTime: nat) {
      && first.Shows(audit) && AllProven(rechecks, audit) && last.Shows(audit)
      && first.probe[0].at + holdTime <= last.runtime[0].at
    }

    function Events(): seq<Event> {
      setup + first.Events() + Joined(rechecks) + last.Events()
    }
  }

  // ----- Lemmas about traces -----

  lemma {:induction false} IdentifiedStays(trace: seq<Event>, more: seq<Event>, uuid: Uuid, name: Text)
    requires Identified(trace, uuid, name)
    ensures Identified(trace + more, uuid, name)
    decreases |more|
  {
    if more == [] {
      assert trace + more == trace;
    } else {
      var init := more[..|more| - 1];
      assert (trace + more)[..|trace + more| - 1] == trace + init;
      IdentifiedStays(trace, init, uuid, name);
    }
  }

  /**
   No request modifies, takes down or deletes a profile that was there before the audit, and of
   those profiles only the campus one is ever asked up.
   */
  ghost predicate Untouched(trace: seq<Event>, b: Baseline) {
    forall k: nat :: k < |trace| ==> Spares(trace[k].request, b)
  }

  predicate Spares(r: Request, b: Baseline) {
    match r
    case Modify(uuid) => uuid !in b.initial
    case Down(uuid) => uuid !in b.initial
    case Delete(uuid) => uuid !in b.initial
    case Up(uuid) => uuid in b.initial ==> uuid == b.campus
    case _ => true
  }

  lemma {:induction false} PreexistingUntouched(trace: seq<Event>, b: Baseline, name: Text)
    requires SafeTrace(trace, b, name)
    ensures Untouched(trace, b)
  {
    forall k: nat | k < |trace| ensures Spares(trace[k].request, b) {
      assert AllowedAt(trace, k, b, name);
    }
  }

  lemma {:induction false} SilentAt(trace: seq<Event>, k: nat)
    requires Silent(trace) && k < |trace|
    ensures !Changes(trace[k].request)
  {
    if k < |trace| - 1 {
      SilentAt(trace[..|trace| - 1], k);
    }
  }

  lemma {:induction false} SilentIsSafe(trace: seq<Event>, b: Baseline, name: Text)
    requires Silent(trace)
    ensures SafeTrace(trace, b, name)
  {
    forall k: nat | k < |trace| ensures AllowedAt(trace, k, b, name) {
      SilentAt(trace, k);
    }
  }

  lemma SafeSnoc(trace: seq<Event>, e: Event, b: Baseline, name: Text)
    requires SafeTrace(trace, b, name) && Allowed(trace, e.request, b, name)
    ensures SafeTrace(trace + [e], b, name)
  {
    var longer := trace + [e];
    forall k: nat | k < |longer| ensures AllowedAt(longer, k, b, name) {
      if k < |trace| {
        assert AllowedAt(trace, k, b, name);
        assert longer[..k] == trace[..k];
      } else {
        assert longer[..k] == trace;
      }
    }
  }

  lemma {:induction false} SilentAppends(a: seq<Event>, b: seq<Event>)
    requires Silent(a) && Silent(b)
    ensures Silent(a + b)
    decreases |b|
  {
    if b == [] {
      assert a + b == a;
    } else {
      assert (a + b)[..|a + b| - 1] == a + b[..|b| - 1];
      SilentAppends(a, b[..|b| - 1]);
    }
  }

  lemma JoinLooks(base: seq<Event>, a: seq<Event>, b: seq<Event>)
    requires Silent(a) && Silent(b)
    ensures Silent(a + b) && base + a + b == base + (a + b)
  {
    SilentAppends(a, b);
  }

  lemma JoinThree(base: seq<Event>, a: seq<Event>, b: seq<Event>, c: seq<Event>)
    ensures base + a + b + c == base + (a + b + c)
  {
  }

  lemma JoinFour(base: seq<Event>, a: seq<Event>, b: seq<Event>, c: seq<Event>, d: seq<Event>)
    ensures base + a + b + c + d == base + (a + b + c + d)
  {
  }

  ghost predicate AllIdentified(trace: seq<Event>, uuids: seq<Uuid>, name: Text) {
    forall u {:trigger Identified(trace, u, name)} {:trigger u in uuids} :: u in uuids ==> Identified(trace, u, name)
  }

  lemma AllIdentifiedStay(trace: seq<Event>, more: seq<Event>, uuids: seq<Uuid>, name: Text)
    requires AllIdentified(trace, uuids, name)
    ensures AllIdentified(trace + more, uuids, name)
  {
    forall u | u in uuids ensures Identified(trace + more, u, name) {
      IdentifiedStays(trace, more, u, name);
    }
  }

  /** The names of the first n newcomers were read, and these are the ones that match. */
  ghost predicate NamesSoFar(trace: seq<Event>, block: seq<Event>, unseen: seq<Uuid>, n: nat, matches: seq<Uuid>, name: Text)
    requires n <= |unseen|
  {
    && NameReads(block, unseen[..n]) && AllIdentified(trace, matches, name)
    && (forall u :: u in matches ==> u in unseen)
    && (matches == [] ==> NoneNamed(block, name))
  }

  lemma OneMoreRead(block: seq<Event>, one: seq<Event>, unseen: seq<Uuid>, i: nat, name: Text)
    requires i < |unseen| && NameReads(block, unseen[..i])
    requires |one| == 1 && one[0].request == ProfileName(unseen[i]) && Worked(one[0])
    ensures NameReads(block + one, unseen[..i + 1])
    ensures NoneNamed(block, name) && one[0].reply.name != name ==> NoneNamed(block + one, name)
  {
  }

  /**
   The end of an armed run, whatever happened in it: only allowed requests were made, the campus
   profile was the last one asked up, and unless the rollback is still due, four samples in a row
   found everything restored.
   */
  ghost predicate Settled(trace: seq<Event>, baseline: Option<Baseline>, name: Text, due: bool, row: seq<Sample>) {
    && baseline.Some? && SafeTrace(trace, baseline.value, name) && Untouched(trace, baseline.value)
    && NewestUp(trace) == Some(baseline.value.campus)
    && (!due ==> |row| == STABLE_SAMPLES && EndsRestored(trace, row, baseline.value, name))
  }

  // ----- The workflow -----

  class RouterGatewayAudit {
    const latch: SignalLatch
    const replies: nat -> Reply
    /** The made-up name of the clone. */
    const name: Text

    var next: nat
    var clock: int
    var baseline: Option<Baseline>
    var auditUuid: Option<Uuid>
    var named: bool
    var rollbackArmed: bool
    ghost var trace: seq<Event>
    ghost var rollbackRuns: nat

    constructor (latch: SignalLatch, replies: nat -> Reply, name: Text)
      ensures this.latch == latch && Valid() && trace == [] && baseline == None && !named && !rollbackArmed && rollbackRuns == 0
    {
      this.latch, this.replies, this.name := latch, replies, name;
      next, clock, baseline, auditUuid, named, rollbackArmed, trace, rollbackRuns := 0, 0, None, None, false, false, [], 0;
    }

    ghost predicate Valid() reads this {
      && (baseline.None? ==> Silent(trace) && auditUuid.None?)
      && (baseline.Some? ==> SafeTrace(trace, baseline.value, name))
      && (auditUuid.Some? ==> IsAuditProfile(trace, auditUuid.value, baseline.value, name))
    }

    ghost predicate May(request: Request) reads this {
      !Changes(request) || (baseline.Some? && Allowed(trace, request, baseline.value, name))
    }

    ghost method Record(e: Event)
      requires Valid() && May(e.request)
      modifies this`trace
      ensures Valid() && trace == old(trace) + [e]
      ensures NewestUp(trace) == if e.request.Up? then Some(e.request.uuid) else NewestUp(old(trace))
    {
      if baseline.Some? { SafeSnoc(trace, e, baseline.value, name); }
      trace := trace + [e];
      assert trace[..|trace| - 1] == old(trace);
      if auditUuid.Some? {
        IdentifiedStays(old(trace), [e], auditUuid.value, name);
      }
    }

    /** One command: a signal surfaces before it or after it, a timeout is reported as a failure first. */
    method Run(request: Request) returns (r: Outcome<Reply>, ghost added: seq<Event>)
      requires Valid() && May(request)
      modifies this`next, this`clock, this`trace, latch`pending
      ensures Valid() && trace == old(trace) + added
      ensures added == [] || (|added| == 1 && added[0].request == request)
      ensures r.Done? ==> added == [Event(request, r.value, clock)] && r.value.ending.Success? && latch.Raises() == None
      ensures r.Failed? ==> |added| == 1 && !Worked(added[0])
      ensures latch.deferDepth > 0 ==> !r.Interrupted? && added != []
      ensures r.Interrupted? ==> latch.Raises() == Some(r.signum)
      ensures old(latch.pending).Some? ==> latch.pending == old(latch.pending)
      ensures NewestUp(trace) == if request.Up? && added != [] then Some(request.uuid) else NewestUp(old(trace))
      ensures old(clock) <= clock
    {
      var reply := replies(next);
      next, added := next + 1, [];
      var surfaced := Arrive(reply.before);
      if surfaced.Some? {
        assert old(trace) + [] == old(trace);
        return Interrupted(surfaced.value), added;
      }
      clock := clock + reply.elapsed;
      added := [Event(request, reply, clock)];
      Record(Event(request, reply, clock));
      surfaced := Arrive(reply.during);
      r := if reply.ending.OutOfTime? then Failed
           else if surfaced.Some? then Interrupted(surfaced.value)
           else if reply.ending.Success? then Done(reply) else Failed;
    }

    /** A signal may arrive; the latched one surfaces unless that is deferred. */
    method Arrive(signal: Option<nat>) returns (surfaced: Option<nat>)
      modifies latch`pending
      ensures surfaced == latch.Raises() && (latch.deferDepth > 0 ==> surfaced.None?)
      ensures old(latch.pending).Some? ==> latch.pending == old(latch.pending)
    {
      if signal.Some? { latch.Capture(signal.value); }
      surfaced := latch.Raises();
    }

    /** A command that only reads. */
    method Read(request: Request) returns (r: Outcome<Reply>, ghost added: seq<Event>)
      requires Valid() && !Changes(request)
      modifies this`next, this`clock, this`trace, latch`pending
      ensures Valid() && trace == old(trace) + added && Silent(added) && |added| <= 1
      ensures r.Done? ==> added == [Event(request, r.value, clock)] && r.value.ending.Success?
      ensures latch.deferDepth > 0 ==> !r.Interrupted?
      ensures r.Interrupted? ==> latch.Raises() == Some(r.signum)
      ensures old(latch.pending).Some? ==> latch.pending == old(latch.pending)
      ensures NewestUp(trace) == NewestUp(old(trace))
      ensures old(clock) <= clock
    {
      r, added := Run(request);
    }

    // ----- Finding the audit profile -----

    /** Reads the name of one profile behind those already read. */
    method ReadName(uuid: Uuid, ghost matches: seq<Uuid>) returns (r: Outcome<bool>, ghost one: seq<Event>)
      requires Valid() && AllIdentified(trace, matches, name)
      modifies this`next, this`clock, this`trace, latch`pending
      ensures Valid() && trace == old(trace) + one && Silent(one)
      ensures r.Done? ==> |one| == 1 && one[0].request == ProfileName(uuid) && Worked(one[0])
      ensures r.Done? ==> (r.value <==> one[0].reply.name == name) && (r.value ==> Identified(trace, uuid, name))
      ensures AllIdentified(trace, matches, name)
      ensures latch.deferDepth > 0 ==> !r.Interrupted?
      ensures r.Interrupted? ==> latch.Raises() == Some(r.signum)
      ensures old(latch.pending).Some? ==> latch.pending == old(latch.pending)
      ensures old(clock) <= clock
      ensures NewestUp(trace) == NewestUp(old(trace))
    {
      var reply;
      reply, one := Read(ProfileName(uuid));
      AllIdentifiedStay(old(trace), one, matches, name);
      if !reply.Done? { return reply.Propagate(), one; }
      assert trace[|trace| - 1] == one[0];
      r := Done(reply.value.name == name);
    }

    /** The i-th name behind those already read. */
    method ReadNext(unseen: seq<Uuid>, i: nat, matches: seq<Uuid>, ghost base: seq<Event>, ghost prefix: seq<Event>)
      returns (r: Outcome<seq<Uuid>>, ghost added: seq<Event>)
      requires Valid() && i < |unseen| && trace == base + prefix && Silent(prefix)
      requires NamesSoFar(trace, prefix, unseen, i, matches, name)
      modifies this`next, this`clock, this`trace, latch`pending
      ensures Valid() && trace == base + added && Silent(added)
      ensures r.Done? ==> NamesSoFar(trace, added, unseen, i + 1, r.value, name)
      ensures latch.deferDepth > 0 ==> !r.Interrupted?
      ensures r.Interrupted? ==> latch.Raises() == Some(r.signum)
      ensures old(latch.pending).Some? ==> latch.pending == old(latch.pending)
      ensures NewestUp(trace) == NewestUp(old(trace))
      ensures old(clock) <= clock
    {
      var bears; ghost var one;
      bears, one := ReadName(unseen[i], matches);
      JoinLooks(base, prefix, one);
      added := prefix + one;
      if !bears.Done? { return bears.Propagate(), added; }
      OneMoreRead(prefix, one, unseen, i, name);
      r := Done(if bears.value then matches + [unseen[i]] else matches);
    }

    method ReadNames(unseen: seq<Uuid>) returns (r: Outcome<seq<Uuid>>, ghost added: seq<Event>)
      requires Valid()
      modifies this`next, this`clock, this`trace, latch`pending
      ensures Valid() && trace == old(trace) + added && Silent(added)
      ensures r.Done? ==> NamesSoFar(trace, added, unseen, |unseen|, r.value, name)
      ensures latch.deferDepth > 0 ==> !r.Interrupted?
      ensures r.Interrupted? ==> latch.Raises() == Some(r.signum)
      ensures old(latch.pending).Some? ==> latch.pending == old(latch.pending)
      ensures NewestUp(trace) == NewestUp(old(trace))
      ensures old(clock) <= clock
    {
      added, r := [], Done([]);
      for i := 0 to |unseen|
        invariant Valid() && trace == old(trace) + added && Silent(added) && r.Done?
        invariant NamesSoFar(trace, added, unseen, i, r.value, name)
        invariant old(latch.pending).Some? ==> latch.pending == old(latch.pending)
        invariant NewestUp(trace) == NewestUp(old(trace))
        invariant old(clock) <= clock
      {
        r, added := ReadNext(unseen, i, r.value, old(trace), added);
        if !r.Done? { return; }
      }
    }

    /** The newcomers that bear the audit's name. */
    method Named() returns (r: Outcome<seq<Uuid>>, ghost added: seq<Event>)
      requires Valid() && baseline.Some?
      modifies this`next, this`clock, this`trace, latch`pending
      ensures Valid() && trace == old(trace) + added && Silent(added)
      ensures r.Done? ==> forall u :: u in r.value ==> IsAuditProfile(trace, u, baseline.value, name)
      ensures r.Done? && r.value == [] ==> NoAuditLeft(added, baseline.value, name)
      ensures latch.deferDepth > 0 ==> !r.Interrupted?
      ensures r.Interrupted? ==> latch.Raises() == Some(r.signum)
      ensures old(latch.pending).Some? ==> latch.pending == old(latch.pending)
      ensures old(clock) <= clock
      ensures NewestUp(trace) == NewestUp(old(trace))
    {
      var listed;
      listed, added := Read(ListUuids);
      if !listed.Done? { return listed.Propagate(), added; }
      ghost var names;
      var newcomers := Newcomers(listed.value.uuids, baseline.value.initial);
      r, names := ReadNames(newcomers);
      assert newcomers[..|newcomers|] == newcomers;
      JoinLooks(old(trace), added, names);
      assert (added + names)[1..] == names;
      added := added + names;
    }

    /** What every part keeps: validity, the trace so far, and the signal that was latched first. */
    twostate predicate Kept()
      reads this, latch
    {
      && Valid() && old(trace) <= trace && old(clock) <= clock
      && (old(latch.pending).Some? ==> latch.pending == old(latch.pending))
    }

    /** What the parts of the audit keep; a signal may surface in any of them. */
    twostate predicate Auditing(interrupted: Option<nat>)
      reads this, latch
    {
      && Kept() && (interrupted.Some? ==> latch.Raises() == interrupted)
    }

    function Surfaced<T>(r: Outcome<T>): Option<nat> {
      if r.Interrupted? then Some(r.signum) else None
    }

    // ----- Restoration -----

    /** What every reading part of the rollback keeps; there, signals never surface. */
    twostate predicate Looked(added: seq<Event>)
      reads this, latch
    {
      && Valid() && trace == old(trace) + added && Silent(added) && old(clock) <= clock
      && (old(latch.pending).Some? ==> latch.pending == old(latch.pending))
      && NewestUp(trace) == NewestUp(old(trace))
    }

    /** A read behind others; `added` collects what all of them added to the base. */
    method ReadMore(request: Request, ghost base: seq<Event>, ghost prefix: seq<Event>) returns (r: Outcome<Reply>, ghost added: seq<Event>)
      requires Valid() && !Changes(request)
      requires trace == base + prefix && Silent(prefix)
      modifies this`next, this`clock, this`trace, latch`pending
      ensures Valid() && trace == base + added && Silent(added)
      ensures latch.deferDepth > 0 ==> !r.Interrupted?
      ensures r.Interrupted? ==> latch.Raises() == Some(r.signum)
      ensures r.Done? ==> added == prefix + [Event(request, r.value, clock)] && r.value.ending.Success?
      ensures old(latch.pending).Some? ==> latch.pending == old(latch.pending)
      ensures old(clock) <= clock
      ensures NewestUp(trace) == NewestUp(old(trace))
    {
      ghost var one;
      r, one := Read(request);
      JoinLooks(base, prefix, one);
      added := prefix + one;
    }

    method ReadLink() returns (r: Outcome<bool>, ghost added: seq<Event>)
      requires Valid() && baseline.Some? && latch.deferDepth > 0
      modifies this`next, this`clock, this`trace, latch`pending
      ensures Looked(added) && !r.Interrupted?
      ensures r == Done(true) ==> CampusLink(added, baseline.value)
    {
      var active;
      active, added := Read(ActiveUuid);
      if !active.Done? || active.value.uuid.None? { return Failed, added; }
      if active.value.uuid != Some(baseline.value.campus) { return Done(false), added; }
      var listing;
      listing, added := ReadMore(Addresses, old(trace), added);
      if !listing.Done? { return Failed, added; }
      if AddressesOn(listing.value.records, Wifi) != baseline.value.addresses { return Done(false), added; }
      listing, added := ReadMore(Addresses, old(trace), added);
      r := if listing.Done? then Done(Owners(listing.value.records) == []) else Failed;
    }

    method ReadRouting() returns (r: Outcome<bool>, ghost added: seq<Event>)
      requires Valid() && baseline.Some? && latch.deferDepth > 0
      modifies this`next, this`clock, this`trace, latch`pending
      ensures Looked(added) && !r.Interrupted?
      ensures r == Done(true) ==> CampusRouting(added, baseline.value)
    {
      var reply;
      reply, added := Read(DefaultRoutes);
      if !reply.Done? { return Failed, added; }
      if reply.value.text != baseline.value.routes { return Done(false), added; }
      reply, added := ReadMore(Dns, old(trace), added);
      r := if reply.Done? then Done(reply.value.text == baseline.value.dns) else Failed;
    }

    method ReadProfiles() returns (r: Outcome<bool>, ghost added: seq<Event>)
      requires Valid() && baseline.Some? && named && latch.deferDepth > 0
      modifies this`next, this`clock, this`trace, latch`pending
      ensures Looked(added) && !r.Interrupted?
      ensures r == Done(true) ==> NoAuditLeft(added, baseline.value, name)
    {
      var left;
      left, added := Named();
      r := if left.Done? then Done(left.value == []) else Failed;
    }

    method ReadSource() returns (r: Outcome<bool>, ghost added: seq<Event>)
      requires Valid() && baseline.Some? && latch.deferDepth > 0
      modifies this`next, this`clock, this`trace, latch`pending
      ensures Looked(added) && !r.Interrupted?
      ensures r == Done(true) ==> SourceUntouched(added, baseline.value)
    {
      var reply;
      reply, added := Read(SourceProfile(baseline.value.source));
      r := if reply.Done? && reply.value.fine then Done(true) else Failed;
    }

    method CampusRestoredSample() returns (r: Outcome<bool>, ghost added: seq<Event>, ghost sample: Sample)
      requires Valid() && baseline.Some? && named && latch.deferDepth > 0
      modifies this`next, this`clock, this`trace, latch`pending
      ensures Looked(added) && !r.Interrupted?
      ensures r == Done(true) ==> sample.Restored(baseline.value, name) && sample.Events() == added
    {
      ghost var link, routing, profiles, source;
      sample := Sample([], [], [], []);
      r, link := ReadLink();
      added := link;
      if r != Done(true) { return; }
      r, routing := ReadRouting();
      JoinLooks(old(trace), added, routing);
      added := added + routing;
      if r != Done(true) { return; }
      r, profiles := ReadProfiles();
      JoinLooks(old(trace), added, profiles);
      added := added + profiles;
      if r != Done(true) { return; }
      r, source := ReadSource();
      JoinLooks(old(trace), added, source);
      added := added + source;
      if r == Done(true) {
        sample := Sample(link, routing, profiles, source);
      }
    }

    /** A further sample; one that is not good ends the row of good ones. */
    method SampleMore(ghost base: seq<Event>, ghost prefix: seq<Event>, ghost row: seq<Sample>)
      returns (valid: bool, ghost added: seq<Event>, ghost row': seq<Sample>)
      requires Valid() && baseline.Some? && named && latch.deferDepth > 0
      requires trace == base + prefix && Silent(prefix)
      requires EndsRestored(trace, row, baseline.value, name)
      modifies this`next, this`clock, this`trace, latch`pending
      ensures Valid() && trace == base + added && Silent(added)
      ensures EndsRestored(trace, row', baseline.value, name) && |row'| == if valid then |row| + 1 else 0
      ensures old(latch.pending).Some? ==> latch.pending == old(latch.pending)
      ensures old(clock) <= clock
      ensures NewestUp(trace) == NewestUp(old(trace))
    {
      var outcome; ghost var one, sample;
      outcome, one, sample := CampusRestoredSample();
      JoinLooks(base, prefix, one);
      added, valid, row' := prefix + one, outcome == Done(true), [];
      if valid {
        AnotherSample(old(trace), row, sample, baseline.value, name);
        row' := row + [sample];
      }
    }

    method WaitForCampusStability() returns (stable: bool, ghost added: seq<Event>, ghost row: seq<Sample>)
      requires Valid() && baseline.Some? && named && latch.deferDepth > 0
      modifies this`next, this`clock, this`trace, latch`pending
      ensures Looked(added)
      ensures stable ==> |row| == STABLE_SAMPLES && EndsRestored(trace, row, baseline.value, name)
    {
      var consecutive := 0;
      added, row := [], [];
      for index := 0 to SAMPLE_LIMIT
        invariant Looked(added) && consecutive == |row| < STABLE_SAMPLES
        invariant EndsRestored(trace, row, baseline.value, name)
      {
        var valid;
        valid, added, row := SampleMore(old(trace), added, row);
        consecutive := if valid then consecutive + 1 else 0;
        if consecutive >= STABLE_SAMPLES { return true, added, row; }
      }
      stable := false;
    }

    // ----- Rollback -----

    method ActivateCampus() returns (r: Outcome<()>)
      requires Valid() && baseline.Some? && latch.deferDepth > 0
      modifies this`next, this`clock, this`trace, latch`pending
      ensures Kept() && !r.Interrupted? && NewestUp(trace) == Some(baseline.value.campus)
    {
      var reply; ghost var added;
      reply, added := Run(Up(baseline.value.campus));
      r := if reply.Done? then Done(()) else Failed;
    }

    /** The clone of this run: the recorded one while it is listed, else the only newcomer of its name. */
    method RecoverAuditUuid() returns (r: Outcome<Option<Uuid>>, ghost added: seq<Event>)
      requires Valid() && baseline.Some? && latch.deferDepth > 0
      modifies this`next, this`clock, this`trace, this`auditUuid, latch`pending
      ensures Kept() && !r.Interrupted? && NewestUp(trace) == NewestUp(old(trace))
      ensures r.Done? && named ==> auditUuid == r.value
      ensures r == Done(None) && named ==> trace == old(trace) + added && NoAuditLeft(added, baseline.value, name)
    {
      added := [];
      if !named { return Done(None), added; }
      var listed;
      listed, added := Read(ListUuids);
      if !listed.Done? { return Failed, added; }
      if auditUuid.Some? {
        if auditUuid.value in listed.value.uuids { return Done(auditUuid), added; }
        auditUuid := None;
      }
      r, added := SearchClone(listed.value.uuids, old(trace), added);
    }

    /** Looks for the clone among the profiles just listed. */
    method SearchClone(listed: seq<Uuid>, ghost base: seq<Event>, ghost prefix: seq<Event>)
      returns (r: Outcome<Option<Uuid>>, ghost added: seq<Event>)
      requires Valid() && baseline.Some? && auditUuid.None? && latch.deferDepth > 0
      requires trace == base + prefix && Silent(prefix) && |prefix| == 1
      requires prefix[0].request == ListUuids && Worked(prefix[0]) && prefix[0].reply.uuids == listed
      modifies this`next, this`clock, this`trace, this`auditUuid, latch`pending
      ensures Kept() && !r.Interrupted? && NewestUp(trace) == NewestUp(old(trace))
      ensures r.Done? ==> auditUuid == r.value
      ensures r == Done(None) ==> trace == base + added && NoAuditLeft(added, baseline.value, name)
    {
      var newcomers := Newcomers(listed, baseline.value.initial);
      var matches; ghost var names;
      matches, names := ReadNames(newcomers);
      assert newcomers[..|newcomers|] == newcomers;
      JoinLooks(base, prefix, names);
      added := prefix + names;
      assert added[1..] == names;
      if !matches.Done? || |matches.value| > 1 { return Failed, added; }
      if matches.value != [] {
        assert matches.value[0] in matches.value;
        auditUuid := Some(matches.value[0]);
      }
      r := Done(auditUuid);
    }

    /** Takes the clone down while it is active. */
    method DeactivateAudit(uuid: Uuid)
      requires Valid() && baseline.Some? && auditUuid == Some(uuid) && latch.deferDepth > 0
      modifies this`next, this`clock, this`trace, latch`pending
      ensures Kept() && NewestUp(trace) == NewestUp(old(trace))
    {
      var active; ghost var added;
      active, added := Read(ActiveUuid);
      if active.Done? && active.value.uuid == Some(uuid) {
        var _, _ := Run(Down(uuid));
      }
    }

    /** Deletes the clone and looks whether it is gone. */
    method DeleteAudit(uuid: Uuid)
      requires Valid() && baseline.Some? && named && auditUuid == Some(uuid) && latch.deferDepth > 0
      modifies this`next, this`clock, this`trace, this`auditUuid, latch`pending
      ensures Kept() && NewestUp(trace) == NewestUp(old(trace))
    {
      var deleted; ghost var added;
      deleted, added := Run(Delete(uuid));
      if !deleted.Done? { return; }
      var gone := IsGone(uuid);
      if gone {
        auditUuid := None;
      }
    }

    method IsGone(uuid: Uuid) returns (gone: bool)
      requires Valid() && baseline.Some? && latch.deferDepth > 0
      modifies this`next, this`clock, this`trace, latch`pending
      ensures Kept() && NewestUp(trace) == NewestUp(old(trace))
    {
      var listed; ghost var added;
      listed, added := Read(ListUuids);
      if !listed.Done? || uuid in listed.value.uuids { return false; }
      var left;
      left, added := Named();
      gone := left.Done? && left.value == [];
    }

    method RollbackRound() returns (restored: bool, ghost row: seq<Sample>)
      requires Valid() && baseline.Some? && named && latch.deferDepth > 0
      modifies this`next, this`clock, this`trace, this`auditUuid, latch`pending
      ensures Kept() && NewestUp(trace) == Some(baseline.value.campus)
      ensures restored ==> |row| == STABLE_SAMPLES && EndsRestored(trace, row, baseline.value, name)
    {
      row := [];
      var activated := ActivateCampus();
      var recovered; ghost var found;
      recovered, found := RecoverAuditUuid();
      if recovered.Done? && recovered.value.Some? {
        DeactivateAudit(recovered.value.value);
        activated := ActivateCampus();
        DeleteAudit(recovered.value.value);
      }
      activated := ActivateCampus();
      if !activated.Done? { return false, row; }
      ghost var added;
      restored, added, row := WaitForCampusStability();
    }

    /** At most three rounds, until one of them ends in a proven restoration. */
    method RollbackRounds() returns (restored: bool, ghost row: seq<Sample>)
      requires Valid() && baseline.Some? && named && latch.deferDepth > 0
      modifies this`next, this`clock, this`trace, this`auditUuid, latch`pending
      ensures Kept() && NewestUp(trace) == Some(baseline.value.campus)
      ensures restored ==> |row| == STABLE_SAMPLES && EndsRestored(trace, row, baseline.value, name)
    {
      restored, row := RollbackRound();
      for attempt := 1 to ROLLBACK_ATTEMPTS
        invariant Kept() && NewestUp(trace) == Some(baseline.value.campus)
        invariant restored ==> |row| == STABLE_SAMPLES && EndsRestored(trace, row, baseline.value, name)
      {
        if restored { return; }
        restored, row := RollbackRound();
      }
    }

    /** Returns only when four samples in a row found everything restored; no signal surfaces inside. */
    method Rollback() returns (r: Outcome<()>, ghost row: seq<Sample>)
      requires Valid() && (rollbackArmed ==> baseline.Some? && named)
      modifies this`next, this`clock, this`trace, this`auditUuid, this`rollbackArmed, this`rollbackRuns
      modifies latch`pending, latch`deferDepth
      ensures Kept() && latch.deferDepth == old(latch.deferDepth) && !r.Interrupted?
      ensures !old(rollbackArmed) ==> r.Done? && trace == old(trace) && rollbackRuns == old(rollbackRuns) && !rollbackArmed
      ensures old(rollbackArmed) ==> rollbackRuns == old(rollbackRuns) + 1 && NewestUp(trace) == Some(baseline.value.campus)
      ensures old(rollbackArmed) ==> (r.Done? <==> !rollbackArmed)
      ensures old(rollbackArmed) && r.Done? ==> |row| == STABLE_SAMPLES && EndsRestored(trace, row, baseline.value, name)
    {
      row := [];
      if !rollbackArmed || baseline.None? { return Done(()), row; }
      latch.deferDepth := latch.deferDepth + 1;
      r, row := RollbackDeferred();
      latch.deferDepth := latch.deferDepth - 1;
    }

    method RollbackDeferred() returns (r: Outcome<()>, ghost row: seq<Sample>)
      requires Valid() && baseline.Some? && named && rollbackArmed && latch.deferDepth > 0
      modifies this`next, this`clock, this`trace, this`auditUuid, this`rollbackArmed, this`rollbackRuns, latch`pending
      ensures Kept() && !r.Interrupted?
      ensures rollbackRuns == old(rollbackRuns) + 1 && NewestUp(trace) == Some(baseline.value.campus)
      ensures r.Done? <==> !rollbackArmed
      ensures r.Done? ==> |row| == STABLE_SAMPLES && EndsRestored(trace, row, baseline.value, name)
    {
      var restored;
      restored, row := RollbackRounds();
      rollbackRuns := rollbackRuns + 1;
      rollbackArmed := !restored;
      r := if restored then Done(()) else Failed;
    }

    // ----- Preflight -----

    /** The next read of a chain, made only while everything before was as demanded. */
    method Then(previous: Outcome<Reply>, fits: bool, request: Request, ghost base: seq<Event>, ghost prefix: seq<Event>)
      returns (r: Outcome<Reply>, ghost added: seq<Event>)
      requires Valid() && !Changes(request)
      requires trace == base + prefix && Silent(prefix)
      requires previous.Interrupted? ==> latch.Raises() == Some(previous.signum)
      modifies this`next, this`clock, this`trace, latch`pending
      ensures Valid() && trace == base + added && Silent(added)
      ensures r.Done? ==> previous.Done? && fits && Worked(Event(request, r.value, clock)) && added == prefix + [Event(request, r.value, clock)]
      ensures r.Interrupted? ==> latch.Raises() == Some(r.signum)
      ensures old(latch.pending).Some? ==> latch.pending == old(latch.pending)
      ensures old(clock) <= clock
      ensures NewestUp(trace) == NewestUp(old(trace))
    {
      added := prefix;
      if !previous.Done? || !fits { return previous.Propagate(), added; }
      r, added := ReadMore(request, base, prefix);
    }

    method PreflightIdentity() returns (r: Outcome<Uuid>, ghost added: seq<Event>)
      requires Valid()
      modifies this`next, this`clock, this`trace, latch`pending
      ensures Looked(added)
      ensures r.Done? ==> SnapshotsIdentity(added, r.value)
      ensures r.Interrupted? ==> latch.Raises() == Some(r.signum)
    {
      ghost var base := trace;
      var gate, active, ssid;
      gate, added := Read(Gate);
      active, added := Then(gate, gate.Done? && gate.value.fine, ActiveUuid, base, added);
      var campus := if active.Done? && active.value.uuid.Some? then active.value.uuid.value else 0;
      ssid, added := Then(active, active.Done? && active.value.uuid.Some?, CampusSsid(campus), base, added);
      if !ssid.Done? || !ssid.value.fine { return ssid.Propagate(), added; }
      r := Done(campus);
    }

    method PreflightLink(campus: Uuid) returns (r: Outcome<Baseline>, ghost added: seq<Event>)
      requires Valid()
      modifies this`next, this`clock, this`trace, latch`pending
      ensures Looked(added)
      ensures r.Done? ==> SnapshotsLink(added, r.value) && r.value.campus == campus
      ensures r.Interrupted? ==> latch.Raises() == Some(r.signum)
    {
      ghost var base := trace;
      var routes, listing, dns;
      routes, added := Read(DefaultRoutes);
      listing, added := Then(routes, routes.Done? && routes.value.fine, Addresses, base, added);
      var addresses := if listing.Done? then AddressesOn(listing.value.records, Wifi) else [];
      dns, added := Then(listing, addresses != [], Dns, base, added);
      if !dns.Done? || !dns.value.fine { return dns.Propagate(), added; }
      r := Done(Baseline(campus, campus, {}, addresses, routes.value.text, dns.value.text));
    }

    /** The profiles that exist, and the saved one that is going to be cloned. */
    method PreflightProfiles(b: Baseline) returns (r: Outcome<Baseline>, ghost added: seq<Event>)
      requires Valid()
      modifies this`next, this`clock, this`trace, latch`pending
      ensures Looked(added)
      ensures r.Done? ==> SnapshotsProfiles(added, r.value) && r.value == b.(source := r.value.source, initial := r.value.initial)
      ensures r.Interrupted? ==> latch.Raises() == Some(r.signum)
    {
      var list, found;
      list, added := Read(ListUuids);
      found, added := Then(list, list.Done? && list.value.uuids != [], FindSource, old(trace), added);
      if !found.Done? || found.value.uuid.None? || found.value.uuid.value == b.campus { return found.Propagate(), added; }
      r := Done(b.(source := found.value.uuid.value, initial := set u | u in list.value.uuids));
    }

    method PreflightSource(b: Baseline) returns (r: Outcome<()>, ghost added: seq<Event>)
      requires Valid()
      modifies this`next, this`clock, this`trace, latch`pending
      ensures Looked(added)
      ensures r.Done? ==> SnapshotsSource(added, b)
      ensures r.Interrupted? ==> latch.Raises() == Some(r.signum)
    {
      var profile, listing;
      profile, added := Read(SourceProfile(b.source));
      listing, added := Then(profile, profile.Done? && profile.value.fine, Addresses, old(trace), added);
      if !listing.Done? || Owners(listing.value.records) != [] { return listing.Propagate(), added; }
      r := Done(());
    }

    method PreflightCampus() returns (r: Outcome<Baseline>, ghost identity: seq<Event>, ghost link: seq<Event>)
      requires Valid() && baseline.None?
      modifies this`next, this`clock, this`trace, latch`pending
      ensures Auditing(Surfaced(r))
      ensures r.Done? ==> SnapshotsIdentity(identity, r.value.campus) && SnapshotsLink(link, r.value)
      ensures r.Done? ==> trace == old(trace) + identity + link
    {
      var campus;
      link := [];
      campus, identity := PreflightIdentity();
      if !campus.Done? { return campus.Propagate(), identity, link; }
      r, link := PreflightLink(campus.value);
    }

    method PreflightSaved(b: Baseline) returns (r: Outcome<Baseline>, ghost profiles: seq<Event>, ghost source: seq<Event>)
      requires Valid() && baseline.None?
      modifies this`next, this`clock, this`trace, latch`pending
      ensures Auditing(Surfaced(r))
      ensures r.Done? ==> r.value == b.(source := r.value.source, initial := r.value.initial)
      ensures r.Done? ==> SnapshotsProfiles(profiles, r.value) && SnapshotsSource(source, r.value)
      ensures r.Done? ==> trace == old(trace) + profiles + source
    {
      source := [];
      r, profiles := PreflightProfiles(b);
      if !r.Done? { return; }
      var checked;
      checked, source := PreflightSource(r.value);
      if !checked.Done? { r := checked.Propagate(); }
    }

    /** Only reads; the snapshot is set exactly when every demand was met. */
    method Preflight() returns (r: Outcome<()>, ghost shot: Snapshot)
      requires Valid() && baseline.None?
      modifies this`next, this`clock, this`trace, this`baseline, latch`pending
      ensures Auditing(Surfaced(r)) && Silent(trace)
      ensures r.Done? <==> baseline.Some?
      ensures r.Done? ==> shot.Shows(baseline.value) && trace == old(trace) + shot.Events()
    {
      ghost var identity, link, profiles, source;
      shot := Snapshot([], [], [], []);
      var campus, saved;
      campus, identity, link := PreflightCampus();
      if !campus.Done? { return campus.Propagate(), shot; }
      saved, profiles, source := PreflightSaved(campus.value);
      if !saved.Done? { return saved.Propagate(), shot; }
      shot := Snapshot(identity, link, profiles, source);
      JoinFour(old(trace), identity, link, profiles, source);
      SetBaseline(saved.value);
      r := Done(());
    }

    method SetBaseline(b: Baseline)
      requires Valid() && baseline.None?
      modifies this`baseline
      ensures Valid() && baseline == Some(b) && Silent(trace)
    {
      SilentIsSafe(trace, b, name);
      baseline := Some(b);
    }

    // ----- The audit -----

    /** How many profiles are new, and which of them bear the name of the clone. */
    method FindClones() returns (r: Outcome<seq<Uuid>>, unseen: nat)
      requires Valid() && baseline.Some?
      modifies this`next, this`clock, this`trace, latch`pending
      ensures Auditing(Surfaced(r))
      ensures r.Done? ==> forall u :: u in r.value ==> IsAuditProfile(trace, u, baseline.value, name)
    {
      var listed; ghost var added;
      listed, added := Read(ListUuids);
      unseen := 0;
      if !listed.Done? { return listed.Propagate(), unseen; }
      var newcomers := Newcomers(listed.value.uuids, baseline.value.initial);
      unseen := |newcomers|;
      r, added := ReadNames(newcomers);
    }

    /** The clone is recorded before anything else is refused. */
    method RecordClone() returns (r: Outcome<()>)
      requires Valid() && baseline.Some? && auditUuid.None?
      modifies this`next, this`clock, this`trace, this`auditUuid, latch`pending
      ensures Auditing(Surfaced(r)) && (r.Done? ==> auditUuid.Some?)
    {
      var matches, unseen := FindClones();
      if !matches.Done? { return matches.Propagate(); }
      if |matches.value| == 1 {
        assert matches.value[0] in matches.value;
        auditUuid := Some(matches.value[0]);
      }
      r := if unseen != 1 || |matches.value| != 1 then Failed else Done(());
    }

    method Configure() returns (r: Outcome<()>)
      requires Valid() && baseline.Some? && auditUuid.Some?
      modifies this`next, this`clock, this`trace, latch`pending
      ensures Auditing(Surfaced(r))
    {
      var reply; ghost var added;
      reply, added := Run(Modify(auditUuid.value));
      if !reply.Done? { return reply.Propagate(); }
      reply, added := Run(Persistence(auditUuid.value));
      if !reply.Done? || !reply.value.fine { return reply.Propagate(); }
      reply, added := Run(SecretFlags(auditUuid.value));
      r := if reply.Done? && reply.value.fine then Done(()) else reply.Propagate();
    }

    method CreateAuditProfile() returns (r: Outcome<()>)
      requires Valid() && baseline.Some? && auditUuid.None?
      modifies this`next, this`clock, this`trace, this`auditUuid, this`named, latch`pending
      ensures Auditing(Surfaced(r)) && named && (r.Done? ==> auditUuid.Some?)
    {
      named := true;
      var reply; ghost var added;
      reply, added := Run(ListUuids);
      if !reply.Done? { return reply.Propagate(); }
      if (set u | u in reply.value.uuids) != baseline.value.initial { return Failed; }
      reply, added := Run(Clone(baseline.value.source, name));
      if !reply.Done? { return reply.Propagate(); }
      r := RecordClone();
      if !r.Done? { return; }
      r := Configure();
    }

    method ActivateAuditProfile(terminal: bool) returns (r: Outcome<()>)
      requires Valid() && baseline.Some? && auditUuid.Some?
      modifies this`next, this`clock, this`trace, latch`pending
      ensures Auditing(Surfaced(r))
    {
      if latch.Raises().Some? { return Interrupted(latch.Raises().value); }
      if !terminal { return Failed; }
      var reply; ghost var added;
      reply, added := Run(Up(auditUuid.value));
      r := if reply.Done? then Done(()) else reply.Propagate();
    }

    method ValidateOwner() returns (r: Outcome<()>, ghost added: seq<Event>)
      requires Valid() && auditUuid.Some?
      modifies this`next, this`clock, this`trace, latch`pending
      ensures Looked(added) && (r.Interrupted? ==> latch.Raises() == Some(r.signum))
      ensures r.Done? ==> ProvenOwner(added, auditUuid.value) && old(clock) <= added[0].at
    {
      var active, owners;
      active, added := Read(ActiveUuid);
      owners, added := Then(active, active.Done? && active.value.uuid == auditUuid, Addresses, old(trace), added);
      var unique := owners.Done? && Owners(owners.value.records) == [AddressRecord(Wifi, HOST_IP, 24)];
      r := if unique then Done(()) else owners.Propagate();
    }

    method ValidateRouter() returns (r: Outcome<()>, ghost added: seq<Event>)
      requires Valid()
      modifies this`next, this`clock, this`trace, latch`pending
      ensures Looked(added) && (r.Interrupted? ==> latch.Raises() == Some(r.signum))
      ensures r.Done? ==> ProvenRouter(added)
    {
      var wired, router;
      wired, added := Read(Addresses);
      router, added := Then(wired, wired.Done? && AddressesOn(wired.value.records, Wired) == [], RouterState, old(trace), added);
      r := if router.Done? && router.value.fine then Done(()) else router.Propagate();
    }

    /** The clone is active, wlo1 alone owns the host address, and the link goes through the router. */
    method ValidateRuntimeState() returns (r: Outcome<()>, ghost added: seq<Event>)
      requires Valid() && auditUuid.Some?
      modifies this`next, this`clock, this`trace, latch`pending
      ensures Looked(added) && (r.Interrupted? ==> latch.Raises() == Some(r.signum))
      ensures r.Done? ==> RuntimeProven(added, auditUuid.value) && old(clock) <= added[0].at
    {
      r, added := ValidateOwner();
      if !r.Done? { return; }
      ghost var owner, router := added, [];
      r, router := ValidateRouter();
      JoinLooks(old(trace), owner, router);
      added := owner + router;
      assert r.Done? ==> added[..2] == owner && added[2..] == router;
    }

    /** Up to three warm-up pings, of which one has to succeed. */
    method WarmUp(host: nat) returns (r: Outcome<()>, ghost added: seq<Event>)
      requires Valid()
      modifies this`next, this`clock, this`trace, latch`pending
      ensures Looked(added) && (r.Interrupted? ==> latch.Raises() == Some(r.signum))
      ensures r.Done? ==> Warmed(added, host)
    {
      added := [];
      for attempt := 0 to 3
        invariant Looked(added) && |added| == attempt && Unanswered(added, host)
      {
        var reply; ghost var one;
        reply, one := Run(Ping(host));
        if one != [] { OneMorePing(added, one, host); }
        JoinLooks(old(trace), added, one);
        added := added + one;
        if !reply.Failed? { return if reply.Done? then Done(()) else reply.Propagate(), added; }
      }
      r := Failed;
    }

    method CheckHost(host: nat) returns (r: Outcome<()>, ghost added: seq<Event>)
      requires Valid()
      modifies this`next, this`clock, this`trace, latch`pending
      ensures Looked(added) && (r.Interrupted? ==> latch.Raises() == Some(r.signum))
      ensures r.Done? ==> HostAnswers(added, host)
    {
      r, added := WarmUp(host);
      if !r.Done? { return; }
      ghost var warm := added;
      var reply;
      reply, added := ReadMore(Ping(host), old(trace), warm);
      r := if reply.Done? && reply.value.fine then Done(()) else reply.Propagate();
      assert r.Done? ==> added[..|added| - 1] == warm;
    }

    /** Every target host, one after the other. */
    method CheckHosts() returns (r: Outcome<()>, ghost hosts: seq<seq<Event>>)
      requires Valid()
      modifies this`next, this`clock, this`trace, latch`pending
      ensures Auditing(Surfaced(r))
      ensures r.Done? ==> trace == old(trace) + Joined(hosts) && HostsAnswer(hosts, |TARGET_HOSTS|)
    {
      hosts, r := [], Done(());
      for i := 0 to |TARGET_HOSTS|
        invariant Kept() && r.Done?
        invariant trace == old(trace) + Joined(hosts) && HostsAnswer(hosts, i)
      {
        ghost var one;
        r, one := CheckHost(TARGET_HOSTS[i]);
        if !r.Done? { return; }
        JoinedSnoc(old(trace), hosts, one);
        hosts := hosts + [one];
      }
    }

    method CheckProbe() returns (r: Outcome<()>, ghost probe: seq<Event>)
      requires Valid()
      modifies this`next, this`clock, this`trace, latch`pending
      ensures Auditing(Surfaced(r)) && trace == old(trace) + probe
      ensures r.Done? ==> |probe| == 1 && Probed(probe[0]) && probe[0].at == clock
    {
      var reply;
      reply, probe := Read(Probe);
      r := if reply.Done? && reply.value.fine then Done(()) else reply.Propagate();
    }

    /** The runtime state, the hosts and the probe. */
    method ValidateReachability() returns (r: Outcome<()>, ghost reach: Reach)
      requires Valid() && auditUuid.Some?
      modifies this`next, this`clock, this`trace, latch`pending
      ensures Auditing(Surfaced(r))
      ensures r.Done? ==> reach.Shows(auditUuid.value) && trace == old(trace) + reach.Events()
      ensures r.Done? ==> old(clock) <= reach.runtime[0].at && reach.probe[0].at == clock
    {
      reach := Reach([], [], []);
      ghost var runtime, hosts, probe;
      r, runtime := ValidateRuntimeState();
      if !r.Done? { return; }
      r, hosts := CheckHosts();
      if !r.Done? { return; }
      r, probe := CheckProbe();
      reach := Reach(runtime, hosts, probe);
      JoinThree(old(trace), runtime, Joined(hosts), probe);
    }

    /** Rechecks the runtime state after every sleep until the time is over. */
    method Hold(holdTime: nat) returns (r: Outcome<()>, ghost rechecks: seq<seq<Event>>)
      requires Valid() && auditUuid.Some?
      modifies this`next, this`clock, this`trace, latch`pending
      ensures Auditing(Surfaced(r))
      ensures r.Done? ==> trace == old(trace) + Joined(rechecks) && AllProven(rechecks, auditUuid.value)
      ensures r.Done? ==> old(clock) + holdTime <= clock
    {
      rechecks := [];
      var deadline := clock + holdTime;
      while clock < deadline
        invariant Kept()
        invariant trace == old(trace) + Joined(rechecks) && AllProven(rechecks, auditUuid.value)
        decreases deadline - clock
      {
        clock := clock + if deadline - clock < RECHECK_INTERVAL then deadline - clock else RECHECK_INTERVAL;
        if latch.Raises().Some? { return Interrupted(latch.Raises().value), rechecks; }
        ghost var one;
        r, one := ValidateRuntimeState();
        if !r.Done? { return; }
        JoinedSnoc(old(trace), rechecks, one);
        rechecks := rechecks + [one];
      }
      r := Done(());
    }

    /** The clone is made and brought up. */
    method SetUp(terminal: bool) returns (r: Outcome<()>, ghost setup: seq<Event>)
      requires Valid() && baseline.Some? && auditUuid.None?
      modifies this`next, this`clock, this`trace, this`auditUuid, this`named, latch`pending
      ensures Auditing(Surfaced(r)) && named && (r.Done? ==> auditUuid.Some?)
      ensures trace == old(trace) + setup
    {
      r := CreateAuditProfile();
      if r.Done? {
        r := ActivateAuditProfile(terminal);
      }
      setup := trace[|old(trace)|..];
    }

    /** Everything between arming and the rollback. */
    method Audit(holdTime: nat, terminal: bool) returns (r: Outcome<()>, ghost proof: Proof)
      requires Valid() && baseline.Some? && auditUuid.None?
      modifies this`next, this`clock, this`trace, this`auditUuid, this`named, latch`pending
      ensures Auditing(Surfaced(r)) && named
      ensures r.Done? ==> proof.Shows(holdTime) && trace == old(trace) + proof.Events()
      ensures r.Done? ==> IsAuditProfile(trace, proof.audit, baseline.value, name)
    {
      proof := Proof(0, [], Reach([], [], []), [], Reach([], [], []));
      ghost var setup, first, rechecks, last;
      r, setup := SetUp(terminal);
      if !r.Done? { return; }
      r, first := ValidateReachability();
      if !r.Done? { return; }
      r, rechecks := Hold(holdTime);
      if !r.Done? { return; }
      r, last := ValidateReachability();
      proof := Proof(auditUuid.value, setup, first, rechecks, last);
      JoinFour(old(trace), setup, first.Events(), Joined(rechecks), last.Events());
    }

    /** What has happened by the time the rollback begins, when everything before it succeeded. */
    ghost predicate Proven(start: seq<Event>, shot: Snapshot, proof: Proof, holdTime: nat)
      reads this
    {
      && proof.Shows(holdTime)
      && start + shot.Events() + proof.Events() <= trace
      && baseline.Some? && IsAuditProfile(start + shot.Events() + proof.Events(), proof.audit, baseline.value, name)
    }

    method Execute(holdTime: nat, terminal: bool)
      returns (r: Outcome<()>, ghost armed: bool, ghost shot: Snapshot, ghost proof: Proof, ghost row: seq<Sample>)
      requires Valid() && baseline.None? && !named && !rollbackArmed && latch.deferDepth == 0
      modifies this, latch
      ensures latch.deferDepth == 0 && (r.Interrupted? ==> latch.pending == Some(r.signum))
      ensures !armed ==> !r.Done? && Silent(trace) && !rollbackArmed && rollbackRuns == old(rollbackRuns)
      ensures armed ==> rollbackRuns == old(rollbackRuns) + 1 && Settled(trace, baseline, name, rollbackArmed, row)
      ensures armed ==> shot.Shows(baseline.value) && old(trace) + shot.Events() <= trace
      ensures r.Done? ==> armed && !rollbackArmed && latch.pending.None? && Proven(old(trace), shot, proof, holdTime)
      ensures r.Interrupted? ==> !rollbackArmed
      ensures Valid() && (rollbackArmed ==> baseline.Some? && named)
    {
      armed, proof, row := false, Proof(0, [], Reach([], [], []), [], Reach([], [], [])), [];
      r, shot := Preflight();
      if !r.Done? { return; }
      rollbackArmed := true;
      armed := true;
      var primary;
      primary, proof := Audit(holdTime, terminal);
      r, row := Rollback();
      PreexistingUntouched(trace, baseline.value, name);
      if r.Failed? { return; }
      if !primary.Done? {
        r := primary;
      } else if latch.Raises().Some? {
        r := Interrupted(latch.Raises().value);
      }
    }

    /** How the outcome is reported; a signal asks for the rollback again. */
    method Report(outcome: Outcome<()>) returns (exitCode: int)
      requires Valid() && (outcome.Interrupted? ==> !rollbackArmed && latch.pending == Some(outcome.signum))
      modifies this`next, this`clock, this`trace, this`auditUuid, this`rollbackArmed, this`rollbackRuns
      modifies latch`pending, latch`deferDepth
      ensures trace == old(trace) && rollbackArmed == old(rollbackArmed) && rollbackRuns == old(rollbackRuns)
      ensures outcome.Done? ==> exitCode == 0 && latch.pending == old(latch.pending)
      ensures outcome.Failed? ==> exitCode == 1
      ensures outcome.Interrupted? ==> exitCode == 128 + outcome.signum && latch.pending == old(latch.pending)
    {
      exitCode := if outcome.Done? then 0 else 1;
      if outcome.Interrupted? {
        var again; ghost var row;
        again, row := Rollback();
        exitCode := if again.Failed? then 70 else 128 + outcome.signum;
      }
    }

    /**
     The script's main in execute mode.  A signal that surfaces asks for the rollback again, which
     by then has nothing left to do, so the exit code 70 for an incomplete one cannot occur.
     */
    method Supervise(holdTime: nat, terminal: bool)
      returns (exitCode: int, ghost armed: bool, ghost shot: Snapshot, ghost proof: Proof, ghost row: seq<Sample>)
      requires Valid() && baseline.None? && !named && !rollbackArmed && latch.deferDepth == 0
      modifies this, latch
      ensures rollbackRuns == old(rollbackRuns) + if armed then 1 else 0
      ensures armed ==> Settled(trace, baseline, name, rollbackArmed, row)
      ensures !armed ==> Silent(trace)
      ensures exitCode == 0 ==> armed && !rollbackArmed && latch.pending.None? && Proven(old(trace), shot, proof, holdTime)
      ensures exitCode == 0 || exitCode == 1 || (latch.pending.Some? && exitCode == 128 + latch.pending.value)
      ensures exitCode != 1 ==> !rollbackArmed
    {
      var outcome;
      outcome, armed, shot, proof, row := Execute(holdTime, terminal);
      ghost var end, base, due := trace, baseline, rollbackArmed;
      ghost var settled, proven := Settled(end, base, name, due, row), Proven(old(trace), shot, proof, holdTime);
      exitCode := Report(outcome);
      assert trace == end && baseline == base && rollbackArmed == due;
      assert settled == Settled(trace, baseline, name, rollbackArmed, row);
      assert proven == Proven(old(trace), shot, proof, holdTime);
    }
  }
}
