/**
 The acceptance automaton of scripts/observe_handsfree_cancel_readonly.py.
 Three observers feed one tracker in any order.  The tracker keeps counters only; its ghost
 history keeps every observation, and the verdict is proved to say exactly that the history is
 that of an accepted cancellation.
 */
module CancelAcceptance {

  datatype Option<+T> = None | Some(value: T)

  // ----- Payloads -----

  datatype Json =
    | JNull | JBool(flag: bool) | JInt(number: int) | JReal(decimal: real) | JString(text: string)
    | JList(items: seq<Json>) | JObject(fields: map<string, Json>)

  type Payload = map<string, Json>

  function Get(payload: Payload, key: string): Json {
    if key in payload then payload[key] else JNull
  }

  /** The nested object when there is one, otherwise the payload itself. */
  function Nested(payload: Payload, key: string): Payload {
    match Get(payload, key)
    case JObject(fields) => fields
    case _ => payload
  }

  datatype StatusReading = StatusMalformed | StatusUnavailable | Available(enabled: bool, transcript: string)

  function ReadStatus(payload: Payload): StatusReading {
    var status := Nested(payload, "status");
    var available := Get(status, "available");
    var enabled, transcript := Get(status, "enabled"), Get(status, "lastTranscript");
    if ("status" in payload && !payload["status"].JObject?) || !available.JBool? then StatusMalformed
    else if !available.flag then StatusUnavailable
    else if !enabled.JBool? || !transcript.JString? || !Get(status, "state").JString? then StatusMalformed
    else Available(enabled.flag, transcript.text)
  }

  datatype PlanReading = PlansUnavailable | PlansMalformed | PlanCount(count: nat)

  function ReadPlans(payload: Payload): PlanReading {
    var plans := Nested(payload, "activePlans");
    var count, items := Get(plans, "count"), Get(plans, "plans");
    if Get(plans, "available") != JBool(true) then PlansUnavailable
    else if !count.JInt? || !items.JList? || count.number != |items.items| then PlansMalformed
    else PlanCount(|items.items|)
  }

  /** The voice events that must not arrive once the operator was told to disable. */
  datatype LateKind = AsrFinal | Pilot | TtsStarted | TtsDone | SessionDone

  datatype SocketReading =
    | Accepted | ErrorMessage(wellFormed: bool) | Late(kind: LateKind)
    | OtherVoice | VoiceError | UnknownVoice | MessageMalformed

  function Lower(s: string): string {
    seq(|s|, i requires 0 <= i < |s| => if 'A' <= s[i] <= 'Z' then s[i] - 'A' + 'a' else s[i])
  }

  function Strip(s: string): string {
    if s != "" && s[0] in " \t\n\r" then Strip(s[1..])
    else if s != "" && s[|s| - 1] in " \t\n\r" then Strip(s[..|s| - 1])
    else s
  }

  function ReadVoice(kind: string): SocketReading {
    if kind == "asr_final" then Late(AsrFinal)
    else if kind == "pilot" then Late(Pilot)
    else if kind == "tts_started" then Late(TtsStarted)
    else if kind == "tts_done" then Late(TtsDone)
    else if kind == "session_done" then Late(SessionDone)
    else if kind == "error" then VoiceError
    else if kind in {"session_started", "recording_started", "recording_done", "asr_partial", "user_identified"} then OtherVoice
    else UnknownVoice
  }

  function ReadSocket(payload: Payload): SocketReading {
    var messageType := Get(payload, "type");
    if messageType == JString("accepted") then Accepted
    else if messageType == JString("error") then ErrorMessage(Get(payload, "error").JString?)
    else if messageType == JString("voice_event") then
      match Get(payload, "event")
      case JObject(fields) =>
        (match Get(fields, "kind")
         case JString(text) => if Lower(Strip(text)) == "" then MessageMalformed else ReadVoice(Lower(Strip(text)))
         case _ => MessageMalformed)
      case _ => MessageMalformed
    else MessageMalformed
  }

  // ----- Histories -----

  datatype Observation =
    | SettingsLoaded | SocketConnected | SocketCovered | ObserverError
    | Status(status: StatusReading, at: int)
    | Plans(plans: PlanReading, at: int)
    | Socket(message: SocketReading, at: int)
  {
    predicate Timed() { Status? || Plans? || Socket? }
    predicate Seen() { Status? && status.Available? }
    predicate SeenEnabled() { Seen() && status.enabled }
    predicate ZeroPlans() { Plans? && plans == PlanCount(0) }
    predicate BadMessage() {
      Socket? && (message.ErrorMessage? || message.VoiceError? || message.UnknownVoice? || message.MessageMalformed?)
    }
    predicate LateVoice() { Socket? && message.Late? }
  }

  type History = seq<Observation>

  ghost predicate Chronological(h: History) {
    forall i, j :: 0 <= i < j < |h| && h[i].Timed() && h[j].Timed() ==> h[i].at <= h[j].at
  }

  /** The enabled flag of the last status that was well formed and available. */
  ghost function LastEnabled(h: History): Option<bool> {
    if h == [] then None
    else if h[|h| - 1].Seen() then Some(h[|h| - 1].status.enabled)
    else LastEnabled(h[..|h| - 1])
  }

  /** Position i observes the switch from enabled to disabled. */
  ghost predicate EdgeAt(h: History, i: nat) {
    i < |h| && h[i].Seen() && !h[i].status.enabled && LastEnabled(h[..i]) == Some(true)
  }

  ghost predicate IsFirstEdge(h: History, d: nat) {
    EdgeAt(h, d) && forall i: nat :: i < d ==> !EdgeAt(h, i)
  }

  ghost predicate NoEdge(h: History) {
    forall i: nat :: i < |h| ==> !EdgeAt(h, i)
  }

  /** After this many observations the operator may be told to disable. */
  ghost predicate ReadyAfter(h: History, i: nat) {
    && i < |h| && h[i].Timed()
    && (exists j :: 0 <= j <= i && h[j].Socket? && h[j].message == Accepted)
    && (exists j :: 0 <= j <= i && h[j].SeenEnabled())
    && (exists j :: 0 <= j <= i && h[j].Plans?)
    && (forall j :: 0 <= j <= i && h[j].Plans? ==> h[j].ZeroPlans())
    && (forall j: nat :: j <= i ==> !EdgeAt(h, j))
  }

  ghost predicate IsFirstReady(h: History, r: nat) {
    ReadyAfter(h, r) && forall i: nat :: i < r ==> !ReadyAfter(h, i)
  }

  /** b is the last status up to position r that showed the mode enabled. */
  ghost predicate IsBaseline(h: History, r: nat, b: nat) {
    b <= r < |h| && h[b].SeenEnabled() && forall i :: b < i <= r ==> !h[i].SeenEnabled()
  }

  // ----- Gaps -----

  datatype Endpoint = StatusEndpoint | PlanEndpoint

  predicate From(o: Observation, endpoint: Endpoint) {
    match endpoint
    case StatusEndpoint => o.Status?
    case PlanEndpoint => o.Plans?
  }

  /** When the samples of one endpoint were observed. */
  ghost function Times(h: History, endpoint: Endpoint): seq<int> {
    if h == [] then []
    else
      var last := h[|h| - 1];
      Times(h[..|h| - 1], endpoint) + if From(last, endpoint) then [last.at] else []
  }

  const SECOND: int := 1_000_000_000
  const MAX_SAMPLE_GAP: int := SECOND
  const MIN_POST_DISABLE_MICROSECONDS: int := 25_000_000

  function GapBefore(times: seq<int>, k: nat): int
    requires 0 < k < |times|
  {
    times[k] - times[k - 1]
  }

  ghost predicate SmallGaps(times: seq<int>) {
    forall k :: 0 < k < |times| ==> GapBefore(times, k) <= MAX_SAMPLE_GAP
  }

  /** No gap above a second, the one before the end included. */
  ghost predicate Covered(times: seq<int>, finished: int) {
    SmallGaps(times) && (times != [] ==> finished - times[|times| - 1] <= MAX_SAMPLE_GAP)
  }

  /** Rounds nanoseconds to microseconds as round(seconds, 6) does: halves to even. */
  function RoundToMicroseconds(ns: int): int {
    var q, r := ns / 1000, ns % 1000;
    if r < 500 || (r == 500 && q % 2 == 0) then q else q + 1
  }

  lemma RoundedWindow(ns: int)
    ensures RoundToMicroseconds(ns) >= MIN_POST_DISABLE_MICROSECONDS <==> ns >= 25 * SECOND - 500
  {
  }

  // ----- The accepted histories -----

  /** Everything that must hold whatever the READY and disable points are. */
  ghost predicate CleanRun(h: History) {
    && SettingsLoaded in h && SocketConnected in h && SocketCovered in h && ObserverError !in h
    && (forall i :: 0 <= i < |h| ==> !h[i].BadMessage())
    && (forall i :: 0 <= i < |h| && h[i].Status? ==> !h[i].status.StatusMalformed?)
    && (forall i :: 0 <= i < |h| && h[i].Plans? ==> h[i].ZeroPlans())
  }

  /** Every status from d on is available, disabled and carries this transcript. */
  ghost predicate QuietStatuses(h: History, d: nat, transcript: string) {
    forall i :: d <= i < |h| && h[i].Status? ==> h[i].status == Available(false, transcript)
  }

  /** READY at r with baseline transcript b, then the first disable edge at d, then nothing suspicious. */
  ghost predicate CleanCancellation(h: History, r: nat, b: nat, d: nat) {
    && r < d < |h| && IsFirstReady(h, r) && IsBaseline(h, r, b) && IsFirstEdge(h, d)
    && (forall i :: r < i < |h| ==> !h[i].LateVoice())
    && QuietStatuses(h, d, h[b].status.transcript)
    && (exists i :: d < i < |h| && h[i].Plans?)
  }

  ghost predicate AcceptedHistory(h: History, finished: int) {
    && CleanRun(h)
    && Covered(Times(h, StatusEndpoint), finished) && Covered(Times(h, PlanEndpoint), finished)
    && exists r: nat, b: nat, d: nat :: CleanCancellation(h, r, b, d) && 25 * SECOND - 500 <= finished - h[d].at
  }

  // ----- The tracker's fields as a function of the history -----

  type EventCounts = map<LateKind, nat>

  const NO_EVENTS: EventCounts := map[AsrFinal := 0, Pilot := 0, TtsStarted := 0, TtsDone := 0, SessionDone := 0]

  function AddEvent(counts: EventCounts, kind: LateKind): EventCounts {
    counts[kind := (if kind in counts then counts[kind] else 0) + 1]
  }

  predicate AnyEvent(counts: EventCounts) {
    exists kind :: kind in counts && counts[kind] != 0
  }

  lemma AddEventCounts(counts: EventCounts, kind: LateKind)
    ensures AnyEvent(AddEvent(counts, kind))
  {
    assert kind in AddEvent(counts, kind) && AddEvent(counts, kind)[kind] != 0;
  }

  /** The gap bookkeeping of one endpoint. */
  datatype Gaps = Gaps(lastAt: Option<int>, max: int) {
    function Sample(at: int): Gaps {
      Gaps(Some(at), if lastAt.Some? && max < at - lastAt.value then at - lastAt.value else max)
    }

    /** The largest gap, the one up to the end included. */
    function Effective(finished: int): int {
      if lastAt.Some? && max < finished - lastAt.value then finished - lastAt.value else max
    }
  }

  /** Connection flags and message counters. */
  datatype Connection = Connection(
    settingsLoaded: bool, connected: bool, accepted: bool, covered: bool,
    errorMessages: nat, malformedMessages: nat, unknownMessages: nat, observerErrors: nat)

  /** Counters of plan samples on both sides of the disable boundary. */
  datatype PlanCounters = PlanCounters(
    pre: nat, preIssues: nat, post: nat, postUnavailable: nat, postMalformed: nat, postNonzero: nat)

  /** What the status samples left behind. */
  datatype StatusFields = StatusFields(
    malformed: nat, sawEnabled: bool, previousEnabled: Option<bool>,
    lastEnabledTranscript: Option<string>, disableAt: Option<int>, transitionTranscriptChanged: bool,
    postTranscript: Option<string>, postTranscriptChanges: nat,
    post: nat, postUnavailable: nat, reenabled: nat)

  /** Target voice events: after the edge, waiting for it, and waiting when it came. */
  datatype VoiceCounters = VoiceCounters(late: EventCounts, pending: EventCounts, window: EventCounts)

  datatype Fields = Fields(
    connection: Connection, ready: bool, status: StatusFields, plans: PlanCounters, voice: VoiceCounters,
    statusGaps: Gaps, planGaps: Gaps)

  const INITIAL: Fields := Fields(
    Connection(false, false, false, false, 0, 0, 0, 0), false,
    StatusFields(0, false, None, None, None, false, None, 0, 0, 0, 0),
    PlanCounters(0, 0, 0, 0, 0, 0), VoiceCounters(NO_EVENTS, NO_EVENTS, NO_EVENTS), Gaps(None, 0), Gaps(None, 0))

  predicate PostDisable(disableAt: Option<int>, at: int) {
    disableAt.Some? && disableAt.value <= at
  }

  /** A well-formed, available status is the first edge of the run. */
  predicate IsTransition(f: StatusFields, r: StatusReading) {
    r.Available? && !r.enabled && f.previousEnabled == Some(true) && f.disableAt.None?
  }

  function StepStatus(f: StatusFields, r: StatusReading, at: int, ready: bool): StatusFields {
    if !r.Available? then
      var g := if r.StatusMalformed? then f.(malformed := f.malformed + 1) else f;
      if PostDisable(f.disableAt, at) then g.(post := f.post + 1, postUnavailable := f.postUnavailable + 1) else g
    else
      var g :=
        if IsTransition(f, r) then
          f.(disableAt := Some(at), postTranscript := Some(r.transcript),
             transitionTranscriptChanged := f.transitionTranscriptChanged
               || (f.lastEnabledTranscript.Some? && f.lastEnabledTranscript.value != r.transcript))
        else f;
      var post := PostDisable(g.disableAt, at);
      var k :=
        if post then
          g.(post := g.post + 1, reenabled := g.reenabled + (if r.enabled then 1 else 0),
             postTranscriptChanges := g.postTranscriptChanges
               + (if g.postTranscript.Some? && g.postTranscript.value != r.transcript then 1 else 0),
             postTranscript := Some(r.transcript))
        else g;
      k.(sawEnabled := k.sawEnabled || r.enabled, previousEnabled := Some(r.enabled),
         lastEnabledTranscript := if r.enabled && !post && !ready then Some(r.transcript) else k.lastEnabledTranscript)
  }

  function StepVoiceOnStatus(v: VoiceCounters, f: StatusFields, r: StatusReading, at: int, ready: bool): VoiceCounters {
    if IsTransition(f, r) then v.(window := v.pending)
    else if r.Available? && r.enabled && !PostDisable(f.disableAt, at) && !ready then v.(pending := NO_EVENTS)
    else v
  }

  function StepPlans(p: PlanCounters, r: PlanReading, post: bool): PlanCounters {
    if !post then p.(pre := p.pre + 1, preIssues := p.preIssues + if r == PlanCount(0) then 0 else 1)
    else p.(post := p.post + 1,
            postUnavailable := p.postUnavailable + (if r.PlansUnavailable? then 1 else 0),
            postMalformed := p.postMalformed + (if r.PlansMalformed? then 1 else 0),
            postNonzero := p.postNonzero + (if r.PlanCount? && r.count != 0 then 1 else 0))
  }

  function StepConnection(c: Connection, m: SocketReading): Connection {
    c.(accepted := c.accepted || m == Accepted,
       errorMessages := c.errorMessages + (if m.ErrorMessage? || m.VoiceError? then 1 else 0),
       malformedMessages := c.malformedMessages + (if m.MessageMalformed? || m == ErrorMessage(false) then 1 else 0),
       unknownMessages := c.unknownMessages + (if m.UnknownVoice? then 1 else 0))
  }

  function StepVoice(v: VoiceCounters, f: StatusFields, m: SocketReading, at: int): VoiceCounters {
    if !m.Late? then v
    else if PostDisable(f.disableAt, at) then v.(late := AddEvent(v.late, m.kind))
    else if f.sawEnabled && f.disableAt.None? then v.(pending := AddEvent(v.pending, m.kind))
    else v
  }

  /** READY is announced once, after an observation that completes its conditions. */
  predicate MayAnnounce(s: Fields) {
    !s.ready && s.connection.accepted && s.status.sawEnabled && s.plans.pre != 0 && s.plans.preIssues == 0 && s.status.disableAt.None?
  }

  function Announce(s: Fields): Fields {
    if MayAnnounce(s) then s.(ready := true, voice := s.voice.(pending := NO_EVENTS)) else s
  }

  function AfterStatus(s: Fields, r: StatusReading, at: int): Fields {
    Fields(s.connection, s.ready, StepStatus(s.status, r, at, s.ready), s.plans,
           StepVoiceOnStatus(s.voice, s.status, r, at, s.ready), s.statusGaps.Sample(at), s.planGaps)
  }

  function AfterPlans(s: Fields, r: PlanReading, at: int): Fields {
    Fields(s.connection, s.ready, s.status, StepPlans(s.plans, r, PostDisable(s.status.disableAt, at)),
           s.voice, s.statusGaps, s.planGaps.Sample(at))
  }

  function AfterMessage(s: Fields, m: SocketReading, at: int): Fields {
    Fields(StepConnection(s.connection, m), s.ready, s.status, s.plans, StepVoice(s.voice, s.status, m, at),
           s.statusGaps, s.planGaps)
  }

  function Step(s: Fields, o: Observation): Fields {
    match o
    case SettingsLoaded => s.(connection := s.connection.(settingsLoaded := true))
    case SocketConnected => s.(connection := s.connection.(connected := true))
    case SocketCovered => s.(connection := s.connection.(covered := true))
    case ObserverError => s.(connection := s.connection.(observerErrors := s.connection.observerErrors + 1))
    case Status(r, at) => Announce(AfterStatus(s, r, at))
    case Plans(r, at) => Announce(AfterPlans(s, r, at))
    case Socket(m, at) => Announce(AfterMessage(s, m, at))
  }

  function Track(h: History): Fields {
    if h == [] then INITIAL else Step(Track(h[..|h| - 1]), h[|h| - 1])
  }

  lemma TrackAppend(h: History, o: Observation)
    ensures Track(h + [o]) == Step(Track(h), o)
    ensures Chronological(h) && (o.Timed() ==> forall i :: 0 <= i < |h| && h[i].Timed() ==> h[i].at <= o.at) ==> Chronological(h + [o])
  {
    assert (h + [o])[..|h|] == h;
  }

  /** The summary finds no reason to fail. */
  predicate Verdict(s: Fields, finished: int) {
    var c, f, p, v := s.connection, s.status, s.plans, s.voice;
    && c.settingsLoaded && c.connected && c.accepted && c.covered && s.ready && f.sawEnabled
    && f.disableAt.Some? && PostDisableWindow(f.disableAt.value, finished)
    && f.post != 0 && p.post != 0 && p.pre != 0
    && !f.transitionTranscriptChanged && f.postTranscriptChanges == 0 && f.reenabled == 0 && f.postUnavailable == 0
    && f.malformed == 0 && p.preIssues == 0 && p.postUnavailable == 0 && p.postMalformed == 0 && p.postNonzero == 0
    && s.statusGaps.Effective(finished) <= MAX_SAMPLE_GAP && s.planGaps.Effective(finished) <= MAX_SAMPLE_GAP
    && !AnyEvent(v.late) && !AnyEvent(v.window)
    && c.errorMessages == 0 && c.malformedMessages == 0 && c.unknownMessages == 0 && c.observerErrors == 0
  }

  predicate PostDisableWindow(disableAt: int, finished: int) {
    RoundToMicroseconds(if finished < disableAt then 0 else finished - disableAt) >= MIN_POST_DISABLE_MICROSECONDS
  }

  // ----- What the fields say about the history -----

  ghost function FirstEdge(h: History): Option<nat> {
    if h == [] then None
    else
      var earlier := FirstEdge(h[..|h| - 1]);
      if earlier.Some? then earlier else if EdgeAt(h, |h| - 1) then Some(|h| - 1) else None
  }

  ghost function FirstReady(h: History): Option<nat> {
    if h == [] then None
    else
      var earlier := FirstReady(h[..|h| - 1]);
      if earlier.Some? then earlier else if ReadyAfter(h, |h| - 1) then Some(|h| - 1) else None
  }

  lemma PrefixEdge(h: History, n: nat, i: nat)
    requires i < n <= |h|
    ensures EdgeAt(h[..n], i) <==> EdgeAt(h, i)
  {
    assert h[..n][..i] == h[..i];
  }

  lemma {:induction false} FirstEdgeIsFirst(h: History)
    ensures FirstEdge(h).Some? ==> IsFirstEdge(h, FirstEdge(h).value)
    ensures FirstEdge(h).None? ==> NoEdge(h)
  {
    if h != [] {
      var init := h[..|h| - 1];
      FirstEdgeIsFirst(init);
      forall i: nat | i < |init| ensures EdgeAt(init, i) <==> EdgeAt(h, i) { PrefixEdge(h, |init|, i); }
    }
  }

  lemma PrefixReady(h: History, n: nat, i: nat)
    requires i < n <= |h|
    ensures ReadyAfter(h[..n], i) <==> ReadyAfter(h, i)
  {
    var p := h[..n];
    forall j: nat | j <= i ensures EdgeAt(p, j) <==> EdgeAt(h, j) { PrefixEdge(h, n, j); }
    assert forall j :: 0 <= j <= i ==> p[j] == h[j];
  }

  lemma {:induction false} FirstReadyIsFirst(h: History)
    ensures FirstReady(h).Some? ==> IsFirstReady(h, FirstReady(h).value)
    ensures FirstReady(h).None? ==> forall i: nat :: i < |h| ==> !ReadyAfter(h, i)
  {
    if h != [] {
      var init := h[..|h| - 1];
      FirstReadyIsFirst(init);
      forall i: nat | i < |init| ensures ReadyAfter(init, i) <==> ReadyAfter(h, i) { PrefixReady(h, |init|, i); }
    }
  }

  lemma ChronologicalPrefix(h: History)
    requires h != [] && Chronological(h)
    ensures Chronological(h[..|h| - 1])
  {
  }

  /** Some observation satisfies p. */
  ghost predicate Any(h: History, p: Observation -> bool) {
    h != [] && (p(h[|h| - 1]) || Any(h[..|h| - 1], p))
  }

  lemma {:induction false} AnyExists(h: History, p: Observation -> bool)
    ensures Any(h, p) <==> exists i :: 0 <= i < |h| && p(h[i])
  {
    if h != [] {
      var init := h[..|h| - 1];
      AnyExists(init, p);
      if Any(init, p) {
        var i :| 0 <= i < |init| && p(init[i]);
        assert p(h[i]);
      }
      if i :| 0 <= i < |h| && p(h[i]) {
        if i < |init| { assert p(init[i]); }
      }
    }
  }

  const IsAccepted: Observation -> bool := (o: Observation) => o.Socket? && o.message == Accepted
  const IsEnabled: Observation -> bool := (o: Observation) => o.SeenEnabled()
  const IsBad: Observation -> bool := (o: Observation) => o.BadMessage()
  const IsError: Observation -> bool := (o: Observation) => o.ObserverError?
  const IsSettings: Observation -> bool := (o: Observation) => o.SettingsLoaded?
  const IsConnected: Observation -> bool := (o: Observation) => o.SocketConnected?
  const IsCovered: Observation -> bool := (o: Observation) => o.SocketCovered?
  const IsMalformedStatus: Observation -> bool := (o: Observation) => o.Status? && o.status.StatusMalformed?

  // Each of the next lemmas says what one observation does to one group of fields.

  lemma ConnectionStep(s: Fields, o: Observation)
    ensures var c := Step(s, o).connection;
      && (c.settingsLoaded <==> s.connection.settingsLoaded || o.SettingsLoaded?)
      && (c.connected <==> s.connection.connected || o.SocketConnected?)
      && (c.covered <==> s.connection.covered || o.SocketCovered?)
      && (c.accepted <==> s.connection.accepted || (o.Socket? && o.message == Accepted))
      && c.observerErrors == s.connection.observerErrors + if o.ObserverError? then 1 else 0
  {
  }

  lemma StatusStep(s: Fields, o: Observation)
    ensures !o.Status? ==> Step(s, o).status == s.status
    ensures o.Status? ==> Step(s, o).status == StepStatus(s.status, o.status, o.at, s.ready)
  {
  }

  lemma PlanStep(s: Fields, o: Observation)
    ensures !o.Plans? ==> Step(s, o).plans == s.plans
    ensures o.Plans? ==> Step(s, o).plans == StepPlans(s.plans, o.plans, PostDisable(s.status.disableAt, o.at))
  {
  }

  predicate ReadyConditions(s: Fields) {
    s.connection.accepted && s.status.sawEnabled && s.plans.pre != 0 && s.plans.preIssues == 0 && s.status.disableAt.None?
  }

  lemma ReadyStep(s: Fields, o: Observation)
    ensures Step(s, o).ready <==> s.ready || (o.Timed() && ReadyConditions(Step(s, o)))
  {
  }

  lemma VoiceStep(s: Fields, o: Observation)
    ensures var v := Step(s, o).voice;
      && (!s.ready && Step(s, o).ready ==> v.pending == NO_EVENTS)
      && (s.ready == Step(s, o).ready ==>
            v == if o.Status? then StepVoiceOnStatus(s.voice, s.status, o.status, o.at, s.ready)
                 else if o.Socket? then StepVoice(s.voice, s.status, o.message, o.at) else s.voice)
      && v.late == (if o.Socket? then StepVoice(s.voice, s.status, o.message, o.at).late else s.voice.late)
      && v.window == (if o.Status? then StepVoiceOnStatus(s.voice, s.status, o.status, o.at, s.ready).window else s.voice.window)
  {
  }

  lemma {:induction false} ConnectionKnown(h: History)
    ensures var c := Track(h).connection;
      && (c.settingsLoaded <==> Any(h, IsSettings)) && (c.connected <==> Any(h, IsConnected))
      && (c.covered <==> Any(h, IsCovered)) && (c.accepted <==> Any(h, IsAccepted))
      && (c.observerErrors == 0 <==> !Any(h, IsError))
  {
    if h != [] {
      ConnectionKnown(h[..|h| - 1]);
      ConnectionStep(Track(h[..|h| - 1]), h[|h| - 1]);
    }
  }

  function Faults(c: Connection): nat {
    c.errorMessages + c.malformedMessages + c.unknownMessages
  }

  lemma FaultStep(s: Fields, o: Observation)
    ensures o.BadMessage() ==> Faults(Step(s, o).connection) > Faults(s.connection)
    ensures !o.BadMessage() ==> Faults(Step(s, o).connection) == Faults(s.connection)
  {
  }

  lemma {:induction false} MessagesKnown(h: History)
    ensures Faults(Track(h).connection) == 0 <==> !Any(h, IsBad)
  {
    if h != [] {
      MessagesKnown(h[..|h| - 1]);
      FaultStep(Track(h[..|h| - 1]), h[|h| - 1]);
    }
  }

  /** The boundary is the time of the first edge, and from then on every later time is past it. */
  lemma {:induction false} BoundaryKnown(h: History)
    requires Chronological(h)
    ensures var f, d := Track(h).status, FirstEdge(h);
      && (d.Some? ==> d.value < |h| && h[d.value].Seen())
      && f.disableAt == (if d.Some? then Some(h[d.value].at) else None)
      && f.previousEnabled == LastEnabled(h)
      && (f.sawEnabled <==> Any(h, IsEnabled))
      && (f.malformed == 0 <==> !Any(h, IsMalformedStatus))
  {
    if h != [] {
      ChronologicalPrefix(h);
      BoundaryKnown(h[..|h| - 1]);
      StatusStep(Track(h[..|h| - 1]), h[|h| - 1]);
    }
  }

  /** The counters of a timed observation go to the side of the boundary it lies on. */
  lemma SideKnown(h: History)
    requires h != [] && Chronological(h) && h[|h| - 1].Timed()
    ensures PostDisable(Track(h[..|h| - 1]).status.disableAt, h[|h| - 1].at) <==> FirstEdge(h[..|h| - 1]).Some?
  {
    ChronologicalPrefix(h);
    BoundaryKnown(h[..|h| - 1]);
  }

  ghost predicate GapsMatch(g: Gaps, times: seq<int>) {
    && g.lastAt == (if times == [] then None else Some(times[|times| - 1]))
    && (g.max <= MAX_SAMPLE_GAP <==> SmallGaps(times))
  }

  lemma GapSample(g: Gaps, times: seq<int>, at: int)
    requires GapsMatch(g, times)
    ensures GapsMatch(g.Sample(at), times + [at])
  {
    var longer := times + [at];
    assert forall k :: 0 < k < |times| ==> GapBefore(longer, k) == GapBefore(times, k);
    if SmallGaps(longer) {
      forall k | 0 < k < |times| ensures GapBefore(times, k) <= MAX_SAMPLE_GAP {
        assert GapBefore(longer, k) <= MAX_SAMPLE_GAP;
      }
    }
    if times != [] { assert GapBefore(longer, |times|) == at - times[|times| - 1]; }
  }

  lemma {:induction false} GapsKnown(h: History)
    requires Chronological(h)
    ensures GapsMatch(Track(h).statusGaps, Times(h, StatusEndpoint))
    ensures GapsMatch(Track(h).planGaps, Times(h, PlanEndpoint))
  {
    if h != [] {
      var init, o := h[..|h| - 1], h[|h| - 1];
      ChronologicalPrefix(h);
      GapsKnown(init);
      if o.Status? { GapSample(Track(init).statusGaps, Times(init, StatusEndpoint), o.at); }
      if o.Plans? { GapSample(Track(init).planGaps, Times(init, PlanEndpoint), o.at); }
      assert Times(init, PlanEndpoint) + [] == Times(init, PlanEndpoint);
      assert Times(init, StatusEndpoint) + [] == Times(init, StatusEndpoint);
    }
  }

  // ----- Plans -----

  const IsPlan: Observation -> bool := (o: Observation) => o.Plans?
  const IsPlanIssue: Observation -> bool := (o: Observation) => o.Plans? && !o.ZeroPlans()

  /** Some observation before the first edge satisfies p. */
  ghost predicate AnyBefore(h: History, p: Observation -> bool) {
    h != [] && ((FirstEdge(h).None? && p(h[|h| - 1])) || AnyBefore(h[..|h| - 1], p))
  }

  /** Some observation after the first edge satisfies p. */
  ghost predicate AnyAfter(h: History, p: Observation -> bool) {
    h != [] && ((FirstEdge(h[..|h| - 1]).Some? && p(h[|h| - 1])) || AnyAfter(h[..|h| - 1], p))
  }

  lemma {:induction false} PlansKnown(h: History)
    requires Chronological(h)
    ensures var p := Track(h).plans;
      && (p.pre != 0 <==> AnyBefore(h, IsPlan)) && (p.preIssues == 0 <==> !AnyBefore(h, IsPlanIssue))
      && (p.post != 0 <==> AnyAfter(h, IsPlan))
      && (p.postUnavailable == p.postMalformed == p.postNonzero == 0 <==> !AnyAfter(h, IsPlanIssue))
  {
    if h != [] {
      var init, o := h[..|h| - 1], h[|h| - 1];
      ChronologicalPrefix(h);
      PlansKnown(init);
      PlanStep(Track(init), o);
      if o.Plans? {
        SideKnown(h);
        assert FirstEdge(h) == FirstEdge(init);
      }
    }
  }

  // ----- READY -----

  lemma {:induction false} NoEdgeBefore(h: History, p: Observation -> bool)
    requires FirstEdge(h).None?
    ensures AnyBefore(h, p) <==> Any(h, p)
  {
    if h != [] { NoEdgeBefore(h[..|h| - 1], p); }
  }

  /** The tracker's conditions are the declared ones. */
  lemma ReadyConditionsKnown(h: History)
    requires h != [] && Chronological(h) && h[|h| - 1].Timed()
    ensures ReadyConditions(Track(h)) <==> ReadyAfter(h, |h| - 1)
  {
    ConnectionKnown(h);
    BoundaryKnown(h);
    PlansKnown(h);
    FirstEdgeIsFirst(h);
    AnyExists(h, IsAccepted);
    AnyExists(h, IsEnabled);
    AnyExists(h, IsPlan);
    AnyExists(h, IsPlanIssue);
    if FirstEdge(h).None? {
      NoEdgeBefore(h, IsPlan);
      NoEdgeBefore(h, IsPlanIssue);
    }
  }

  lemma {:induction false} ReadyKnown(h: History)
    requires Chronological(h)
    ensures Track(h).ready <==> FirstReady(h).Some?
  {
    if h != [] {
      ChronologicalPrefix(h);
      ReadyKnown(h[..|h| - 1]);
      ReadyStep(Track(h[..|h| - 1]), h[|h| - 1]);
      if h[|h| - 1].Timed() { ReadyConditionsKnown(h); }
    }
  }

  // ----- Status samples from the edge on -----

  ghost predicate AnyFrom(h: History, p: Observation -> bool) {
    h != [] && ((FirstEdge(h).Some? && p(h[|h| - 1])) || AnyFrom(h[..|h| - 1], p))
  }

  const IsStatus: Observation -> bool := (o: Observation) => o.Status?
  const IsUnseen: Observation -> bool := (o: Observation) => o.Status? && !o.Seen()

  lemma {:induction false} PostStatusKnown(h: History)
    requires Chronological(h)
    ensures var f := Track(h).status;
      && (f.post != 0 <==> AnyFrom(h, IsStatus)) && (f.postUnavailable == 0 <==> !AnyFrom(h, IsUnseen))
      && (f.reenabled == 0 <==> !AnyFrom(h, IsEnabled))
  {
    if h != [] {
      var init, o := h[..|h| - 1], h[|h| - 1];
      ChronologicalPrefix(h);
      PostStatusKnown(init);
      StatusStep(Track(init), o);
      BoundaryKnown(init);
      BoundaryKnown(h);
      if o.Status? { SideKnown(h); }
    }
  }

  // ----- Transcripts -----

  function DiffersFrom(transcript: string): Observation -> bool {
    (o: Observation) => o.Seen() && o.status.transcript != transcript
  }

  /** The transcript at the edge. */
  ghost function EdgeTranscript(h: History): string {
    var d := FirstEdge(h);
    if d.Some? && d.value < |h| && h[d.value].Seen() then h[d.value].status.transcript else ""
  }

  lemma EdgeTranscriptStays(h: History)
    requires h != [] && Chronological(h) && FirstEdge(h[..|h| - 1]).Some?
    ensures EdgeTranscript(h) == EdgeTranscript(h[..|h| - 1])
  {
    ChronologicalPrefix(h);
    BoundaryKnown(h[..|h| - 1]);
  }

  lemma {:induction false} PostTranscriptKnown(h: History)
    requires Chronological(h)
    ensures var f := Track(h).status;
      && (FirstEdge(h).None? ==> f.postTranscriptChanges == 0 && f.postTranscript.None?)
      && (FirstEdge(h).Some? ==> f.postTranscript.Some?)
      && (FirstEdge(h).Some? && f.postTranscriptChanges == 0 ==> f.postTranscript == Some(EdgeTranscript(h)))
      && (FirstEdge(h).Some? ==> (f.postTranscriptChanges == 0 <==> !AnyFrom(h, DiffersFrom(EdgeTranscript(h)))))
  {
    if h != [] {
      var init, o := h[..|h| - 1], h[|h| - 1];
      ChronologicalPrefix(h);
      PostTranscriptKnown(init);
      StatusStep(Track(init), o);
      BoundaryKnown(init);
      BoundaryKnown(h);
      if o.Status? { SideKnown(h); }
      if FirstEdge(init).Some? {
        EdgeTranscriptStays(h);
      } else {
        NothingFromBeforeEdge(init, DiffersFrom(EdgeTranscript(h)));
      }
    }
  }

  lemma {:induction false} NothingFromBeforeEdge(h: History, p: Observation -> bool)
    requires FirstEdge(h).None?
    ensures !AnyFrom(h, p) && !AnyAfter(h, p)
  {
    if h != [] { NothingFromBeforeEdge(h[..|h| - 1], p); }
  }

  /** The last enabled status seen before READY and the edge froze the transcript. */
  ghost function Frozen(h: History): (b: Option<nat>)
    ensures b.Some? ==> b.value < |h| && h[b.value].SeenEnabled()
  {
    if h == [] then None
    else if h[|h| - 1].SeenEnabled() && FirstEdge(h).None? && FirstReady(h[..|h| - 1]).None? then Some(|h| - 1)
    else Frozen(h[..|h| - 1])
  }

  lemma {:induction false} FrozenKnown(h: History)
    requires Chronological(h)
    ensures Track(h).status.lastEnabledTranscript
         == if Frozen(h).Some? then Some(h[Frozen(h).value].status.transcript) else None
  {
    if h != [] {
      var init, o := h[..|h| - 1], h[|h| - 1];
      ChronologicalPrefix(h);
      FrozenKnown(init);
      StatusStep(Track(init), o);
      ReadyKnown(init);
      BoundaryKnown(init);
      BoundaryKnown(h);
      if o.Status? { SideKnown(h); }
    }
  }

  lemma {:induction false} FrozenIsLast(h: History)
    requires FirstEdge(h).None? && (h != [] ==> FirstReady(h[..|h| - 1]).None?)
    ensures Frozen(h).None? ==> !Any(h, IsEnabled)
    ensures Frozen(h).Some? ==> IsBaseline(h, |h| - 1, Frozen(h).value)
  {
    if h != [] { FrozenIsLast(h[..|h| - 1]); }
  }

  lemma {:induction false} FrozenIsBaseline(h: History)
    requires Chronological(h) && FirstReady(h).Some?
    ensures FirstReady(h).value < |h| && Frozen(h).Some? && IsBaseline(h, FirstReady(h).value, Frozen(h).value)
  {
    var init := h[..|h| - 1];
    ChronologicalPrefix(h);
    if FirstReady(init).Some? {
      FrozenIsBaseline(init);
      var r, b := FirstReady(init).value, Frozen(init).value;
      assert h[b] == init[b];
      assert forall i :: b < i <= r ==> h[i] == init[i];
    } else {
      assert ReadyAfter(h, |h| - 1);
      FirstEdgeIsFirst(h);
      AnyExists(h, IsEnabled);
      FrozenIsLast(h);
    }
  }

  lemma {:induction false} MovedKnown(h: History)
    requires Chronological(h)
    ensures var moved := Track(h).status.transitionTranscriptChanged;
      && (FirstEdge(h).None? ==> !moved)
      && (FirstEdge(h).Some? ==>
            (moved <==> Frozen(h).Some? && h[Frozen(h).value].status.transcript != EdgeTranscript(h)))
  {
    if h != [] {
      var init, o := h[..|h| - 1], h[|h| - 1];
      ChronologicalPrefix(h);
      MovedKnown(init);
      FrozenKnown(init);
      StatusStep(Track(init), o);
      BoundaryKnown(init);
      BoundaryKnown(h);
      if FirstEdge(init).Some? { EdgeTranscriptStays(h); }
    }
  }

  // ----- Voice events -----

  const IsLate: Observation -> bool := (o: Observation) => o.LateVoice()

  /** Some observation after READY and before the edge satisfies p. */
  ghost predicate AnyBetween(h: History, p: Observation -> bool) {
    h != [] && ((FirstReady(h[..|h| - 1]).Some? && FirstEdge(h).None? && p(h[|h| - 1])) || AnyBetween(h[..|h| - 1], p))
  }

  lemma {:induction false} NothingBetweenBeforeReady(h: History, p: Observation -> bool)
    requires h != [] ==> FirstReady(h[..|h| - 1]).None?
    ensures !AnyBetween(h, p)
  {
    if h != [] {
      NothingBetweenBeforeReady(h[..|h| - 1], p);
    }
  }

  lemma EventsAdd(counts: EventCounts, kind: LateKind)
    ensures AnyEvent(AddEvent(counts, kind)) && !AnyEvent(NO_EVENTS)
  {
    AddEventCounts(counts, kind);
  }

  lemma {:induction false} LateKnown(h: History)
    requires Chronological(h)
    ensures AnyEvent(Track(h).voice.late) <==> AnyAfter(h, IsLate)
  {
    if h != [] {
      var init, o := h[..|h| - 1], h[|h| - 1];
      ChronologicalPrefix(h);
      LateKnown(init);
      VoiceStep(Track(init), o);
      if o.LateVoice() {
        SideKnown(h);
        EventsAdd(Track(init).voice.late, o.message.kind);
      }
    }
  }

  /** READY implies that the enabled mode was seen, so every later target event counts. */
  lemma {:induction false} ReadySawEnabled(h: History)
    requires Chronological(h) && FirstReady(h).Some?
    ensures Track(h).status.sawEnabled
  {
    ChronologicalPrefix(h);
    StatusStep(Track(h[..|h| - 1]), h[|h| - 1]);
    if FirstReady(h[..|h| - 1]).Some? {
      ReadySawEnabled(h[..|h| - 1]);
    } else {
      ReadyConditionsKnown(h);
    }
  }

  lemma {:induction false} PendingKnown(h: History)
    requires Chronological(h) && FirstReady(h).Some? && FirstEdge(h).None?
    ensures AnyEvent(Track(h).voice.pending) <==> AnyBetween(h, IsLate)
  {
    var init, o := h[..|h| - 1], h[|h| - 1];
    ChronologicalPrefix(h);
    VoiceStep(Track(init), o);
    ReadyKnown(init);
    ReadyKnown(h);
    if FirstReady(init).Some? {
      PendingKnown(init);
      ReadySawEnabled(init);
      BoundaryKnown(init);
      if o.LateVoice() { EventsAdd(Track(init).voice.pending, o.message.kind); }
      if o.Status? { BoundaryKnown(h); StatusStep(Track(init), o); }
    } else {
      NothingBetweenBeforeReady(h, IsLate);
    }
  }

  lemma {:induction false} WindowKnown(h: History)
    requires Chronological(h) && FirstReady(h).Some? && FirstEdge(h).Some?
    ensures AnyEvent(Track(h).voice.window) <==> AnyBetween(h, IsLate)
  {
    var init, o := h[..|h| - 1], h[|h| - 1];
    ChronologicalPrefix(h);
    VoiceStep(Track(init), o);
    StatusStep(Track(init), o);
    BoundaryKnown(init);
    BoundaryKnown(h);
    FirstEdgeIsFirst(h);
    if FirstEdge(init).Some? {
      WindowKnown(init);
    } else {
      PendingKnown(init);
    }
  }

  // ----- Back to positions -----

  lemma {:induction false} AfterPositions(h: History, p: Observation -> bool)
    requires FirstEdge(h).Some?
    ensures FirstEdge(h).value < |h|
    ensures AnyAfter(h, p) <==> exists i :: FirstEdge(h).value < i < |h| && p(h[i])
    ensures AnyFrom(h, p) <==> exists i :: FirstEdge(h).value <= i < |h| && p(h[i])
  {
    var init, d := h[..|h| - 1], FirstEdge(h).value;
    if FirstEdge(init).Some? {
      AfterPositions(init, p);
      assert forall i :: 0 <= i < |init| ==> init[i] == h[i];
    } else {
      NothingFromBeforeEdge(init, p);
    }
  }

  lemma {:induction false} BeforePositions(h: History, p: Observation -> bool)
    requires FirstEdge(h).Some?
    ensures FirstEdge(h).value < |h|
    ensures AnyBefore(h, p) <==> exists i :: 0 <= i < FirstEdge(h).value && p(h[i])
  {
    var init := h[..|h| - 1];
    if FirstEdge(init).Some? {
      BeforePositions(init, p);
    } else {
      NoEdgeBefore(init, p);
      AnyExists(init, p);
    }
  }

  lemma {:induction false} ReadyInside(h: History)
    requires FirstReady(h).Some?
    ensures FirstReady(h).value < |h|
  {
    if FirstReady(h[..|h| - 1]).Some? { ReadyInside(h[..|h| - 1]); }
  }

  lemma {:induction false} BetweenPositions(h: History, p: Observation -> bool)
    requires FirstReady(h).Some? && (FirstEdge(h).Some? ==> FirstEdge(h).value < |h|)
    ensures AnyBetween(h, p) <==>
      exists i :: FirstReady(h).value < i < (if FirstEdge(h).Some? then FirstEdge(h).value else |h|) && p(h[i])
  {
    var init := h[..|h| - 1];
    ReadyInside(h);
    FirstEdgeIsFirst(init);
    if FirstReady(init).Some? {
      ReadyInside(init);
      BetweenPositions(init, p);
      assert forall i :: 0 <= i < |init| ==> init[i] == h[i];
    } else {
      NothingBetweenBeforeReady(h, p);
      FirstEdgeIsFirst(h);
    }
  }

  lemma ReadyPrecedesEdge(h: History)
    requires FirstReady(h).Some? && FirstEdge(h).Some?
    ensures FirstReady(h).value < FirstEdge(h).value < |h|
  {
    FirstReadyIsFirst(h);
    FirstEdgeIsFirst(h);
  }

  lemma ReadyIsUnique(h: History, r: nat)
    requires IsFirstReady(h, r)
    ensures FirstReady(h) == Some(r)
  {
    FirstReadyIsFirst(h);
  }

  lemma EdgeIsUnique(h: History, d: nat)
    requires IsFirstEdge(h, d)
    ensures FirstEdge(h) == Some(d)
  {
    FirstEdgeIsFirst(h);
  }

  // ----- The main result -----

  /** The part of the verdict that does not depend on the boundary. */
  lemma CleanRunKnown(h: History)
    requires Chronological(h) && FirstEdge(h).Some?
    ensures var s := Track(h);
      CleanRun(h) <==>
        && s.connection.settingsLoaded && s.connection.connected && s.connection.covered && s.connection.observerErrors == 0
        && Faults(s.connection) == 0 && s.status.malformed == 0
        && s.plans.preIssues == 0 && s.plans.postUnavailable == 0 && s.plans.postMalformed == 0 && s.plans.postNonzero == 0
  {
    ConnectionKnown(h);
    MessagesKnown(h);
    BoundaryKnown(h);
    PlansKnown(h);
    AnyExists(h, IsSettings);
    AnyExists(h, IsConnected);
    AnyExists(h, IsCovered);
    AnyExists(h, IsError);
    AnyExists(h, IsBad);
    AnyExists(h, IsMalformedStatus);
    BeforePositions(h, IsPlanIssue);
    AfterPositions(h, IsPlanIssue);
    FirstEdgeIsFirst(h);
  }

  lemma GapsCovered(g: Gaps, times: seq<int>, finished: int)
    requires GapsMatch(g, times)
    ensures g.Effective(finished) <= MAX_SAMPLE_GAP <==> Covered(times, finished)
  {
  }

  lemma StatusesAfterEdge(h: History)
    requires Chronological(h) && FirstReady(h).Some? && FirstEdge(h).Some? && Frozen(h).Some?
    ensures var f, d, t := Track(h).status, FirstEdge(h).value, h[Frozen(h).value].status.transcript;
      QuietStatuses(h, d, t) <==>
        f.postUnavailable == 0 && f.reenabled == 0 && f.postTranscriptChanges == 0 && !f.transitionTranscriptChanged
  {
    FirstEdgeIsFirst(h);
    PostStatusKnown(h);
    PostTranscriptKnown(h);
    MovedKnown(h);
    AfterPositions(h, IsUnseen);
    AfterPositions(h, IsEnabled);
    AfterPositions(h, DiffersFrom(EdgeTranscript(h)));
  }

  lemma VoiceAfterReady(h: History)
    requires Chronological(h) && FirstReady(h).Some? && FirstEdge(h).Some?
    ensures (forall i :: FirstReady(h).value < i < |h| ==> !h[i].LateVoice())
            <==> !AnyEvent(Track(h).voice.late) && !AnyEvent(Track(h).voice.window)
  {
    ReadyPrecedesEdge(h);
    FirstEdgeIsFirst(h);
    LateKnown(h);
    WindowKnown(h);
    AfterPositions(h, IsLate);
    BetweenPositions(h, IsLate);
  }

  /** The part that describes READY, the edge and what follows. */
  lemma CancellationKnown(h: History)
    requires Chronological(h) && FirstReady(h).Some? && FirstEdge(h).Some?
    ensures Frozen(h).Some?
    ensures var s := Track(h);
      CleanCancellation(h, FirstReady(h).value, Frozen(h).value, FirstEdge(h).value) <==>
        && s.plans.post != 0 && s.status.postUnavailable == 0 && s.status.reenabled == 0
        && s.status.postTranscriptChanges == 0 && !s.status.transitionTranscriptChanged
        && !AnyEvent(s.voice.late) && !AnyEvent(s.voice.window)
  {
    ReadyPrecedesEdge(h);
    FirstReadyIsFirst(h);
    FirstEdgeIsFirst(h);
    FrozenIsBaseline(h);
    PlansKnown(h);
    AfterPositions(h, IsPlan);
    StatusesAfterEdge(h);
    VoiceAfterReady(h);
  }

  /**
   The verdict agrees with the history: for every chronological interleaving of the three
   observers the summary passes exactly on the histories of an accepted cancellation.
   */
  lemma VerdictIsAcceptance(h: History, finished: int)
    requires Chronological(h)
    ensures Verdict(Track(h), finished) <==> AcceptedHistory(h, finished)
  {
    var s := Track(h);
    BoundaryKnown(h);
    ReadyKnown(h);
    GapsKnown(h);
    GapsCovered(s.statusGaps, Times(h, StatusEndpoint), finished);
    GapsCovered(s.planGaps, Times(h, PlanEndpoint), finished);
    if FirstReady(h).Some? && FirstEdge(h).Some? {
      VerdictAfterEdge(h, finished);
    } else if AcceptedHistory(h, finished) {
      var r: nat, b: nat, d: nat :| CleanCancellation(h, r, b, d) && 25 * SECOND - 500 <= finished - h[d].at;
      ReadyIsUnique(h, r);
      EdgeIsUnique(h, d);
    }
  }

  /** With READY and the edge given, acceptance is about these positions. */
  lemma AcceptedPositions(h: History, finished: int)
    requires Chronological(h) && FirstReady(h).Some? && FirstEdge(h).Some? && Frozen(h).Some?
    requires FirstEdge(h).value < |h|
    ensures AcceptedHistory(h, finished) <==>
      && CleanRun(h) && Covered(Times(h, StatusEndpoint), finished) && Covered(Times(h, PlanEndpoint), finished)
      && CleanCancellation(h, FirstReady(h).value, Frozen(h).value, FirstEdge(h).value)
      && 25 * SECOND - 500 <= finished - h[FirstEdge(h).value].at
  {
    FrozenIsBaseline(h);
    if AcceptedHistory(h, finished) {
      var r: nat, b: nat, d: nat :| CleanCancellation(h, r, b, d) && 25 * SECOND - 500 <= finished - h[d].at;
      ReadyIsUnique(h, r);
      EdgeIsUnique(h, d);
      assert b == Frozen(h).value;
    }
  }

  lemma WindowKnownToEnd(at: int, finished: int)
    ensures PostDisableWindow(at, finished) <==> 25 * SECOND - 500 <= finished - at
  {
    RoundedWindow(if finished < at then 0 else finished - at);
  }

  lemma VerdictAfterEdge(h: History, finished: int)
    requires Chronological(h) && FirstReady(h).Some? && FirstEdge(h).Some?
    ensures Verdict(Track(h), finished) <==> AcceptedHistory(h, finished)
  {
    var s := Track(h);
    BoundaryKnown(h);
    ReadyKnown(h);
    GapsKnown(h);
    GapsCovered(s.statusGaps, Times(h, StatusEndpoint), finished);
    GapsCovered(s.planGaps, Times(h, PlanEndpoint), finished);
    CleanRunKnown(h);
    CancellationKnown(h);
    ImpliedByReady(h);
    WindowKnownToEnd(h[FirstEdge(h).value].at, finished);
    AcceptedPositions(h, finished);
  }

  /** Once READY and the edge exist these four conditions of the verdict hold by themselves. */
  lemma ImpliedByReady(h: History)
    requires Chronological(h) && FirstReady(h).Some? && FirstEdge(h).Some?
    ensures var s := Track(h);
      s.connection.accepted && s.status.sawEnabled && s.status.post != 0 && (s.plans.preIssues == 0 ==> s.plans.pre != 0)
  {
    ReadyPrecedesEdge(h);
    FirstReadyIsFirst(h);
    ConnectionKnown(h);
    BoundaryKnown(h);
    PlansKnown(h);
    PostStatusKnown(h);
    AnyExists(h, IsAccepted);
    AnyExists(h, IsEnabled);
    BeforePositions(h, IsPlan);
    AfterPositions(h, IsStatus);
  }

  // ----- The class -----

  datatype Reason =
    | ObserverInterrupted | SettingsNotLoaded | WebsocketNotConnected | WebsocketNotAccepted | WebsocketNotCovered
    | ReadyNotAnnounced | EnabledNotObserved | TransitionNotObserved | PostDisableTooShort
    | NoPostDisableStatus | NoPostDisablePlan | NoPreDisablePlan
    | TranscriptChangedAcrossBoundary | TranscriptChangedAfterDisable | Reenabled | StatusUnavailableAfterDisable
    | StatusSchemaMalformed | PlanBaselineNotZero | PlansUnavailableAfter | PlansMalformedAfter | PlansNonzeroAfter
    | StatusGapExceeded | PlanGapExceeded | VoiceAfterDisable | VoiceInTransition
    | WebsocketError | WebsocketMalformed | WebsocketUnknownKind | ObserverRuntimeError

  function Note(reasons: seq<Reason>, failed: bool, reason: Reason): (r: seq<Reason>)
    ensures r == [] <==> reasons == [] && !failed
  {
    if failed then reasons + [reason] else reasons
  }

  /** The tracker's fields, in the groups that change together, and the ghost history. */
  class AcceptanceTracker {
    var connection: Connection
    var operatorReadyAnnounced: bool
    var status: StatusFields
    var plans: PlanCounters
    var voice: VoiceCounters
    var statusGaps: Gaps
    var planGaps: Gaps
    ghost var history: History

    ghost function Abstract(): Fields
      reads this
    {
      Fields(connection, operatorReadyAnnounced, status, plans, voice, statusGaps, planGaps)
    }

    /** The fields are what the chronological history makes them. */
    ghost predicate Valid()
      reads this
    {
      Chronological(history) && Abstract() == Track(history)
    }

    constructor ()
      ensures Valid() && history == []
    {
      connection, operatorReadyAnnounced, status := INITIAL.connection, false, INITIAL.status;
      plans, voice, statusGaps, planGaps := INITIAL.plans, INITIAL.voice, INITIAL.statusGaps, INITIAL.planGaps;
      history := [];
    }

    predicate IsPostDisable(at: int)
      reads `status
      ensures IsPostDisable(at) == PostDisable(status.disableAt, at)
    {
      status.disableAt.Some? && at >= status.disableAt.value
    }

    /** A status that is malformed or unavailable. */
    method ObserveUnusableStatus(malformed: bool, at: int)
      modifies `status
      ensures status == StepStatus(old(status), if malformed then StatusMalformed else StatusUnavailable, at, operatorReadyAnnounced)
    {
      if malformed {
        status := status.(malformed := status.malformed + 1);
      }
      if IsPostDisable(at) {
        status := status.(post := status.post + 1, postUnavailable := status.postUnavailable + 1);
      }
    }

    /** The first confirmed disabled sample after an enabled one. */
    method MarkTransition(transcript: string, at: int)
      modifies `status, `voice
      ensures status == old(status).(disableAt := Some(at), postTranscript := Some(transcript),
                transitionTranscriptChanged := old(status).transitionTranscriptChanged
                  || (old(status).lastEnabledTranscript.Some? && old(status).lastEnabledTranscript.value != transcript))
      ensures voice == old(voice).(window := old(voice).pending)
    {
      status := status.(disableAt := Some(at), postTranscript := Some(transcript));
      if status.lastEnabledTranscript.Some? && transcript != status.lastEnabledTranscript.value {
        status := status.(transitionTranscriptChanged := true);
      }
      voice := voice.(window := voice.pending);
    }

    method CountPostDisable(enabled: bool, transcript: string)
      modifies `status
      ensures status == var f := old(status); f.(
                post := f.post + 1, postTranscript := Some(transcript), reenabled := f.reenabled + (if enabled then 1 else 0),
                postTranscriptChanges := f.postTranscriptChanges
                  + (if f.postTranscript.Some? && f.postTranscript.value != transcript then 1 else 0))
    {
      status := status.(post := status.post + 1);
      if enabled {
        status := status.(reenabled := status.reenabled + 1);
      }
      if status.postTranscript.Some? && transcript != status.postTranscript.value {
        status := status.(postTranscriptChanges := status.postTranscriptChanges + 1);
      }
      status := status.(postTranscript := Some(transcript));
    }

    /** A usable status; it may be the transition, and from then on it is checked against it. */
    method ObserveUsableStatus(enabled: bool, transcript: string, at: int)
      modifies `status, `voice
      ensures status == StepStatus(old(status), Available(enabled, transcript), at, operatorReadyAnnounced)
      ensures voice == StepVoiceOnStatus(old(voice), old(status), Available(enabled, transcript), at, operatorReadyAnnounced)
    {
      if status.previousEnabled == Some(true) && !enabled && status.disableAt.None? {
        MarkTransition(transcript, at);
      }
      var post := IsPostDisable(at);
      if post {
        CountPostDisable(enabled, transcript);
      }
      if enabled {
        status := status.(sawEnabled := true);
        if !post && !operatorReadyAnnounced {
          status := status.(lastEnabledTranscript := Some(transcript));
          voice := voice.(pending := NO_EVENTS);
        }
      }
      status := status.(previousEnabled := Some(enabled));
    }

    method ObserveStatus(reading: StatusReading, at: int)
      modifies `statusGaps, `status, `voice
      ensures Abstract() == AfterStatus(old(Abstract()), reading, at)
    {
      statusGaps := statusGaps.Sample(at);
      match reading
      case Available(enabled, transcript) => ObserveUsableStatus(enabled, transcript, at);
      case _ => ObserveUnusableStatus(reading.StatusMalformed?, at);
    }

    method ObservePlans(reading: PlanReading, at: int)
      modifies `planGaps, `plans
      ensures Abstract() == AfterPlans(old(Abstract()), reading, at)
    {
      planGaps := planGaps.Sample(at);
      if !IsPostDisable(at) {
        plans := plans.(pre := plans.pre + 1);
        if reading != PlanCount(0) {
          plans := plans.(preIssues := plans.preIssues + 1);
        }
      } else {
        plans := plans.(post := plans.post + 1);
        match reading
        case PlansUnavailable => plans := plans.(postUnavailable := plans.postUnavailable + 1);
        case PlansMalformed => plans := plans.(postMalformed := plans.postMalformed + 1);
        case PlanCount(count) =>
          if count != 0 {
            plans := plans.(postNonzero := plans.postNonzero + 1);
          }
      }
    }

    method CountMessage(message: SocketReading)
      modifies `connection
      ensures connection == StepConnection(old(connection), message)
    {
      match message
      case Accepted =>
        connection := connection.(accepted := true);
      case ErrorMessage(wellFormed) =>
        connection := connection.(errorMessages := connection.errorMessages + 1);
        if !wellFormed {
          connection := connection.(malformedMessages := connection.malformedMessages + 1);
        }
      case VoiceError =>
        connection := connection.(errorMessages := connection.errorMessages + 1);
      case UnknownVoice =>
        connection := connection.(unknownMessages := connection.unknownMessages + 1);
      case MessageMalformed =>
        connection := connection.(malformedMessages := connection.malformedMessages + 1);
      case OtherVoice =>
      case Late(_) =>
    }

    method ObserveWebsocket(message: SocketReading, at: int)
      modifies `connection, `voice
      ensures Abstract() == AfterMessage(old(Abstract()), message, at)
    {
      CountMessage(message);
      if message.Late? {
        if IsPostDisable(at) {
          voice := voice.(late := AddEvent(voice.late, message.kind));
        } else if status.sawEnabled && status.disableAt.None? {
          voice := voice.(pending := AddEvent(voice.pending, message.kind));
        }
      }
    }

    method AnnounceReadyIfNeeded()
      modifies `operatorReadyAnnounced, `voice
      ensures Abstract() == Announce(old(Abstract()))
    {
      if operatorReadyAnnounced || !connection.accepted || !status.sawEnabled || plans.pre == 0
         || plans.preIssues != 0 || status.disableAt.Some? {
        return;
      }
      operatorReadyAnnounced := true;
      voice := voice.(pending := NO_EVENTS);
    }

    /** No earlier observation has a later time; the three observers share one event loop. */
    ghost predicate InOrder(at: int)
      reads this
    {
      forall i :: 0 <= i < |history| && history[i].Timed() ==> history[i].at <= at
    }

    ghost method Remember(o: Observation)
      requires Chronological(history) && Abstract() == Step(Track(history), o)
      requires o.Timed() ==> InOrder(o.at)
      modifies this`history
      ensures Valid() && history == old(history) + [o]
    {
      TrackAppend(history, o);
      history := history + [o];
    }

    method AcceptStatus(reading: StatusReading, at: int)
      requires Valid() && InOrder(at)
      modifies this
      ensures Valid() && history == old(history) + [Status(reading, at)]
    {
      ObserveStatus(reading, at);
      AnnounceReadyIfNeeded();
      Remember(Status(reading, at));
    }

    method AcceptPlans(reading: PlanReading, at: int)
      requires Valid() && InOrder(at)
      modifies this
      ensures Valid() && history == old(history) + [Plans(reading, at)]
    {
      ObservePlans(reading, at);
      AnnounceReadyIfNeeded();
      Remember(Plans(reading, at));
    }

    method AcceptMessage(reading: SocketReading, at: int)
      requires Valid() && InOrder(at)
      modifies this
      ensures Valid() && history == old(history) + [Socket(reading, at)]
    {
      ObserveWebsocket(reading, at);
      AnnounceReadyIfNeeded();
      Remember(Socket(reading, at));
    }

    /** A status reply: the observation, then READY if it is due. */
    method OnStatus(payload: Payload, at: int)
      requires Valid() && InOrder(at)
      modifies this
      ensures Valid() && history == old(history) + [Status(ReadStatus(payload), at)]
    {
      AcceptStatus(ReadStatus(payload), at);
    }

    method OnPlans(payload: Payload, at: int)
      requires Valid() && InOrder(at)
      modifies this
      ensures Valid() && history == old(history) + [Plans(ReadPlans(payload), at)]
    {
      AcceptPlans(ReadPlans(payload), at);
    }

    method OnMessage(payload: Payload, at: int)
      requires Valid() && InOrder(at)
      modifies this
      ensures Valid() && history == old(history) + [Socket(ReadSocket(payload), at)]
    {
      AcceptMessage(ReadSocket(payload), at);
    }

    method ObserveError()
      requires Valid()
      modifies this
      ensures Valid() && history == old(history) + [ObserverError]
    {
      connection := connection.(observerErrors := connection.observerErrors + 1);
      Remember(ObserverError);
    }

    method MarkSettingsLoaded()
      requires Valid()
      modifies this
      ensures Valid() && history == old(history) + [SettingsLoaded]
    {
      connection := connection.(settingsLoaded := true);
      Remember(SettingsLoaded);
    }

    method MarkConnected()
      requires Valid()
      modifies this
      ensures Valid() && history == old(history) + [SocketConnected]
    {
      connection := connection.(connected := true);
      Remember(SocketConnected);
    }

    method MarkCovered()
      requires Valid()
      modifies this
      ensures Valid() && history == old(history) + [SocketCovered]
    {
      connection := connection.(covered := true);
      Remember(SocketCovered);
    }

    /** The summary passes exactly on an uninterrupted, accepted history. */
    method Summary(finished: int, interrupted: bool) returns (reasons: seq<Reason>)
      requires Valid()
      ensures reasons == [] <==> !interrupted && AcceptedHistory(history, finished)
    {
      var late, window := AnyEvent(voice.late), AnyEvent(voice.window);
      var statusGap := statusGaps.Effective(finished);
      var planGap := planGaps.Effective(finished);
      reasons := Note([], interrupted, ObserverInterrupted);
      reasons := Note(reasons, !connection.settingsLoaded, SettingsNotLoaded);
      reasons := Note(reasons, !connection.connected, WebsocketNotConnected);
      reasons := Note(reasons, !connection.accepted, WebsocketNotAccepted);
      reasons := Note(reasons, !connection.covered, WebsocketNotCovered);
      reasons := Note(reasons, !operatorReadyAnnounced, ReadyNotAnnounced);
      reasons := Note(reasons, !status.sawEnabled, EnabledNotObserved);
      if status.disableAt.None? {
        reasons := Note(reasons, true, TransitionNotObserved);
      } else {
        reasons := Note(reasons, !PostDisableWindow(status.disableAt.value, finished), PostDisableTooShort);
      }
      reasons := Note(reasons, status.post == 0, NoPostDisableStatus);
      reasons := Note(reasons, plans.post == 0, NoPostDisablePlan);
      reasons := Note(reasons, plans.pre == 0, NoPreDisablePlan);
      reasons := Note(reasons, status.transitionTranscriptChanged, TranscriptChangedAcrossBoundary);
      reasons := Note(reasons, status.postTranscriptChanges != 0, TranscriptChangedAfterDisable);
      reasons := Note(reasons, status.reenabled != 0, Reenabled);
      reasons := Note(reasons, status.postUnavailable != 0, StatusUnavailableAfterDisable);
      reasons := Note(reasons, status.malformed != 0, StatusSchemaMalformed);
      reasons := Note(reasons, plans.preIssues != 0, PlanBaselineNotZero);
      reasons := Note(reasons, plans.postUnavailable != 0, PlansUnavailableAfter);
      reasons := Note(reasons, plans.postMalformed != 0, PlansMalformedAfter);
      reasons := Note(reasons, plans.postNonzero != 0, PlansNonzeroAfter);
      reasons := Note(reasons, statusGap > MAX_SAMPLE_GAP, StatusGapExceeded);
      reasons := Note(reasons, planGap > MAX_SAMPLE_GAP, PlanGapExceeded);
      reasons := Note(reasons, late, VoiceAfterDisable);
      reasons := Note(reasons, window, VoiceInTransition);
      reasons := Note(reasons, connection.errorMessages != 0, WebsocketError);
      reasons := Note(reasons, connection.malformedMessages != 0, WebsocketMalformed);
      reasons := Note(reasons, connection.unknownMessages != 0, WebsocketUnknownKind);
      reasons := Note(reasons, connection.observerErrors != 0, ObserverRuntimeError);
      assert reasons == [] <==> !interrupted && Verdict(Abstract(), finished);
      VerdictIsAcceptance(history, finished);
    }
  }
}
