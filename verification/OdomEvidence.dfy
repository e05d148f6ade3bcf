/**
 The stationary odometry observer of scripts/observe_canonical_odom_stationary_readonly.py.
 Times are integers in nanoseconds.  The tracker keeps counters and last-seen stamps message by
 message; its verdict is proved to be a statement about the whole history of messages.
 */
module OdomEvidence {
  datatype Option<+T> = None | Some(value: T)

  const RETAINED: nat := 1_000_000
  const SECOND: nat := 1_000_000_000

  datatype Reason =
    | SampleRetentionLimit | NonMonotonicReceipt | Malformed | InvalidStamp | NonMonotonicSource
    | StaleSource | FutureSource | FrameMismatch | ChildFrameMismatch | NonFinitePose | NonFiniteTwist
    | NonFiniteCovariance | InvalidQuaternion

  /** A message with its two receipt times; the flags say whether each part of it is as it should be. */
  datatype Message = Message(
    parses: bool, covarianceSizes: bool, sec: int, nanosec: int, frame: bool, childFrame: bool,
    pose: bool, twist: bool, covariance: bool, quaternion: bool, receipt: int, realtime: int)
  {
    function Source(): int {
      sec * SECOND + nanosec
    }

    predicate StampFits() {
      sec >= 0 && 0 <= nanosec < SECOND
    }
  }

  datatype Sample = Sample(receipt: int, source: int)

  datatype Limits = Limits(gap: int, maxAge: int, futureSkew: int)

  // ----- The history -----

  /** A message that is fine by itself. */
  predicate Sound(m: Message, l: Limits) {
    && m.parses && m.covarianceSizes
    && m.StampFits() && m.Source() > 0
    && -l.futureSkew <= m.realtime - m.Source() <= l.maxAge
    && m.frame && m.childFrame && m.pose && m.twist && m.covariance && m.quaternion
  }

  predicate Follows(m: Message, previous: Message) {
    m.receipt > previous.receipt && m.Source() > previous.Source()
  }

  /** Every message was sound and came, by both clocks, after the one before. */
  ghost predicate AllGood(h: seq<Message>, l: Limits) {
    h != [] ==>
      var init, last := h[..|h| - 1], h[|h| - 1];
      && AllGood(init, l)
      && |h| <= RETAINED && Sound(last, l)
      && (init != [] ==> Follows(last, init[|init| - 1]))
  }

  lemma {:induction false} GoodAt(h: seq<Message>, l: Limits, i: nat)
    requires AllGood(h, l) && i < |h|
    ensures |h| <= RETAINED && Sound(h[i], l) && (i > 0 ==> Follows(h[i], h[i - 1]))
  {
    if i < |h| - 1 {
      GoodAt(h[..|h| - 1], l, i);
    }
  }

  function SampleOf(m: Message): Sample {
    Sample(m.receipt, m.Source())
  }

  function SamplesOf(h: seq<Message>): (s: seq<Sample>)
    ensures |s| == |h| && forall i :: 0 <= i < |h| ==> s[i] == SampleOf(h[i])
  {
    seq(|h|, i requires 0 <= i < |h| => SampleOf(h[i]))
  }

  /** Later samples are later by both clocks. */
  ghost predicate Increasing(s: seq<Sample>) {
    forall i, j :: 0 <= i < j < |s| ==> s[i].receipt < s[j].receipt && s[i].source < s[j].source
  }

  /** The gaps between neighbours. */
  function Gaps(times: seq<int>): (gaps: seq<int>)
    ensures |gaps| == if |times| == 0 then 0 else |times| - 1
  {
    if |times| <= 1 then [] else Gaps(times[..|times| - 1]) + [times[|times| - 1] - times[|times| - 2]]
  }

  function Receipts(s: seq<Sample>): (t: seq<int>)
    ensures |t| == |s| && forall i :: 0 <= i < |s| ==> t[i] == s[i].receipt
  {
    seq(|s|, i requires 0 <= i < |s| => s[i].receipt)
  }

  function Sources(s: seq<Sample>): (t: seq<int>)
    ensures |t| == |s| && forall i :: 0 <= i < |s| ==> t[i] == s[i].source
  {
    seq(|s|, i requires 0 <= i < |s| => s[i].source)
  }

  function Sum(s: seq<int>): int {
    if s == [] then 0 else Sum(s[..|s| - 1]) + s[|s| - 1]
  }

  /** The gaps add up to the span. */
  lemma {:induction false} GapsAddUp(times: seq<int>)
    requires times != []
    ensures Sum(Gaps(times)) == times[|times| - 1] - times[0]
  {
    if |times| > 1 {
      GapsAddUp(times[..|times| - 1]);
      var init := Gaps(times[..|times| - 1]);
      assert Gaps(times)[..|init|] == init;
    }
  }

  lemma {:induction false} GapAt(times: seq<int>, i: nat)
    requires i + 1 < |times|
    ensures Gaps(times)[i] == times[i + 1] - times[i]
  {
    if i + 2 < |times| {
      GapAt(times[..|times| - 1], i);
    }
  }

  lemma {:induction false} GapsSnoc(times: seq<int>, t: int)
    ensures Gaps(times + [t]) == if times == [] then [] else Gaps(times) + [t - times[|times| - 1]]
  {
    if times != [] {
      var longer, n := times + [t], |times|;
      assert longer[..n] == times && longer[n] == t && longer[n - 1] == times[n - 1];
      assert Gaps(longer) == Gaps(longer[..n]) + [longer[n] - longer[n - 1]];
    }
  }

  lemma {:induction false} AllGoodSnoc(h: seq<Message>, m: Message, l: Limits)
    ensures AllGood(h + [m], l) <==>
      AllGood(h, l) && |h| + 1 <= RETAINED && Sound(m, l) && (h != [] ==> Follows(m, h[|h| - 1]))
  {
    assert (h + [m])[..|h|] == h;
  }

  lemma SamplesSnoc(h: seq<Message>, m: Message)
    ensures SamplesOf(h + [m]) == SamplesOf(h) + [SampleOf(m)]
  {
  }

  lemma TimesSnoc(s: seq<Sample>, x: Sample)
    ensures Receipts(s + [x]) == Receipts(s) + [x.receipt] && Sources(s + [x]) == Sources(s) + [x.source]
  {
  }

  lemma IncreasingSnoc(s: seq<Sample>, x: Sample)
    requires Increasing(s)
    requires s != [] ==> s[|s| - 1].receipt < x.receipt && s[|s| - 1].source < x.source
    ensures Increasing(s + [x])
  {
    forall i, j | 0 <= i < j < |s + [x]| ensures (s + [x])[i].receipt < (s + [x])[j].receipt && (s + [x])[i].source < (s + [x])[j].source {
      if j == |s| && i < |s| - 1 {
        assert s[i].receipt < s[|s| - 1].receipt && s[i].source < s[|s| - 1].source;
      }
    }
  }

  // ----- What the tracker keeps -----

  /** The retained samples with their gaps, and the stamps of the last of them. */
  datatype Book = Book(
    samples: seq<Sample>, receiptGaps: seq<int>, sourceGaps: seq<int>, lastReceipt: Option<int>, lastSource: Option<int>)

  /** The newest stamps seen so far, retained or not. */
  datatype Seen = Seen(firstReceipt: Option<int>, lastReceipt: Option<int>, lastSource: Option<int>)

  datatype Tally = Tally(received: nat, valid: nat, invalid: nat, reasons: multiset<Reason>)

  /** The samples increase by both clocks, and the gap lists are their gaps. */
  ghost predicate Consistent(b: Book) {
    var s := b.samples;
    && Increasing(s)
    && b.receiptGaps == Gaps(Receipts(s)) && b.sourceGaps == Gaps(Sources(s))
    && b.lastReceipt == (if s == [] then None else Some(s[|s| - 1].receipt))
    && b.lastSource == (if s == [] then None else Some(s[|s| - 1].source))
  }

  function Retained(b: Book, x: Sample): Book {
    Book(b.samples + [x],
      if b.lastReceipt.Some? then b.receiptGaps + [x.receipt - b.lastReceipt.value] else b.receiptGaps,
      if b.lastSource.Some? then b.sourceGaps + [x.source - b.lastSource.value] else b.sourceGaps,
      Some(x.receipt), Some(x.source))
  }

  lemma {:induction false} RetainedIsConsistent(b: Book, x: Sample)
    requires Consistent(b)
    requires b.lastReceipt.Some? ==> x.receipt > b.lastReceipt.value
    requires b.lastSource.Some? ==> x.source > b.lastSource.value
    ensures Consistent(Retained(b, x))
  {
    IncreasingSnoc(b.samples, x);
    GapsOfMore(b.samples, x);
  }

  lemma {:induction false} GapsOfMore(s: seq<Sample>, x: Sample)
    ensures Gaps(Receipts(s + [x])) == if s == [] then [] else Gaps(Receipts(s)) + [x.receipt - s[|s| - 1].receipt]
    ensures Gaps(Sources(s + [x])) == if s == [] then [] else Gaps(Sources(s)) + [x.source - s[|s| - 1].source]
  {
    TimesSnoc(s, x);
    GapsSnoc(Receipts(s), x.receipt);
    GapsSnoc(Sources(s), x.source);
  }

  /** No retained stamp is ahead of the newest seen. */
  predicate Bounded(b: Book, n: Seen) {
    && (b.lastReceipt.Some? ==> n.lastReceipt.Some? && b.lastReceipt.value <= n.lastReceipt.value)
    && (b.lastSource.Some? ==> n.lastSource.Some? && b.lastSource.value <= n.lastSource.value)
  }

  /** Nothing is wrong with a message that arrives in this state. */
  predicate Fits(m: Message, l: Limits, n: Seen, t: Tally) {
    && t.received < RETAINED
    && Sound(m, l)
    && (n.lastReceipt.Some? ==> m.receipt > n.lastReceipt.value)
    && (n.lastSource.Some? ==> m.Source() > n.lastSource.value)
  }

  /** The newest stamps after a message, which need not be a good one. */
  predicate Advances(n: Seen, n': Seen, m: Message) {
    && n'.lastReceipt == (if n.lastReceipt.None? || m.receipt > n.lastReceipt.value then Some(m.receipt) else n.lastReceipt)
    && (n.lastSource.Some? ==> n'.lastSource.Some? && n'.lastSource.value >= n.lastSource.value)
  }

  /** Nothing was refused means that all was good, and then the samples are the messages. */
  ghost predicate Judged(h: seq<Message>, l: Limits, t: Tally, s: seq<Sample>, n: Seen) {
    && t.received == |h| && t.valid + t.invalid == |h| && t.valid == |s|
    && (t.invalid == 0 <==> AllGood(h, l))
    && (t.invalid == 0 ==> t.reasons == multiset{} && s == SamplesOf(h))
    && (t.invalid == 0 && h != [] ==>
          n.lastReceipt == Some(h[|h| - 1].receipt) && n.lastSource == Some(h[|h| - 1].Source()))
    && (t.invalid == 0 && h == [] ==> n.lastReceipt == None && n.lastSource == None)
  }

  lemma AcceptedIsJudged(h: seq<Message>, m: Message, l: Limits, t: Tally, s: seq<Sample>, n: Seen, n': Seen)
    requires Judged(h, l, t, s, n) && Fits(m, l, n, t)
    requires n'.lastReceipt == Some(m.receipt) && n'.lastSource == Some(m.Source())
    ensures Judged(h + [m], l, t.(received := t.received + 1, valid := t.valid + 1), s + [SampleOf(m)], n')
  {
    AllGoodSnoc(h, m, l);
    SamplesSnoc(h, m);
  }

  lemma RefusedIsJudged(h: seq<Message>, m: Message, l: Limits, t: Tally, s: seq<Sample>, n: Seen, n': Seen, more: multiset<Reason>)
    requires Judged(h, l, t, s, n) && !Fits(m, l, n, t)
    ensures Judged(h + [m], l, Tally(t.received + 1, t.valid, t.invalid + 1, t.reasons + more), s, n')
  {
    AllGoodSnoc(h, m, l);
  }

  // ----- The tracker -----

  class CanonicalOdomTracker {
    const limits: Limits

    var tally: Tally
    var book: Book
    var seen: Seen
    ghost var history: seq<Message>

    constructor (limits: Limits)
      ensures Valid() && history == [] && this.limits == limits
    {
      this.limits := limits;
      tally, history := Tally(0, 0, 0, multiset{}), [];
      book, seen := Book([], [], [], None, None), Seen(None, None, None);
    }

    ghost predicate Valid() reads this {
      Consistent(book) && Bounded(book, seen) && Judged(history, limits, tally, book.samples, seen)
    }

    // ----- One message -----

    method CheckReceipt(m: Message) returns (found: seq<Reason>)
      modifies this`seen
      ensures found == [] <==> old(seen).lastReceipt.Some? ==> m.receipt > old(seen).lastReceipt.value
      ensures Advances(old(seen), seen, m) && seen.lastSource == old(seen).lastSource
    {
      found := [];
      if seen.firstReceipt.None? { seen := seen.(firstReceipt := Some(m.receipt)); }
      if seen.lastReceipt.Some? && m.receipt <= seen.lastReceipt.value {
        found := [NonMonotonicReceipt];
      }
      if seen.lastReceipt.None? || m.receipt > seen.lastReceipt.value {
        seen := seen.(lastReceipt := Some(m.receipt));
      }
    }

    /** The stamp is compared with the last good one, which it replaces, and with the real time. */
    method CheckStamp(m: Message) returns (found: seq<Reason>)
      modifies this`seen
      ensures found == [] <==>
        && m.StampFits() && m.Source() > 0
        && (old(seen).lastSource.Some? ==> m.Source() > old(seen).lastSource.value)
        && -limits.futureSkew <= m.realtime - m.Source() <= limits.maxAge
      ensures seen == old(seen).(lastSource := seen.lastSource)
      ensures old(seen).lastSource.Some? ==> seen.lastSource.Some? && seen.lastSource.value >= old(seen).lastSource.value
      ensures found == [] ==> seen.lastSource == Some(m.Source())
    {
      if !m.StampFits() { return [InvalidStamp]; }
      var source := m.Source();
      found := [];
      if source <= 0 {
        found := [InvalidStamp];
      } else if seen.lastSource.Some? && source <= seen.lastSource.value {
        found := [NonMonotonicSource];
      } else {
        seen := seen.(lastSource := Some(source));
      }
      if source > 0 {
        var age := m.realtime - source;
        if age > limits.maxAge {
          found := found + [StaleSource];
        } else if age < -limits.futureSkew {
          found := found + [FutureSource];
        }
      }
    }

    static method CheckContents(m: Message) returns (found: seq<Reason>)
      ensures found == [] <==> m.frame && m.childFrame && m.pose && m.twist && m.covariance && m.quaternion
    {
      found := [];
      if !m.frame { found := found + [FrameMismatch]; }
      if !m.childFrame { found := found + [ChildFrameMismatch]; }
      if !m.pose { found := found + [NonFinitePose]; }
      if !m.twist { found := found + [NonFiniteTwist]; }
      if !m.covariance { found := found + [NonFiniteCovariance]; }
      if !m.quaternion { found := found + [InvalidQuaternion]; }
    }

    /** All that is wrong with a message; the last-seen stamps move on even so. */
    method Check(m: Message) returns (found: seq<Reason>)
      modifies this`seen
      ensures found == [] <==> Fits(m, limits, old(seen), tally)
      ensures Advances(old(seen), seen, m)
      ensures found == [] ==> seen.lastReceipt == Some(m.receipt) && seen.lastSource == Some(m.Source())
    {
      found := if tally.received >= RETAINED then [SampleRetentionLimit] else [];
      var more := CheckReceipt(m);
      found := found + more;
      if !m.parses { return [Malformed] + found; }
      if !m.covarianceSizes { found := found + [Malformed]; }
      more := CheckStamp(m);
      found := found + more;
      more := CheckContents(m);
      found := found + more;
    }

    method Retain(m: Message)
      modifies this`book
      ensures book == Retained(old(book), SampleOf(m))
    {
      if book.lastReceipt.Some? {
        book := book.(receiptGaps := book.receiptGaps + [m.receipt - book.lastReceipt.value]);
      }
      if book.lastSource.Some? {
        book := book.(sourceGaps := book.sourceGaps + [m.Source() - book.lastSource.value]);
      }
      book := book.(lastReceipt := Some(m.receipt), lastSource := Some(m.Source()), samples := book.samples + [SampleOf(m)]);
    }

    /** A message is refused for every reason found, or retained as a sample. */
    method Observe(m: Message) returns (accepted: bool)
      requires Valid()
      modifies this
      ensures Valid() && history == old(history) + [m]
      ensures accepted <==> Fits(m, limits, old(seen), old(tally))
      ensures book == if accepted then Retained(old(book), SampleOf(m)) else old(book)
    {
      var found := Check(m);
      accepted := found == [];
      if accepted {
        AcceptedIsJudged(history, m, limits, tally, book.samples, old(seen), seen);
        RetainedIsConsistent(book, SampleOf(m));
        Retain(m);
        tally := tally.(received := tally.received + 1, valid := tally.valid + 1);
      } else {
        RefusedIsJudged(history, m, limits, tally, book.samples, old(seen), seen, multiset(found));
        tally := Tally(tally.received + 1, tally.valid, tally.invalid + 1, tally.reasons + multiset(found));
      }
      history := history + [m];
    }
  }

  // ----- The verdict -----

  /** How the observation was run and ended. */
  datatype Run = Run(duration: int, finish: int, elapsed: bool, subscriptions: nat, failed: bool, cleanupFailed: bool)

  /** What the command line demands of duration and gap threshold. */
  predicate ValidWindow(r: Run, l: Limits) {
    0 < l.gap && 2 * l.gap < r.duration
  }

  ghost predicate GapsWithin(h: seq<Message>, gap: int) {
    forall i :: 0 < i < |h| ==> h[i].receipt - h[i - 1].receipt <= gap && h[i].Source() - h[i - 1].Source() <= gap
  }

  /** The verdict as a statement about the run and everything that was received in it. */
  ghost predicate ObserverValid(h: seq<Message>, l: Limits, r: Run) {
    && r.elapsed && r.subscriptions == 1 && !r.failed && !r.cleanupFailed
    && |h| >= 2 && AllGood(h, l) && GapsWithin(h, l.gap)
    && h[|h| - 1].receipt - h[0].receipt >= r.duration - 2 * l.gap
    && r.finish - h[|h| - 1].receipt <= l.gap
  }

  ghost predicate AllAtMost(gaps: seq<int>, limit: int) {
    forall i :: 0 <= i < |gaps| ==> gaps[i] <= limit
  }

  method Maximum(gaps: seq<int>) returns (m: Option<int>)
    ensures m.None? <==> gaps == []
    ensures m.Some? ==> m.value in gaps && AllAtMost(gaps, m.value)
  {
    if gaps == [] { return None; }
    var best := gaps[0];
    for i := 1 to |gaps|
      invariant best in gaps && AllAtMost(gaps[..i], best)
    {
      if gaps[i] > best { best := gaps[i]; }
    }
    assert gaps[..|gaps|] == gaps;
    m := Some(best);
  }

  lemma GapsOfSamples(h: seq<Message>, gap: int)
    ensures AllAtMost(Gaps(Receipts(SamplesOf(h))), gap) && AllAtMost(Gaps(Sources(SamplesOf(h))), gap) <==> GapsWithin(h, gap)
  {
    var r, q := Receipts(SamplesOf(h)), Sources(SamplesOf(h));
    forall i | 0 <= i < |h| - 1
      ensures Gaps(r)[i] == h[i + 1].receipt - h[i].receipt && Gaps(q)[i] == h[i + 1].Source() - h[i].Source()
    {
      GapAt(r, i);
      GapAt(q, i);
    }
    if AllAtMost(Gaps(r), gap) && AllAtMost(Gaps(q), gap) {
      forall i | 0 < i < |h| ensures h[i].receipt - h[i - 1].receipt <= gap && h[i].Source() - h[i - 1].Source() <= gap {
        assert Gaps(r)[i - 1] <= gap && Gaps(q)[i - 1] <= gap;
      }
    }
    if GapsWithin(h, gap) {
      forall i | 0 <= i < |h| - 1 ensures Gaps(r)[i] <= gap && Gaps(q)[i] <= gap {
        assert h[i + 1].receipt - h[i].receipt <= gap && h[i + 1].Source() - h[i].Source() <= gap;
      }
    }
  }

  method WithinThreshold(gaps: seq<int>, threshold: int) returns (ok: bool)
    ensures ok <==> gaps != [] && AllAtMost(gaps, threshold)
  {
    var m := Maximum(gaps);
    ok := m.Some? && m.value <= threshold;
    if m.Some? {
      ghost var i :| 0 <= i < |gaps| && gaps[i] == m.value;
      assert AllAtMost(gaps, threshold) ==> gaps[i] <= threshold;
    }
  }

  /** The checks on the tracker at the end of a run. */
  method ObserverVerdict(t: CanonicalOdomTracker, r: Run) returns (ok: bool)
    requires t.Valid() && ValidWindow(r, t.limits)
    ensures ok <==> ObserverValid(t.history, t.limits, r)
  {
    var samples, gap := t.book.samples, t.limits.gap;
    var receiptGaps := WithinThreshold(t.book.receiptGaps, gap);
    var sourceGaps := WithinThreshold(t.book.sourceGaps, gap);
    var span := if |samples| < 2 then 0 else Larger(0, samples[|samples| - 1].receipt - samples[0].receipt);
    var minimumSpan := Larger(0, r.duration - 2 * gap);
    var age := if samples == [] then None else Some(Larger(0, r.finish - samples[|samples| - 1].receipt));
    ok := r.elapsed
      && t.tally.valid >= 2
      && t.tally.received > 0 && t.tally.invalid == 0
      && r.subscriptions == 1
      && span >= minimumSpan
      && receiptGaps && sourceGaps
      && age.Some? && age.value <= gap
      && ReasonsAbsent(t.tally.reasons)
      && !r.failed && !r.cleanupFailed;
    if t.tally.invalid == 0 {
      GapsOfSamples(t.history, gap);
    }
  }

  function Larger(a: int, b: int): int {
    if a >= b then a else b
  }

  /** The checks that look for single reasons. */
  predicate ReasonsAbsent(reasons: multiset<Reason>) {
    && FrameMismatch !in reasons && ChildFrameMismatch !in reasons
    && InvalidStamp !in reasons && NonMonotonicSource !in reasons && StaleSource !in reasons && FutureSource !in reasons
    && NonFinitePose !in reasons && NonFiniteTwist !in reasons && NonFiniteCovariance !in reasons
    && InvalidQuaternion !in reasons && NonMonotonicReceipt !in reasons
  }

  /** What a valid observation covers: every moment from the first receipt to the end is close behind a receipt. */
  lemma {:induction false} MomentsAreCovered(h: seq<Message>, l: Limits, r: Run, moment: int) returns (i: nat)
    requires ObserverValid(h, l, r) && h[0].receipt <= moment <= r.finish
    ensures i < |h| && h[i].receipt <= moment <= h[i].receipt + l.gap
  {
    i := 0;
    while i + 1 < |h| && h[i + 1].receipt <= moment
      invariant i < |h| && h[i].receipt <= moment
    {
      i := i + 1;
    }
    if i + 1 < |h| {
      assert h[i + 1].receipt - h[i].receipt <= l.gap;
    }
  }

  /**
   The first receipt came at most two thresholds and the overrun of the deadline after the start,
   the receipts increase by both clocks, and their gaps add up to the span.
   */
  lemma ValidMeansCovered(h: seq<Message>, l: Limits, r: Run, start: int, overrun: int)
    requires ObserverValid(h, l, r) && ValidWindow(r, l)
    requires r.finish <= start + r.duration + overrun && h[|h| - 1].receipt <= r.finish
    ensures h[0].receipt - start <= 2 * l.gap + overrun
    ensures 0 <= r.finish - h[|h| - 1].receipt <= l.gap
    ensures Sum(Gaps(Receipts(SamplesOf(h)))) == h[|h| - 1].receipt - h[0].receipt > 0
    ensures AllAtMost(Gaps(Receipts(SamplesOf(h))), l.gap) && AllAtMost(Gaps(Sources(SamplesOf(h))), l.gap)
    ensures forall i :: 0 < i < |h| ==> h[i].receipt > h[i - 1].receipt && h[i].Source() > h[i - 1].Source()
  {
    GapsAddUp(Receipts(SamplesOf(h)));
    GapsOfSamples(h, l.gap);
    forall i | 0 < i < |h| ensures h[i].receipt > h[i - 1].receipt && h[i].Source() > h[i - 1].Source() {
      GoodAt(h, l, i);
    }
  }
}
