/** A client that attaches to the runtime: it subscribes to new events, takes a snapshot, and then follows the
    events that arrive. One actor publishes, in two steps: it appends to the journal, and later broadcasts. Anything
    may happen in between. */
module Attach {
  import opened Chips
  import opened Bytes
  import opened Journal

  const EVENT_BROADCAST_CAPACITY := 4096

  datatype Client =
    | Detached
    | Subscribed(queue: seq<Event>, lagged: bool)
    | Attached(queue: seq<Event>, lagged: bool, snapshot: Snapshot, delivered: nat, live: seq<Event>)
    | Closed

  /** `unsent` is the event that is in the journal but has not been broadcast yet. */
  datatype Runtime = Runtime(log: Log, history: seq<Event>, unsent: Option<Event>, client: Client)

  datatype Step =
    | Publish(body: string, size: nat)
    | Broadcast
    | Restart
    | Subscribe
    | TakeSnapshot
    | Receive
    | HangUp

  /** A subscriber's queue that is full loses its oldest event and is marked. */
  function Queued(queue: seq<Event>, e: Event): (seq<Event>, bool) {
    if |queue| < EVENT_BROADCAST_CAPACITY then (queue + [e], false) else (queue[1..] + [e], true)
  }

  ghost function Offered(c: Client, e: Event): Client {
    match c
    case Subscribed(queue, lagged) =>
      var (q, lost) := Queued(queue, e);
      Subscribed(q, lagged || lost)
    case Attached(queue, lagged, snapshot, delivered, live) =>
      var (q, lost) := Queued(queue, e);
      Attached(q, lagged || lost, snapshot, delivered, live)
    case _ => c
  }

  /** The next event of the queue: passed over if the snapshot had it, and the end of the line after a loss. */
  ghost function Received(c: Client): Client {
    if !c.Attached? then c
    else if c.lagged then Closed
    else if c.queue == [] then c
    else
      var e := c.queue[0];
      if e.sequence > c.delivered then Attached(c.queue[1..], false, c.snapshot, e.sequence, c.live + [e])
      else Attached(c.queue[1..], false, c.snapshot, c.delivered, c.live)
  }

  ghost function Taken(s: Runtime, step: Step, observe: (set<Event>, Event) -> set<Event>): Runtime {
    match step
    case Publish(body, size) =>
      if s.unsent.Some? || size > MAX_LINE_BYTES then s
      else
        var log := Appended(s.log, body, size, observe);
        var e := Event(s.log.generation, log.latest, body);
        s.(log := log, history := s.history + [e], unsent := Some(e))
    case Broadcast => if s.unsent.None? then s else s.(unsent := None, client := Offered(s.client, s.unsent.value))
    case Restart => if s.unsent.Some? then s else s.(log := Reset(s.log))
    case Subscribe => if s.client.Detached? then s.(client := Subscribed([], false)) else s
    case TakeSnapshot =>
      if s.client.Subscribed? then
        s.(client := Attached(s.client.queue, s.client.lagged, SnapshotOf(s.log), s.log.latest, []))
      else s
    case Receive => s.(client := Received(s.client))
    case HangUp => s.(client := Closed)
  }

  // ----- The invariant -----

  function Sent(s: Runtime): int { if s.unsent.Some? then |s.history| - 1 else |s.history| }

  ghost predicate QueueIsEnd(s: Runtime, queue: seq<Event>) {
    |queue| <= Sent(s) <= |s.history| && queue == s.history[Sent(s) - |queue|..Sent(s)]
  }

  /** What a snapshot holds: some older events, then everything after the first `from` numbers to its latest one. */
  ghost predicate Snapped(history: seq<Event>, t: Snapshot, n: nat, from: nat) {
    && from <= t.latest <= |history| && n <= |t.events| && t.earliest == Min(from + 1, U64_MAX)
    && t.events[n..] == history[from..t.latest]
    && (forall i :: 0 <= i < n ==> t.events[i] in history && t.events[i].sequence <= from)
    && (forall i, j :: 0 <= i < j < n ==> t.events[i].sequence < t.events[j].sequence)
  }

  ghost predicate FollowsHistory(s: Runtime, c: Client)
    requires c.Attached?
  {
    && c.snapshot.latest <= c.delivered <= |s.history|
    && c.live == s.history[c.snapshot.latest..c.delivered]
    && (exists n, from :: Snapped(s.history, c.snapshot, n, from))
    && (!c.lagged ==> Sent(s) - |c.queue| <= c.delivered)
  }

  ghost predicate Sound(s: Runtime) {
    && Faithful(s.log, s.history)
    && (s.unsent.Some? ==> |s.history| > 0 && s.unsent.value == s.history[|s.history| - 1])
    && ((s.client.Subscribed? || s.client.Attached?) && !s.client.lagged ==> QueueIsEnd(s, s.client.queue))
    && (s.client.Attached? ==> FollowsHistory(s, s.client))
  }

  // ----- Steps -----

  lemma {:induction false} SnapshotSnaps(j: Log, history: seq<Event>)
    requires Faithful(j, history)
    ensures exists n, from :: Snapped(history, SnapshotOf(j), n, from)
  {
    hide Faithful, Ascending, OlderSlots, Earliest;
    TruncationIsTold(j, history);
    FaithfulFacts(j, history);
    var older := Ascending(OlderSlots(j));
    var (n, from) := (|older|, |history| - |j.events|);
    var t := SnapshotOf(j);
    AscendingAscends(OlderSlots(j));
    forall i | 0 <= i < n ensures t.events[i] in history && t.events[i].sequence <= from && t.events[i].sequence == older[i] {
      assert older[i] in older;
      SlotIsHistory(j, history, t.events[i]);
    }
    assert t.events[n..] == Values(j.events);
    assert Snapped(history, t, n, from);
  }

  lemma {:induction false} FaithfulFacts(j: Log, history: seq<Event>)
    requires Faithful(j, history)
    ensures j.latest == |history| && |j.events| <= |history| && Numbers(history)
  {
  }

  lemma {:induction false} SnappedLater(history: seq<Event>, e: Event, t: Snapshot, n: nat, from: nat)
    requires Snapped(history, t, n, from)
    ensures Snapped(history + [e], t, n, from)
  {
    assert (history + [e])[from..t.latest] == history[from..t.latest];
  }

  lemma {:induction false} SliceStays(history: seq<Event>, e: Event, a: nat, b: nat)
    requires a <= b <= |history|
    ensures (history + [e])[a..b] == history[a..b]
  {
  }

  /** One more event in the history, not broadcast yet. */
  ghost predicate Longer(s: Runtime, r: Runtime) {
    s.unsent.None? && r.unsent.Some? && r.history == s.history + [r.unsent.value] && r.client == s.client
  }

  lemma {:induction false} QueueStays(s: Runtime, r: Runtime, queue: seq<Event>)
    requires Longer(s, r) && QueueIsEnd(s, queue)
    ensures QueueIsEnd(r, queue)
  {
    SliceStays(s.history, r.unsent.value, |s.history| - |queue|, |s.history|);
  }

  lemma {:induction false} FollowsOn(s: Runtime, r: Runtime, c: Client)
    requires Longer(s, r) && c.Attached? && FollowsHistory(s, c)
    ensures FollowsHistory(r, c)
  {
    hide Snapped;
    SliceStays(s.history, r.unsent.value, c.snapshot.latest, c.delivered);
    var n, from :| Snapped(s.history, c.snapshot, n, from);
    SnappedLater(s.history, r.unsent.value, c.snapshot, n, from);
  }

  lemma {:induction false} PublishSound(s: Runtime, body: string, size: nat, observe: (set<Event>, Event) -> set<Event>)
    requires Sound(s) && Projects(observe)
    ensures var r := Taken(s, Publish(body, size), observe); |r.history| <= U64_MAX ==> Sound(r)
  {
    hide Faithful, Appended, QueueIsEnd, FollowsHistory, Projects;
    if s.unsent.None? && size <= MAX_LINE_BYTES && |s.history| < U64_MAX {
      FaithfulFacts(s.log, s.history);
      AppendFaithful(s.log, s.history, body, size, observe);
      AppendNumbers(s.log, s.history, body, size, observe);
      var r := Taken(s, Publish(body, size), observe);
      if (s.client.Subscribed? || s.client.Attached?) && !s.client.lagged { QueueStays(s, r, s.client.queue); }
      if s.client.Attached? { FollowsOn(s, r, s.client); }
    }
  }

  lemma {:induction false} AppendNumbers(j: Log, history: seq<Event>, body: string, size: nat,
      observe: (set<Event>, Event) -> set<Event>)
    requires Faithful(j, history) && |history| < U64_MAX
    ensures Appended(j, body, size, observe).latest == |history| + 1
  {
    hide Evict, EndOf, OfGeneration;
  }

  lemma {:induction false} BroadcastSound(s: Runtime, observe: (set<Event>, Event) -> set<Event>)
    requires Sound(s)
    ensures Sound(Taken(s, Broadcast, observe))
  {
    hide Faithful, Snapped, QueueIsEnd;
    if s.unsent.Some? && (s.client.Subscribed? || s.client.Attached?) && !s.client.lagged { QueueGrows(s, s.client.queue); }
  }

  /** A queue that loses nothing ends with the event that is broadcast. */
  lemma {:induction false} QueueGrows(s: Runtime, queue: seq<Event>)
    requires QueueIsEnd(s, queue) && s.unsent.Some? && |s.history| > 0 && s.unsent.value == s.history[|s.history| - 1]
    ensures var (q, lost) := Queued(queue, s.unsent.value);
            forall c :: !lost ==> |q| == |queue| + 1 && QueueIsEnd(s.(unsent := None, client := c), q)
  {
    assert queue + [s.unsent.value] == s.history[|s.history| - 1 - |queue|..|s.history|];
  }

  lemma {:induction false} SnapshotSound(s: Runtime, observe: (set<Event>, Event) -> set<Event>)
    requires Sound(s)
    ensures Sound(Taken(s, TakeSnapshot, observe))
  {
    hide Faithful, Snapped, SnapshotOf;
    SnapshotSnaps(s.log, s.history);
    FaithfulFacts(s.log, s.history);
    SnapshotLatest(s.log);
    assert s.history[|s.history|..|s.history|] == [];
  }

  lemma {:induction false} SnapshotLatest(j: Log)
    ensures SnapshotOf(j).latest == j.latest
  {
  }

  /** The queue never starts behind a gap: what it offers next was delivered before, or comes right after it. */
  lemma {:induction false} ReceiveFollows(s: Runtime)
    requires s.client.Attached? && !s.client.lagged && s.client.queue != [] && Numbers(s.history)
    requires QueueIsEnd(s, s.client.queue) && FollowsHistory(s, s.client)
    ensures var r := s.(client := Received(s.client)); QueueIsEnd(r, r.client.queue) && FollowsHistory(r, r.client)
  {
    hide Snapped;
    var c := s.client;
    HeadOfQueue(s.history, Sent(s) - |c.queue|, Sent(s), c.queue);
    if Sent(s) - |c.queue| == c.delivered { SlicesJoin(s.history, c.snapshot.latest, c.delivered, c.delivered + 1); }
  }

  lemma {:induction false} ReceiveSound(s: Runtime, observe: (set<Event>, Event) -> set<Event>)
    requires Sound(s)
    ensures Sound(Taken(s, Receive, observe))
  {
    hide Faithful, QueueIsEnd, FollowsHistory;
    FaithfulFacts(s.log, s.history);
    if s.client.Attached? && !s.client.lagged && s.client.queue != [] { ReceiveFollows(s); }
  }

  lemma {:induction false} HeadOfQueue(history: seq<Event>, m: nat, sent: nat, queue: seq<Event>)
    requires m < sent <= |history| && queue == history[m..sent] && Numbers(history)
    ensures queue[0] == history[m] && queue[0].sequence == m + 1 && [queue[0]] == history[m..m + 1] && queue[1..] == history[m + 1..sent]
  {
  }

  /** Every step keeps the invariant, as long as the counter gives out new numbers. */
  lemma {:induction false} StepSound(s: Runtime, step: Step, observe: (set<Event>, Event) -> set<Event>)
    requires Sound(s) && Projects(observe)
    ensures var r := Taken(s, step, observe); |s.history| <= |r.history| && (|r.history| <= U64_MAX ==> Sound(r))
  {
    hide Faithful, Snapped, Appended, SnapshotOf, Reset;
    match step
    case Publish(body, size) => PublishSound(s, body, size, observe);
    case Broadcast => BroadcastSound(s, observe);
    case Restart => ResetFaithful(s.log, s.history);
    case Subscribe => assert Sent(s) <= |s.history| && s.history[Sent(s)..Sent(s)] == [];
    case TakeSnapshot => SnapshotSound(s, observe);
    case Receive => ReceiveSound(s, observe);
    case HangUp =>
  }

  // ----- Runs -----

  const START := Runtime(NEW_LOG, [], None, Detached)

  ghost function After(steps: seq<Step>, k: nat, observe: (set<Event>, Event) -> set<Event>): Runtime
    requires k <= |steps|
  {
    if k == 0 then START else Taken(After(steps, k - 1, observe), steps[k - 1], observe)
  }

  lemma {:induction false} HistoryGrows(s: Runtime, step: Step, observe: (set<Event>, Event) -> set<Event>)
    ensures |s.history| <= |Taken(s, step, observe).history|
  {
    hide Appended, SnapshotOf, Reset;
  }

  lemma {:induction false} RunSound(steps: seq<Step>, k: nat, observe: (set<Event>, Event) -> set<Event>)
    requires k <= |steps| && Projects(observe) && |After(steps, k, observe).history| <= U64_MAX
    ensures Sound(After(steps, k, observe))
  {
    if k > 0 {
      HistoryGrows(After(steps, k - 1, observe), steps[k - 1], observe);
      hide Sound, Taken;
      RunSound(steps, k - 1, observe);
      StepSound(After(steps, k - 1, observe), steps[k - 1], observe);
    }
  }

  /** All events a client has been given. */
  ghost function Stream(c: Client): seq<Event>
    requires c.Attached?
  {
    c.snapshot.events + c.live
  }

  /** Each event after the first `from` exactly once, in order and without gaps, after older events of the session in
      order; the snapshot names the number that follows, if there is one. Nothing is missing once the queue is empty
      and nothing is under way. */
  ghost predicate ExactlyOnce(s: Runtime, c: Client)
    requires c.Attached?
  {
    && (forall i :: 0 <= i < |s.history| ==> s.history[i].sequence == i + 1)
    && (exists n, from: nat :: && 0 <= n <= |Stream(c)| && from <= c.delivered <= |s.history|
                               && c.snapshot.earliest == Min(from + 1, U64_MAX)
                               && Stream(c)[n..] == s.history[from..c.delivered]
                               && forall i :: 0 <= i < n ==> Stream(c)[i].sequence <= from)
    && (forall i, j :: 0 <= i < j < |Stream(c)| ==> Stream(c)[i].sequence < Stream(c)[j].sequence)
    && (!c.lagged && c.queue == [] && s.unsent.None? ==> c.delivered == |s.history|)
  }

  lemma {:induction false} NumberAt(stream: seq<Event>, history: seq<Event>, n: nat, lo: nat, hi: nat, i: nat)
    requires n <= i < |stream| && lo <= hi <= |history| && stream[n..] == history[lo..hi] && Numbers(history)
    ensures stream[i].sequence == lo + (i - n) + 1
  {
    assert stream[n..][i - n] == history[lo..hi][i - n];
  }

  /** Older events in order, then a stretch of the history: all numbers ascend. */
  lemma {:induction false} StreamAscends(stream: seq<Event>, history: seq<Event>, n: nat, lo: nat, hi: nat, i: nat,
      j: nat)
    requires n <= |stream| && lo <= hi <= |history| && stream[n..] == history[lo..hi] && Numbers(history)
    requires forall k :: 0 <= k < n ==> stream[k].sequence < lo + 1
    requires forall k, l :: 0 <= k < l < n ==> stream[k].sequence < stream[l].sequence
    requires i < j < |stream|
    ensures stream[i].sequence < stream[j].sequence
  {
    if n <= j { NumberAt(stream, history, n, lo, hi, j); }
    if n <= i { NumberAt(stream, history, n, lo, hi, i); }
  }

  lemma {:induction false} SlicesJoin(xs: seq<Event>, a: nat, b: nat, c: nat)
    requires a <= b <= c <= |xs|
    ensures xs[a..b] + xs[b..c] == xs[a..c]
  {
  }

  lemma {:induction false} StreamIsHistory(s: Runtime, n: nat, from: nat)
    requires s.client.Attached? && FollowsHistory(s, s.client) && Snapped(s.history, s.client.snapshot, n, from)
    ensures var c := s.client;
            && n <= |Stream(c)| && Stream(c)[n..] == s.history[from..c.delivered]
            && (forall i :: 0 <= i < n ==> Stream(c)[i] == c.snapshot.events[i])
  {
    var c := s.client;
    var t := c.snapshot;
    assert Stream(c)[n..] == t.events[n..] + c.live;
    SlicesJoin(s.history, from, t.latest, c.delivered);
  }

  lemma {:induction false} SoundDelivers(s: Runtime)
    requires Sound(s) && s.client.Attached?
    ensures ExactlyOnce(s, s.client)
  {
    hide Faithful, Stream, QueueIsEnd;
    FaithfulFacts(s.log, s.history);
    var c := s.client;
    var n, from :| Snapped(s.history, c.snapshot, n, from);
    StreamIsHistory(s, n, from);
    forall i, j | 0 <= i < j < |Stream(c)| ensures Stream(c)[i].sequence < Stream(c)[j].sequence {
      StreamAscends(Stream(c), s.history, n, from, c.delivered, i, j);
    }
    if !c.lagged { QueueFits(s); }
  }

  lemma {:induction false} QueueFits(s: Runtime)
    requires Sound(s) && s.client.Attached? && !s.client.lagged
    ensures |s.client.queue| <= Sent(s) <= |s.history|
  {
    hide Faithful, FollowsHistory;
  }

  /** In every run, for every interleaving, a client that is attached has been given the events exactly once. */
  lemma {:induction false} DeliveredExactlyOnce(steps: seq<Step>, k: nat, observe: (set<Event>, Event) -> set<Event>)
    requires k <= |steps| && Projects(observe) && |After(steps, k, observe).history| <= U64_MAX
    requires After(steps, k, observe).client.Attached?
    ensures ExactlyOnce(After(steps, k, observe), After(steps, k, observe).client)
  {
    hide After, Sound, ExactlyOnce;
    RunSound(steps, k, observe);
    SoundDelivers(After(steps, k, observe));
  }

  /** One event more than there are numbers is lost: it repeats the last number, and a client that is up to date passes
      it over. */
  lemma {:induction false} OneTooManyIsLost(s: Runtime, body: string, size: nat, observe: (set<Event>, Event) -> set<Event>)
    requires Sound(s) && |s.history| == U64_MAX && s.unsent.None? && size <= MAX_LINE_BYTES
    requires s.client.Attached? && !s.client.lagged && s.client.queue == []
    ensures var published := Taken(s, Publish(body, size), observe);
            var r := Taken(Taken(published, Broadcast, observe), Receive, observe);
            && r.history == s.history + [Event(s.log.generation, U64_MAX, body)]
            && r.unsent.None? && r.client == s.client && !ExactlyOnce(r, r.client)
  {
    hide Evict, Snapped, EndOf, OfGeneration, Stream;
    FaithfulFacts(s.log, s.history);
    QueueFits(s);
    var r := Taken(Taken(Taken(s, Publish(body, size), observe), Broadcast, observe), Receive, observe);
    assert [r.history[U64_MAX]][1..] == [];
    assert r.history[U64_MAX].sequence != U64_MAX + 1;
  }
}
