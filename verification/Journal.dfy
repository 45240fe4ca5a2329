/** The bounded journal of runtime events: numbered, kept up to a limit, and replayed to whoever attaches. */
module Journal {
  import opened Chips
  import opened Bytes

  const EVENT_LIMIT := 4096
  const EVENT_BYTES_LIMIT := 8 * 1024 * 1024
  const MAX_LINE_BYTES := 64 * 1024

  datatype Event = Event(generation: nat, sequence: nat, body: string)

  datatype Stored = Stored(value: Event, size: nat)

  /** `slots` is the projection of the session: the latest events of some kinds. */
  datatype Log = Log(generation: nat, first: nat, latest: nat, bytes: nat, events: seq<Stored>, slots: set<Event>)

  datatype Snapshot = Snapshot(generation: nat, latest: nat, earliest: nat, truncated: bool, events: seq<Event>)

  /** The program's counters stop at the largest 64-bit number. */
  function Next(n: nat): nat { if n < U64_MAX then n + 1 else U64_MAX }

  const NEW_LOG := Log(1, 1, 0, 0, [], {})

  function Total(events: seq<Stored>): nat {
    if |events| == 0 then 0 else events[0].size + Total(events[1..])
  }

  /** A projection stores or forgets events; it never makes one up. */
  ghost predicate Projects(observe: (set<Event>, Event) -> set<Event>) {
    forall m, e {:trigger observe(m, e)} :: observe(m, e) <= m + {e}
  }

  predicate TooMuch(events: seq<Stored>, bytes: nat) { |events| > EVENT_LIMIT || bytes > EVENT_BYTES_LIMIT }

  /** Drops the oldest events until the rest fits. */
  function Evict(events: seq<Stored>, bytes: nat): (seq<Stored>, nat) {
    if TooMuch(events, bytes) && |events| > 0 then
      Evict(events[1..], if bytes >= events[0].size then bytes - events[0].size else 0)
    else (events, bytes)
  }

  function Appended(j: Log, body: string, size: nat, observe: (set<Event>, Event) -> set<Event>): Log {
    var e := Event(j.generation, Next(j.latest), body);
    var (events, bytes) := Evict(j.events + [Stored(e, size)], j.bytes + size);
    j.(latest := e.sequence, events := events, bytes := bytes, slots := observe(j.slots, e))
  }

  function Reset(j: Log): Log { j.(generation := Next(j.generation), first := Next(j.latest), bytes := 0, events := [], slots := {}) }

  function Earliest(j: Log): nat { if |j.events| == 0 then Next(j.latest) else j.events[0].value.sequence }

  function Values(events: seq<Stored>): (r: seq<Event>)
    ensures |r| == |events| && forall i :: 0 <= i < |r| ==> r[i] == events[i].value
  {
    if |events| == 0 then [] else Values(events[..|events| - 1]) + [events[|events| - 1].value]
  }

  // ----- What the journal keeps -----

  /** Everything ever appended has the number of its place. */
  ghost predicate Numbers(history: seq<Event>) { forall i :: 0 <= i < |history| ==> history[i].sequence == i + 1 }

  ghost predicate EndOf(events: seq<Stored>, history: seq<Event>) {
    && |events| <= |history|
    && forall i :: 0 <= i < |events| ==> events[i].value == history[|history| - |events| + i]
  }

  ghost predicate OfGeneration(events: seq<Stored>, generation: nat, first: nat) {
    forall i :: 0 <= i < |events| ==> events[i].value.generation == generation && events[i].value.sequence >= first
  }

  lemma {:induction false} EndGrows(events: seq<Stored>, history: seq<Event>, s: Stored, k: nat)
    requires EndOf(events, history) && k <= |events| + 1
    ensures EndOf((events + [s])[k..], history + [s.value])
  {
  }

  lemma {:induction false} GenerationGrows(events: seq<Stored>, generation: nat, first: nat, s: Stored, k: nat)
    requires OfGeneration(events, generation, first) && k <= |events| + 1 && s.value.generation == generation && s.value.sequence >= first
    ensures OfGeneration((events + [s])[k..], generation, first)
  {
  }

  /** The journal is the unbroken end of the history, within its limits; the slots hold events of the history. */
  ghost predicate Faithful(j: Log, history: seq<Event>) {
    && Numbers(history) && j.latest == |history| <= U64_MAX && 1 <= j.first && j.first <= Next(|history|)
    && |j.events| <= EVENT_LIMIT && j.bytes == Total(j.events) <= EVENT_BYTES_LIMIT
    && EndOf(j.events, history) && OfGeneration(j.events, j.generation, j.first)
    && (forall e :: e in j.slots ==> e in history)
  }

  lemma {:induction false} TotalAppend(events: seq<Stored>, s: Stored)
    ensures Total(events + [s]) == Total(events) + s.size
  {
    if |events| > 0 {
      TotalAppend(events[1..], s);
      assert (events + [s])[1..] == events[1..] + [s];
    } else {
      assert [s][1..] == [];
      assert events + [s] == [s];
    }
  }

  lemma {:induction false} EvictUnfolds(events: seq<Stored>)
    ensures !TooMuch(events, Total(events)) ==> Evict(events, Total(events)) == (events, Total(events))
    ensures TooMuch(events, Total(events)) ==> |events| > 0 && Evict(events, Total(events)) == Evict(events[1..], Total(events[1..]))
  {
  }

  /** Eviction keeps the longest end of the journal that fits. */
  lemma {:induction false} EvictKeepsLongest(events: seq<Stored>) returns (k: nat)
    ensures k <= |events| && Evict(events, Total(events)) == (events[k..], Total(events[k..]))
    ensures !TooMuch(events[k..], Total(events[k..])) && forall i :: 0 <= i < k ==> TooMuch(events[i..], Total(events[i..]))
  {
    hide Evict, Total, TooMuch;
    assert events[0..] == events;
    EvictUnfolds(events);
    k := 0;
    if TooMuch(events, Total(events)) {
      var l := EvictKeepsLongest(events[1..]);
      k := l + 1;
      Dropped(events, k);
      forall i | 0 <= i < k ensures TooMuch(events[i..], Total(events[i..])) {
        if i > 0 { Dropped(events, i); }
      }
    }
  }

  lemma {:induction false} Dropped(events: seq<Stored>, i: nat)
    requires 1 <= i <= |events|
    ensures events[1..][i - 1..] == events[i..]
  {
  }

  /** Below the last number, an append adds the next event to the history and keeps the journal its end;
      the new event itself always stays. */
  lemma {:induction false} AppendFaithful(j: Log, history: seq<Event>, body: string, size: nat,
      observe: (set<Event>, Event) -> set<Event>)
    requires Faithful(j, history) && |history| < U64_MAX && size <= MAX_LINE_BYTES && Projects(observe)
    ensures var j' := Appended(j, body, size, observe);
            var e := Event(j.generation, |history| + 1, body);
            Faithful(j', history + [e]) && |j'.events| > 0 && j'.events[|j'.events| - 1] == Stored(e, size)
  {
    hide Evict, EndOf, OfGeneration, Total;
    var e := Event(j.generation, |history| + 1, body);
    var all := j.events + [Stored(e, size)];
    TotalAppend(j.events, Stored(e, size));
    var k := EvictKeepsLongest(all);
    LastFits(all, k);
    EndGrows(j.events, history, Stored(e, size), k);
    GenerationGrows(j.events, j.generation, j.first, Stored(e, size), k);
    assert observe(j.slots, e) <= j.slots + {e};
  }

  lemma {:induction false} LastFits(all: seq<Stored>, k: nat)
    requires k <= |all| && |all| > 0 && all[|all| - 1].size <= MAX_LINE_BYTES
    requires forall i :: 0 <= i < k ==> TooMuch(all[i..], Total(all[i..]))
    ensures k < |all|
  {
    var last := all[|all| - 1..];
    assert last == [all[|all| - 1]] && last[1..] == [];
    assert Total(last) == last[0].size;
    assert !TooMuch(last, Total(last));
  }

  lemma {:induction false} ResetFaithful(j: Log, history: seq<Event>)
    requires Faithful(j, history)
    ensures Faithful(Reset(j), history)
  {
  }

  /** At the last number the counter stands still: the next event repeats it, so numbers tell events apart
      exactly as long as fewer than 2^64 - 1 have been appended. */
  lemma {:induction false} NumberIsNew(j: Log, history: seq<Event>, body: string, size: nat,
      observe: (set<Event>, Event) -> set<Event>)
    requires Faithful(j, history)
    ensures (forall i :: 0 <= i < |history| ==> history[i].sequence != Appended(j, body, size, observe).latest) <==> |history| < U64_MAX
  {
    hide Evict;
    if |history| == U64_MAX { assert history[|history| - 1].sequence == U64_MAX; }
  }

  // ----- Snapshots -----

  ghost predicate HasNumber(slots: set<Event>, s: nat) { exists e :: e in slots && e.sequence == s }

  ghost function EventNumbered(slots: set<Event>, s: nat): Event
    requires HasNumber(slots, s)
  {
    var e :| e in slots && e.sequence == s;
    e
  }

  ghost function SlotEvents(slots: set<Event>, sequences: seq<nat>): (r: seq<Event>)
    requires forall i :: 0 <= i < |sequences| ==> HasNumber(slots, sequences[i])
    ensures |r| == |sequences| && forall i :: 0 <= i < |r| ==> r[i] in slots && r[i].sequence == sequences[i]
  {
    if |sequences| == 0 then []
    else
      var n := |sequences| - 1;
      SlotEvents(slots, sequences[..n]) + [EventNumbered(slots, sequences[n])]
  }

  /** The numbers of the slots that are not in the journal any more. */
  ghost function OlderSlots(j: Log): (r: set<nat>)
    ensures forall s: nat :: s in r <==> s + |j.events| <= j.latest && HasNumber(j.slots, s)
  {
    set e | e in j.slots && e.sequence + |j.events| <= j.latest :: e.sequence
  }

  /** Slots older than the journal, in order, and then the journal. */
  ghost function SnapshotOf(j: Log): Snapshot {
    var older := Ascending(OlderSlots(j));
    assert forall i :: 0 <= i < |older| ==> older[i] in older;
    Snapshot(j.generation, j.latest, Earliest(j), Earliest(j) > j.first, SlotEvents(j.slots, older) + Values(j.events))
  }

  /** The earliest number is the one after what is no longer in the journal, unless that is past the last number. A
      snapshot says the history is cut exactly when an event of this generation is no longer in the journal, except
      for an empty journal that was started over at the last number. */
  lemma {:induction false} TruncationIsTold(j: Log, history: seq<Event>)
    requires Faithful(j, history)
    ensures Earliest(j) == Min(|history| - |j.events| + 1, U64_MAX)
    ensures (SnapshotOf(j).truncated <==> |j.events| < |history| + 1 - j.first)
            <==> !(|history| == U64_MAX && j.events == [] && j.first == U64_MAX)
    ensures Values(j.events) == history[|history| - |j.events|..]
  {
    hide OlderSlots, SlotEvents;
    if |j.events| > 0 { assert j.events[0].value == history[|history| - |j.events|]; }
  }

  // ----- The program -----

  lemma {:induction false} FaithfulLength(j: Log, history: seq<Event>)
    requires Faithful(j, history)
    ensures j.latest == |history|
  {
  }

  lemma {:induction false} EndNumbers(j: Log, history: seq<Event>, i: nat)
    requires Faithful(j, history) && i < |j.events|
    ensures |j.events| <= |history| && j.events[i].value == history[|history| - |j.events| + i]
    ensures j.events[i].value.sequence == |history| - |j.events| + i + 1
  {
  }

  /** What is replayed, by number: all slots and the journal. */
  ghost predicate Collected(j: Log, history: seq<Event>, replay: map<nat, Event>) {
    && (forall s :: s in replay ==> 1 <= s <= |history| && replay[s] == history[s - 1])
    && (forall s: nat :: s in replay <==> HasNumber(j.slots, s) || |history| - |j.events| < s <= |history|)
  }

  function Listed(replay: map<nat, Event>, keys: seq<nat>): (r: seq<Event>)
    requires forall i :: 0 <= i < |keys| ==> keys[i] in replay
    ensures |r| == |keys| && forall i :: 0 <= i < |r| ==> r[i] == replay[keys[i]]
  {
    if |keys| == 0 then [] else Listed(replay, keys[..|keys| - 1]) + [replay[keys[|keys| - 1]]]
  }

  ghost function Numbered(from: nat, count: nat): (r: seq<nat>)
    ensures |r| == count && forall i :: 0 <= i < count ==> r[i] == from + i
  {
    if count == 0 then [] else Numbered(from, count - 1) + [from + count - 1]
  }

  lemma {:induction false} JoinedInOrder(keys: set<nat>, older: set<nat>, from: nat, count: nat)
    requires forall s: nat :: s in keys <==> s in older || from <= s < from + count
    requires forall s :: s in older ==> s < from
    ensures Ascending(keys) == Ascending(older) + Numbered(from, count)
  {
    hide Ascending;
    var (xs, ys) := (Ascending(older), Numbered(from, count));
    AscendingAscends(keys);
    AscendingAscends(older);
    forall i | 0 <= i < |xs| ensures xs[i] < from { assert xs[i] in xs; }
    assert StrictlyAscending(xs + ys);
    forall x: nat ensures x in Ascending(keys) <==> x in xs + ys {
      if from <= x < from + count { assert ys[x - from] == x; }
    }
    OneOrder(Ascending(keys), xs + ys);
  }

  lemma {:induction false} KeysInOrder(j: Log, history: seq<Event>, replay: map<nat, Event>)
    requires Faithful(j, history) && Collected(j, history, replay)
    ensures |j.events| <= |history|
    ensures Ascending(replay.Keys) == Ascending(OlderSlots(j)) + Numbered(|history| - |j.events| + 1, |j.events|)
  {
    hide EndOf, OfGeneration, Total, Ascending;
    EndWithin(j.events, history);
    JoinedInOrder(replay.Keys, OlderSlots(j), |history| - |j.events| + 1, |j.events|);
  }

  lemma {:induction false} EndWithin(events: seq<Stored>, history: seq<Event>)
    requires EndOf(events, history)
    ensures |events| <= |history|
  {
  }

  /** Every event of a snapshot is the event of the history with its number. */
  lemma {:induction false} SnapshotIsHistory(j: Log, history: seq<Event>, i: nat)
    requires Faithful(j, history) && i < |SnapshotOf(j).events|
    ensures |j.events| <= |history|
    ensures var keys := Ascending(OlderSlots(j)) + Numbered(|history| - |j.events| + 1, |j.events|);
            && |keys| == |SnapshotOf(j).events| && 1 <= keys[i] <= |history| && SnapshotOf(j).events[i] == history[keys[i] - 1]
  {
    hide Ascending, OlderSlots, EndOf, OfGeneration, Total, Earliest;
    EndWithin(j.events, history);
    var n := |Ascending(OlderSlots(j))|;
    var keys := Ascending(OlderSlots(j)) + Numbered(|history| - |j.events| + 1, |j.events|);
    if i < n {
      SlotIsHistory(j, history, SnapshotOf(j).events[i]);
    } else {
      EndNumbers(j, history, i - n);
      assert keys[i] == |history| - |j.events| + 1 + (i - n);
    }
  }

  lemma {:induction false} SnapshotLength(j: Log)
    ensures |SnapshotOf(j).events| == |Ascending(OlderSlots(j))| + |j.events|
  {
    hide Ascending, OlderSlots, Earliest;
  }

  /** The replayed events and those of the snapshot agree place by place. */
  lemma {:induction false} ReplayAt(j: Log, history: seq<Event>, replay: map<nat, Event>, i: nat)
    requires Faithful(j, history) && Collected(j, history, replay) && i < |Ascending(replay.Keys)|
    ensures Ascending(replay.Keys)[i] in replay && i < |SnapshotOf(j).events|
    ensures replay[Ascending(replay.Keys)[i]] == SnapshotOf(j).events[i]
  {
    hide Ascending, OlderSlots, Faithful, SnapshotOf, HasNumber;
    assert Ascending(replay.Keys)[i] in Ascending(replay.Keys);
    KeysInOrder(j, history, replay);
    SnapshotLength(j);
    SnapshotIsHistory(j, history, i);
  }

  lemma {:induction false} ReplayInOrder(j: Log, history: seq<Event>, replay: map<nat, Event>)
    requires Faithful(j, history) && Collected(j, history, replay)
    ensures forall i :: 0 <= i < |Ascending(replay.Keys)| ==> Ascending(replay.Keys)[i] in replay
    ensures Listed(replay, Ascending(replay.Keys)) == SnapshotOf(j).events
  {
    hide Ascending, OlderSlots, Faithful, SnapshotOf, Collected;
    var keys := Ascending(replay.Keys);
    forall i | 0 <= i < |keys| ensures keys[i] in replay && i < |SnapshotOf(j).events| && replay[keys[i]] == SnapshotOf(j).events[i] {
      ReplayAt(j, history, replay, i);
    }
    KeysInOrder(j, history, replay);
    SnapshotLength(j);
    hide Listed;
    assert |Listed(replay, keys)| == |SnapshotOf(j).events|;
  }

  lemma {:induction false} SlotIsHistory(j: Log, history: seq<Event>, e: Event)
    requires Faithful(j, history) && e in j.slots
    ensures 1 <= e.sequence <= |history| && history[e.sequence - 1] == e
  {
  }

  datatype AppendError = MissingType | TooLong

  datatype Published = Published(event: Event) | Rejected(error: AppendError)

  /** The journal as the object the runtime writes to. `history` is everything it has ever been given. */
  class EventJournal {
    var generation: nat
    var first: nat
    var latest: nat
    var bytes: nat
    var events: seq<Stored>
    var slots: set<Event>
    ghost var history: seq<Event>

    ghost function Value(): Log
      reads this
    {
      Log(generation, first, latest, bytes, events, slots)
    }

    constructor ()
      ensures Value() == NEW_LOG && history == [] && Faithful(Value(), history)
    {
      generation, first, latest, bytes, events, slots, history := 1, 1, 0, 0, [], {}, [];
    }

    /** Numbers and stores an event, then makes room. */
    method Append(body: string, typed: bool, size: nat,
        observe: (set<Event>, Event) -> set<Event>) returns (r: Published)
      requires Faithful(Value(), history) && Projects(observe)
      modifies this
      ensures r.Rejected? <==> !typed || size > MAX_LINE_BYTES
      ensures r.Rejected? ==> Value() == old(Value()) && history == old(history)
      ensures r.Published? ==> Value() == Appended(old(Value()), body, size, observe) && r.event.sequence == latest
      ensures r.Published? && old(latest) < U64_MAX ==> history == old(history) + [r.event] && Faithful(Value(), history)
    {
      hide Faithful, Evict;
      if !typed { return Rejected(MissingType); }
      if size > MAX_LINE_BYTES { return Rejected(TooLong); }
      FaithfulLength(Value(), history);
      if latest < U64_MAX { AppendFaithful(Value(), history, body, size, observe); }
      latest := Next(latest);
      var value := Event(generation, latest, body);
      slots := observe(slots, value);
      events := events + [Stored(value, size)];
      bytes := bytes + size;
      MakeRoom();
      history := history + [value];
      r := Published(value);
    }

    method MakeRoom()
      modifies this`events, this`bytes
      ensures (events, bytes) == Evict(old(events), old(bytes))
    {
      while |events| > EVENT_LIMIT || bytes > EVENT_BYTES_LIMIT
        invariant Evict(events, bytes) == Evict(old(events), old(bytes))
        decreases |events|
      {
        if |events| == 0 { break; }
        bytes := if bytes >= events[0].size then bytes - events[0].size else 0;
        events := events[1..];
      }
    }

    method ResetGeneration()
      requires Faithful(Value(), history)
      modifies this
      ensures Value() == Reset(old(Value())) && history == old(history) && Faithful(Value(), history)
    {
      ResetFaithful(Value(), history);
      generation := Next(generation);
      first := Next(latest);
      bytes := 0;
      events := [];
      slots := {};
    }

    method TakeSnapshot() returns (s: Snapshot)
      requires Faithful(Value(), history)
      ensures s == SnapshotOf(Value())
    {
      hide Faithful, SlotEvents, OlderSlots, Ascending;
      FaithfulLength(Value(), history);
      var replay := ReplaySlots(Value(), history, slots);
      replay := ReplayEvents(Value(), history, replay, events);
      ReplayInOrder(Value(), history, replay);
      var earliest := if |events| == 0 then Next(latest) else events[0].value.sequence;
      s := Snapshot(generation, latest, earliest, earliest > first, Listed(replay, Ascending(replay.Keys)));
    }
  }

  method ReplaySlots(ghost j: Log, ghost history: seq<Event>, slots: set<Event>) returns (replay: map<nat, Event>)
    requires Faithful(j, history) && slots == j.slots
    ensures forall n :: n in replay ==> 1 <= n <= |history| && replay[n] == history[n - 1]
    ensures forall n: nat :: n in replay <==> HasNumber(slots, n)
  {
    hide Faithful;
    replay := map[];
    var rest := slots;
    while rest != {}
      invariant rest <= slots
      invariant forall e :: e in slots && e !in rest ==> e.sequence in replay
      invariant forall n :: n in replay ==> 1 <= n <= |history| && replay[n] == history[n - 1] && HasNumber(slots, n)
      decreases |rest|
    {
      var e :| e in rest;
      SlotIsHistory(j, history, e);
      replay := replay[e.sequence := e];
      rest := rest - {e};
    }
  }

  method ReplayEvents(ghost j: Log, ghost history: seq<Event>, older: map<nat, Event>,
      events: seq<Stored>) returns (replay: map<nat, Event>)
    requires Faithful(j, history) && events == j.events
    requires forall n :: n in older ==> 1 <= n <= |history| && older[n] == history[n - 1]
    requires forall n: nat :: n in older <==> HasNumber(j.slots, n)
    ensures Collected(j, history, replay)
  {
    hide Faithful, HasNumber;
    replay := older;
    for i := 0 to |events|
      invariant forall n :: n in replay ==> 1 <= n <= |history| && replay[n] == history[n - 1]
      invariant forall n: nat :: n in replay <==> HasNumber(j.slots, n) || |history| - |events| < n <= |history| - |events| + i
    {
      EndNumbers(j, history, i);
      replay := replay[events[i].value.sequence := events[i].value];
    }
  }
}
