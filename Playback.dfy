/**
 * The playback S4 engine: a queue of recorded `[event, delay, payload]`
 * entries replayed by a self-rescheduling `start`. Each `start` emits the
 * head entry, copies an update's values into the memory map, and schedules
 * the next `start`. The scheduled timer is the field `timer` (the delay of
 * the pending `start`, or `None` once cancelled), and `Fire` is its expiry.
 */
module Playback {
  import opened JsText
  import opened MemoryMap
  import opened Events

  /** The delay of the retry when no entry is left. */
  const IdleDelay: int := 1000

  /** The state of a playback engine as a value. */
  datatype Player = Player(data: seq<Record>, memoryMap: seq<MemoryEntry>, events: seq<Event>, timer: Option<int>)

  ghost predicate Replayable(data: seq<Record>, keys: seq<string>)
  {
    forall i | 0 <= i < |data| :: Applicable(data[i].name, data[i].payload, keys)
  }

  /** The playback of an update: the entry with the payload's address takes its `prevValue` and `value`. */
  function CopyUpdate(m: seq<MemoryEntry>, p: Payload): (r: seq<MemoryEntry>)
    requires p.EntryInfo? && p.entry.address in KeysOf(m)
    ensures KeysOf(r) == KeysOf(m)
    ensures var i := IndexOf(m, p.entry.address).value;
              && r[i] == m[i].(prevValue := p.entry.prevValue, value := p.entry.value)
              && forall j | 0 <= j < |m| && j != i :: r[j] == m[j]
  {
    var i := IndexOf(m, p.entry.address).value;
    m[i := m[i].(prevValue := p.entry.prevValue, value := p.entry.value)]
  }

  /** One `start`. */
  function StartStep(p: Player): (r: Player)
    requires p.data != [] ==> Applicable(p.data[0].name, p.data[0].payload, KeysOf(p.memoryMap))
    ensures KeysOf(r.memoryMap) == KeysOf(p.memoryMap)
    ensures r.timer.Some?
    ensures r.data == if p.data == [] then [] else p.data[1..]
    ensures |r.events| == |p.events| + (if p.data == [] then 0 else 1)
  {
    if p.data == [] then p.(timer := Some(IdleDelay))
    else
      var part := p.data[0];
      var rest := p.data[1..];
      var m := if part.name == "update" then CopyUpdate(p.memoryMap, part.payload) else p.memoryMap;
      Player(rest, m, p.events + [Event(part.name, part.payload)],
             Some(if rest != [] then part.delay else IdleDelay))
  }

  /** `n` consecutive `start`s. */
  function Replay(p: Player, n: nat): (r: Player)
    requires Replayable(p.data, KeysOf(p.memoryMap))
    ensures KeysOf(r.memoryMap) == KeysOf(p.memoryMap)
    ensures n > 0 ==> r.timer.Some?
    ensures |r.data| == if n <= |p.data| then |p.data| - n else 0
    decreases n
  {
    if n == 0 then p
    else
      var q := StartStep(p);
      assert q.data == if p.data == [] then [] else p.data[1..];
      Replay(q, n - 1)
  }

  /** The `(event, payload)` pairs of a log, in order. */
  function Emitted(rs: seq<Record>): seq<Event>
  {
    seq(|rs|, i requires 0 <= i < |rs| => Event(rs[i].name, rs[i].payload))
  }

  /** What one start on a non-empty queue does to the queue and the events. */
  lemma StartStepPops(p: Player)
    requires Replayable(p.data, KeysOf(p.memoryMap)) && p.data != []
    ensures StartStep(p).data == p.data[1..]
    ensures StartStep(p).events == p.events + [Event(p.data[0].name, p.data[0].payload)]
    ensures Replayable(StartStep(p).data, KeysOf(StartStep(p).memoryMap))
  {
  }

  /** Emitting the head of a log, then the rest of its first `k` entries. */
  lemma EmittedSplit(pre: seq<Event>, rs: seq<Record>, k: nat)
    requires 0 < k <= |rs|
    ensures pre + Emitted(rs[..k]) == (pre + [Event(rs[0].name, rs[0].payload)]) + Emitted(rs[1..][..k - 1])
    ensures rs[1..][k - 1..] == rs[k..]
  {
    assert Emitted(rs[..k]) == [Event(rs[0].name, rs[0].payload)] + Emitted(rs[1..][..k - 1]);
  }

  /** `k` starts are one start followed by `k - 1` more. */
  lemma ReplayUnfold(p: Player, k: nat)
    requires Replayable(p.data, KeysOf(p.memoryMap)) && k > 0
    ensures Replayable(StartStep(p).data, KeysOf(StartStep(p).memoryMap))
    ensures Replay(p, k) == Replay(StartStep(p), k - 1)
  {
  }

  /**
   * Entries leave in load order: `k` starts emit the first `k` entries, each
   * with its own event name and payload, and leave the rest queued.
   */
  lemma {:induction false} ReplayEmitsInOrder(p: Player, k: nat)
    requires Replayable(p.data, KeysOf(p.memoryMap)) && k <= |p.data|
    ensures Replay(p, k).events == p.events + Emitted(p.data[..k])
    ensures Replay(p, k).data == p.data[k..]
    decreases k
  {
    if k > 0 {
      var q := StartStep(p);
      StartStepPops(p);
      ReplayUnfold(p, k);
      ReplayEmitsInOrder(q, k - 1);
      EmittedSplit(p.events, p.data, k);
    }
  }

  /**
   * Pacing as written: after the start that emits entry `k`, when entries
   * remain, the next start waits entry `k`'s own recorded delay (the time
   * that preceded entry `k` in the live session, not the time before entry
   * `k + 1`); once the queue is empty it waits the idle 1000 ms.
   */
  lemma {:induction false} ReplayPacing(p: Player, k: nat)
    requires Replayable(p.data, KeysOf(p.memoryMap)) && k < |p.data|
    ensures Replay(p, k + 1).timer == Some(if k + 1 < |p.data| then p.data[k].delay else IdleDelay)
    decreases k
  {
    StartStepPops(p);
    if k > 0 {
      ReplayPacing(StartStep(p), k - 1);
    }
  }

  /** With nothing queued, a start emits nothing, changes nothing and retries after 1000 ms. */
  lemma IdleStart(p: Player)
    requires p.data == []
    ensures StartStep(p) == p.(timer := Some(IdleDelay))
  {
  }

  /**
   * Playback of an update does to the table exactly what the live decode that
   * emitted it did: the live engine found `address` at index `i` and applied a
   * changed reading; copying the emitted entry's values by address yields the
   * same table.
   */
  lemma ReplayMatchesLive(m: seq<MemoryEntry>, address: string, i: nat, v: Reading)
    requires IndexOf(m, address) == Some(i) && ApplyReading(m[i], v).1
    ensures CopyUpdate(m, EntryInfo(ApplyReading(m[i], v).0)) == m[i := ApplyReading(m[i], v).0]
  {
    var after := ApplyReading(m[i], v).0;
    assert after.address == address;
    assert after == m[i].(prevValue := after.prevValue, value := after.value);
  }

  /**
   * Playback copies the recorded `prevValue` rather than shifting the table's
   * own value as the live engine does: when the table's value is not the
   * payload's `prevValue` (after a zeroing reset, say), the payload wins and
   * the result differs from the live update by the same reading.
   */
  lemma CopyUpdateTakesRecordedPrevValue(m: seq<MemoryEntry>, p: Payload, i: nat)
    requires p.EntryInfo? && IndexOf(m, p.entry.address) == Some(i)
    requires m[i].value != p.entry.prevValue && StrictlyDiffers(m[i].value, p.entry.value)
    ensures CopyUpdate(m, p)[i].prevValue == p.entry.prevValue != m[i].value
    ensures CopyUpdate(m, p)[i].value == p.entry.value
    ensures CopyUpdate(m, p) != m[i := ApplyReading(m[i], p.entry.value).0]
  {
    var live := m[i := ApplyReading(m[i], p.entry.value).0];
    assert live[i].prevValue == m[i].value;
  }

  /**
   * Record, then replay: loading every record of a session recorded from the
   * start into an empty playback engine and starting it once per record
   * delivers exactly the live session's events, in order, with their payloads.
   */
  lemma RecordThenReplay(b: Bus, origin: int, m: seq<MemoryEntry>)
    requires b.recording && Mirrors(b, origin) && AllApplicable(b.events, KeysOf(m))
    ensures Replayable(b.recorded, KeysOf(m))
    ensures Replay(Player(b.recorded, m, [], None), |b.recorded|).events == b.events
  {
    var p := Player(b.recorded, m, [], None);
    assert Replayable(b.recorded, KeysOf(m)) by {
      forall i | 0 <= i < |b.recorded|
        ensures Applicable(b.recorded[i].name, b.recorded[i].payload, KeysOf(m))
      {
        assert Applicable(b.events[i].name, b.events[i].payload, KeysOf(m));
      }
    }
    ReplayEmitsInOrder(p, |b.recorded|);
    assert b.recorded[..|b.recorded|] == b.recorded;
    assert Emitted(b.recorded) == b.events;
  }

  class S4 {
    var data: seq<Record>
    var memoryMap: seq<MemoryEntry>
    var events: seq<Event>
    var timer: Option<int>

    function State(): Player
      reads this
    {
      Player(data, memoryMap, events, timer)
    }

    constructor (memoryMap: seq<MemoryEntry>)
      ensures data == [] && events == [] && timer == None && this.memoryMap == memoryMap
    {
      data := [];
      this.memoryMap := memoryMap;
      events := [];
      timer := None;
    }

    /** `load`: the entry goes to the back of the queue; nothing else changes. */
    method Load(entry: Record)
      modifies this`data
      ensures data == old(data) + [entry]
    {
      data := data + [entry];
    }

    /**
     * `start`: on a non-empty queue, remove the head, emit its event with its
     * payload, copy an update's values into the table, and schedule the next
     * start after the head's delay, or after 1000 ms when the queue is now
     * empty; on an empty queue only schedule a retry after 1000 ms.
     */
    method Start()
      requires data != [] ==> Applicable(data[0].name, data[0].payload, KeysOf(memoryMap))
      modifies this`data, this`memoryMap, this`events, this`timer
      ensures State() == StartStep(old(State()))
      ensures old(data) == [] ==>
                data == [] && memoryMap == old(memoryMap) && events == old(events) && timer == Some(IdleDelay)
      ensures old(data) != [] ==>
                var part := old(data)[0];
                && data == old(data)[1..]
                && events == old(events) + [Event(part.name, part.payload)]
                && memoryMap == (if part.name == "update" then CopyUpdate(old(memoryMap), part.payload)
                                 else old(memoryMap))
                && timer == Some(if data != [] then part.delay else IdleDelay)
    {
      var part: Record;
      var popped := false;
      if |data| > 0 {
        part := data[0];
        popped := true;
        data := data[1..];
        events := events + [Event(part.name, part.payload)];
        if part.name == "update" {
          var i := IndexOf(memoryMap, part.payload.entry.address).value;
          memoryMap := memoryMap[i := memoryMap[i].(prevValue := part.payload.entry.prevValue,
                                                    value := part.payload.entry.value)];
        }
      }
      if |data| > 0 {
        timer := Some(part.delay);
      } else {
        timer := Some(IdleDelay);
      }
    }

    /** The scheduled start firing; it fires only while it is scheduled. */
    method Fire()
      requires timer.Some?
      requires data != [] ==> Applicable(data[0].name, data[0].payload, KeysOf(memoryMap))
      modifies this`data, this`memoryMap, this`events, this`timer
      ensures State() == StartStep(old(State()))
    {
      Start();
    }

    /** `destroy`: cancel the scheduled start, so that no further start fires. */
    method Destroy()
      modifies this`timer
      ensures timer == None
    {
      if timer.Some? {
        timer := None;
      }
    }

    method GetMemory() returns (m: seq<MemoryEntry>)
      ensures m == memoryMap
    {
      m := memoryMap;
    }
  }
}
