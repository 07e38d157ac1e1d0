/**
 * The event side of an engine: the ordered stream of `state` and `update`
 * events delivered to subscribers, and the optional recorder that writes
 * one `(event, milliseconds since the previous record, payload)` entry per
 * emitted event.
 */
module Events {
  import opened JsText
  import opened MemoryMap

  datatype Status = Started | Stopped | Reconnecting | Reset | Error

  /** `{ status, details? }` for a state event; the changed entry for an update. */
  datatype Payload =
    | StateInfo(status: Status, details: Option<string>)
    | EntryInfo(entry: MemoryEntry)

  datatype Event = Event(name: string, payload: Payload)

  /** One recorded entry `[event, sinceLast, payload]`. */
  datatype Record = Record(name: string, delay: int, payload: Payload)

  /**
   * The emitter and the recorder together: every event delivered so far, in
   * order; whether a recording sink is attached; what it has been given; and
   * the time of the last recorded emission (the recorder's `timer`).
   */
  datatype Bus = Bus(events: seq<Event>, recording: bool, recorded: seq<Record>, lastEmit: int)

  function StateEvent(status: Status, details: Option<string>): Event
  {
    Event("state", StateInfo(status, details))
  }

  function UpdateEvent(e: MemoryEntry): Event
  {
    Event("update", EntryInfo(e))
  }

  /** `_emit`: deliver the event, and when recording, record it with the time since the last record. */
  function Emit(b: Bus, now: int, e: Event): (r: Bus)
    ensures r.events == b.events + [e] && r.recording == b.recording
    ensures b.recording ==> r.recorded == b.recorded + [Record(e.name, now - b.lastEmit, e.payload)] && r.lastEmit == now
    ensures !b.recording ==> r.recorded == b.recorded && r.lastEmit == b.lastEmit
  {
    if b.recording then
      b.(events := b.events + [e],
         recorded := b.recorded + [Record(e.name, now - b.lastEmit, e.payload)],
         lastEmit := now)
    else b.(events := b.events + [e])
  }

  function SumDelays(rs: seq<Record>): int
  {
    if rs == [] then 0 else SumDelays(rs[..|rs| - 1]) + rs[|rs| - 1].delay
  }

  /**
   * What the recorder promises: when a sink is attached from the start (at
   * time `origin`), it holds one record per delivered event with the same
   * event name and payload, in the same order, and the recorded delays add
   * up to the time from `origin` to the last emission.
   */
  ghost predicate Mirrors(b: Bus, origin: int)
  {
    b.recording ==>
      && |b.recorded| == |b.events|
      && (forall i | 0 <= i < |b.events| ::
            b.recorded[i].name == b.events[i].name && b.recorded[i].payload == b.events[i].payload)
      && origin + SumDelays(b.recorded) == b.lastEmit
  }

  /** An event that a playback engine can apply: an update names a known address. */
  ghost predicate Applicable(name: string, p: Payload, keys: seq<string>)
  {
    name == "update" ==> p.EntryInfo? && p.entry.address in keys
  }

  ghost predicate AllApplicable(es: seq<Event>, keys: seq<string>)
  {
    forall i | 0 <= i < |es| :: Applicable(es[i].name, es[i].payload, keys)
  }

  /**
   * Emitting keeps the recorder a mirror of the event stream, appends the
   * event and nothing else to the stream, and records no negative delay when
   * time has not gone backwards.
   */
  lemma EmitKeepsMirror(b: Bus, origin: int, now: int, e: Event)
    requires Mirrors(b, origin) && b.lastEmit <= now
    ensures Mirrors(Emit(b, now, e), origin)
    ensures Emit(b, now, e).events == b.events + [e]
    ensures Emit(b, now, e).recording == b.recording
    ensures Emit(b, now, e).lastEmit <= now
    ensures b.recording ==> Emit(b, now, e).recorded[|b.recorded|].delay >= 0
  {
    var r := Emit(b, now, e);
    if b.recording {
      assert r.recorded[..|r.recorded| - 1] == b.recorded;
      assert SumDelays(r.recorded) == SumDelays(b.recorded) + (now - b.lastEmit);
    }
  }

  lemma EmitKeepsApplicable(es: seq<Event>, keys: seq<string>, e: Event)
    requires AllApplicable(es, keys) && Applicable(e.name, e.payload, keys)
    ensures AllApplicable(es + [e], keys)
  {
  }
}
