/**
 * The memory-map table both engines share: one entry per tracked device
 * field, found by its three-hex-digit address, holding the latest and the
 * previous decoded reading.
 */
module MemoryMap {
  import opened JsText

  /**
   * One memory-map element. `size` is the size code ("S", "D" or "T") used
   * to build the read command; `multiple` is the optional scale factor.
   */
  datatype MemoryEntry = MemoryEntry(
    name: string,
    address: string,
    size: string,
    multiple: Option<int>,
    value: Reading,
    prevValue: Reading)

  /** The addresses of the table, in table order. */
  function KeysOf(m: seq<MemoryEntry>): (keys: seq<string>)
    ensures |keys| == |m|
    ensures forall i | 0 <= i < |m| :: keys[i] == m[i].address
  {
    seq(|m|, i requires 0 <= i < |m| => m[i].address)
  }

  /** `memoryMap.find(element => element.address === address)`, as an index. */
  function IndexOf(m: seq<MemoryEntry>, address: string): (r: Option<nat>)
    ensures r.Some? ==> r.value < |m| && m[r.value].address == address
    ensures r.Some? ==> forall j | 0 <= j < r.value :: m[j].address != address
    ensures r.None? <==> address !in KeysOf(m)
  {
    if m == [] then None
    else if m[0].address == address then Some(0)
    else match IndexOf(m[1..], address)
      case None => None
      case Some(i) => Some(i + 1)
  }

  /** The read command `'IR' + size + address`. */
  function ReadCommand(size: string, address: string): (cmd: string)
    ensures |cmd| == 2 + |size| + |address|
    ensures cmd[..2] == "IR" && cmd[2..2 + |size|] == size && cmd[2 + |size|..] == address
  {
    "IR" + size + address
  }

  /**
   * The commands one strobe sweep enqueues: one read command per entry, in
   * table order.
   */
  function StrobeCommands(m: seq<MemoryEntry>): (cmds: seq<string>)
    ensures |cmds| == |m|
    ensures forall i | 0 <= i < |m| :: cmds[i] == ReadCommand(m[i].size, m[i].address)
  {
    if m == [] then [] else StrobeCommands(m[..|m| - 1]) + [ReadCommand(m[|m| - 1].size, m[|m| - 1].address)]
  }

  /** A parsed reading after the entry's multiplier, applied only when it is truthy. */
  function Scaled(raw: Reading, e: MemoryEntry): (r: Reading)
    ensures raw.Num? ==> r == Num(raw.n * (if Truthy(e.multiple) then e.multiple.value else 1))
    ensures raw == NaN ==> r == NaN
    ensures raw == Undefined ==> r == (if Truthy(e.multiple) then NaN else Undefined)
  {
    if Truthy(e.multiple) then Times(raw, e.multiple.value) else raw
  }

  /**
   * Change detection: a reading that strictly differs from the stored value
   * shifts the old value into `prevValue` and stores the new one; an equal
   * reading leaves the entry as it was. The flag says whether an update is
   * to be emitted.
   */
  function ApplyReading(e: MemoryEntry, v: Reading): (r: (MemoryEntry, bool))
    ensures r.1 <==> StrictlyDiffers(e.value, v)
    ensures r.1 ==> r.0 == e.(prevValue := e.value, value := v)
    ensures !r.1 ==> r.0 == e
    ensures r.0.address == e.address
  {
    if StrictlyDiffers(e.value, v) then (e.(prevValue := e.value, value := v), true) else (e, false)
  }

  /** Every entry's `value` set to 0, as a zeroing reset does; nothing else changes. */
  function Zeroed(m: seq<MemoryEntry>): (z: seq<MemoryEntry>)
    ensures |z| == |m|
    ensures forall i | 0 <= i < |m| :: z[i] == m[i].(value := Num(0))
  {
    seq(|m|, i requires 0 <= i < |m| => m[i].(value := Num(0)))
  }

  /**
   * De-duplication: once a reading other than NaN has been applied, the same
   * reading again is no change, and the entry keeps the value and the
   * previous value of the first application.
   */
  lemma RepeatedReadingIsSilent(e: MemoryEntry, v: Reading)
    requires v != NaN
    ensures !ApplyReading(ApplyReading(e, v).0, v).1
    ensures ApplyReading(ApplyReading(e, v).0, v).0 == ApplyReading(e, v).0
  {
    StrictlyDiffersFacts(v, v);
  }

  /** A NaN reading (a data field without hexadecimal digits) is reported
      as a change every time, because NaN is never strictly equal to anything. */
  lemma NaNReadingAlwaysChanges(e: MemoryEntry)
    ensures ApplyReading(e, NaN).1
    ensures ApplyReading(e, NaN).0.value == NaN && ApplyReading(e, NaN).0.prevValue == e.value
  {
  }

  /** Updating a table element through `ApplyReading` keeps every address. */
  lemma ApplyReadingKeepsKeys(m: seq<MemoryEntry>, i: nat, v: Reading)
    requires i < |m|
    ensures KeysOf(m[i := ApplyReading(m[i], v).0]) == KeysOf(m)
  {
  }

  lemma ZeroedKeepsKeys(m: seq<MemoryEntry>)
    ensures KeysOf(Zeroed(m)) == KeysOf(m)
  {
  }
}
