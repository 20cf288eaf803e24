/** The sleep history: the calculations the user saved, newest first, at
    most 100 of them, mirrored in the browser's local storage under the key
    `sleepHistory`. */
module SleepHistory {
  import opened Wrappers
  import Radix
  import RealMath

  /** How many entries the history keeps. */
  const MaxEntries: nat := 100

  /** A saved calculation. */
  datatype SleepEntry = SleepEntry(
    id: string,
    date: string,
    bedtime: string,
    wakeupTime: string,
    completeCycles: real,
    partialCycle: real,
    idealBedtime: string,
    idealWakeupTime: string)

  /** A calculation as the caller hands it in: an entry without its id. */
  datatype NewSleepEntry = NewSleepEntry(
    date: string,
    bedtime: string,
    wakeupTime: string,
    completeCycles: real,
    partialCycle: real,
    idealBedtime: string,
    idealWakeupTime: string)

  /** `{ ...entry, id }`: the supplied fields and the id. */
  function WithId(entry: NewSleepEntry, id: string): (r: SleepEntry)
    ensures r.id == id
    ensures DropId(r) == entry
  {
    SleepEntry(id, entry.date, entry.bedtime, entry.wakeupTime, entry.completeCycles,
      entry.partialCycle, entry.idealBedtime, entry.idealWakeupTime)
  }

  /** The fields of an entry other than its id. */
  function DropId(e: SleepEntry): NewSleepEntry {
    NewSleepEntry(e.date, e.bedtime, e.wakeupTime, e.completeCycles, e.partialCycle,
      e.idealBedtime, e.idealWakeupTime)
  }

  /** `Date.now().toString()`: the id is the decimal rendering of the clock
      in milliseconds. */
  function IdAt(nowMs: nat): (id: string)
    ensures |id| >= 1 && forall i :: 0 <= i < |id| ==> '0' <= id[i] <= '9'
  {
    Radix.ToRadix(nowMs, 10)
  }

  /** `[newEntry, ...history].slice(0, 100)`: the new entry goes first and
      only the oldest entry is dropped when the history is full. */
  function Prepend(history: seq<SleepEntry>, e: SleepEntry): (r: seq<SleepEntry>)
    ensures |r| == RealMath.MinInt(|history| + 1, MaxEntries)
    ensures r[0] == e
    ensures r[1..] == history[..RealMath.MinInt(|history|, MaxEntries - 1)]
  {
    var updated := [e] + history;
    if |updated| <= MaxEntries then updated else updated[..MaxEntries]
  }

  /** A history that is already full loses exactly its oldest entry; one
      that is not loses none. */
  lemma PrependEvictsOnlyOldest(history: seq<SleepEntry>, e: SleepEntry)
    requires |history| <= MaxEntries
    ensures |history| < MaxEntries ==> Prepend(history, e) == [e] + history
    ensures |history| == MaxEntries ==> Prepend(history, e) + [history[MaxEntries - 1]] == [e] + history
  {
    var r := Prepend(history, e);
    if |history| == MaxEntries {
      assert r == [e] + history[..MaxEntries - 1];
      assert history[..MaxEntries - 1] + [history[MaxEntries - 1]] == history;
    } else {
      assert r == [e] + r[1..];
    }
  }

  /** The history provider: the history shown and the copy kept in local
      storage (`None` when the key is absent). */
  class SleepHistoryStore {
    var history: seq<SleepEntry>
    var stored: Option<seq<SleepEntry>>

    /** Mounting the provider: the history starts empty and is replaced by
        the saved one when the key holds one. */
    constructor(saved: Option<seq<SleepEntry>>)
      ensures history == (if saved.Some? then saved.value else [])
      ensures stored == saved
    {
      history := [];
      stored := saved;
      if saved.Some? {
        history := saved.value;
      }
    }

    /** `addEntry`: the entry gets the clock's id and goes first; the new
        history replaces the old one and is written to local storage. */
    method AddEntry(entry: NewSleepEntry, nowMs: nat)
      modifies this
      ensures history == Prepend(old(history), WithId(entry, IdAt(nowMs)))
      ensures stored == Some(history)
      ensures |history| <= MaxEntries && DropId(history[0]) == entry
    {
      var newEntry := WithId(entry, IdAt(nowMs));
      var updatedHistory := Prepend(history, newEntry);
      history := updatedHistory;
      stored := Some(updatedHistory);
    }

    /** `clearHistory`: the history is emptied and the key removed. */
    method ClearHistory()
      modifies this
      ensures history == [] && stored == None
    {
      history := [];
      stored := None;
    }
  }

  /** The operations of the provider, for reasoning about a run of them. */
  datatype Op = Add(entry: NewSleepEntry, nowMs: nat) | Clear

  /** The history after one operation. */
  function Apply(history: seq<SleepEntry>, op: Op): seq<SleepEntry> {
    match op
    case Add(entry, nowMs) => Prepend(history, WithId(entry, IdAt(nowMs)))
    case Clear => []
  }

  /** The history after a run of operations, first to last. */
  function Replay(history: seq<SleepEntry>, ops: seq<Op>): seq<SleepEntry>
    decreases |ops|
  {
    if ops == [] then history else Replay(Apply(history, ops[0]), ops[1..])
  }

  /** However many entries the saved history had, after at least one
      operation the history holds at most 100; and from a history of at most
      100 it never holds more. */
  lemma {:induction false} ReplayBounded(history: seq<SleepEntry>, ops: seq<Op>)
    requires |history| <= MaxEntries || ops != []
    ensures |Replay(history, ops)| <= MaxEntries
    decreases |ops|
  {
    if ops != [] {
      ReplayBounded(Apply(history, ops[0]), ops[1..]);
    }
  }

  /** The entries a run of additions creates, newest first. */
  function Added(ops: seq<Op>): (r: seq<SleepEntry>)
    requires forall i :: 0 <= i < |ops| ==> ops[i].Add?
    ensures |r| == |ops|
    ensures forall i :: 0 <= i < |ops| ==> DropId(r[i]) == ops[|ops| - 1 - i].entry
  {
    if ops == [] then []
    else
      var rest := Added(ops[1..]);
      assert forall i :: 0 <= i < |rest| ==> DropId(rest[i]) == ops[1..][|rest| - 1 - i].entry;
      rest + [WithId(ops[0].entry, IdAt(ops[0].nowMs))]
  }

  /** A run of additions that fits puts its entries, newest first, in front
      of the history and evicts nothing. */
  lemma {:induction false} ReplayAddsNewestFirst(history: seq<SleepEntry>, ops: seq<Op>)
    requires forall i :: 0 <= i < |ops| ==> ops[i].Add?
    requires |history| + |ops| <= MaxEntries
    ensures Replay(history, ops) == Added(ops) + history
    decreases |ops|
  {
    if ops != [] {
      var added := WithId(ops[0].entry, IdAt(ops[0].nowMs));
      PrependEvictsOnlyOldest(history, added);
      assert Apply(history, ops[0]) == [added] + history;
      var rest := ops[1..];
      assert forall i :: 0 <= i < |rest| ==> rest[i] == ops[i + 1];
      ReplayAddsNewestFirst([added] + history, rest);
      Regroup(Added(rest), added, history);
    }
  }

  /** Joining is associative around a single entry. */
  lemma Regroup(front: seq<SleepEntry>, e: SleepEntry, back: seq<SleepEntry>)
    ensures front + ([e] + back) == (front + [e]) + back
  {
  }
}
