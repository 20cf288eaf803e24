/** `checkRateLimit`: at most 20 calls per token key in a window of one
    minute. Each key has a record of the calls counted and the start of its
    window; a call either is allowed and counted, or refused. */
module RateLimit {
  import opened Wrappers

  const RateLimitWindowMs: int := 60 * 1000
  const MaxCallsPerWindow: int := 20

  datatype RateRecord = RateRecord(calls: int, windowStart: int)

  /** The outcome of one call: whether it is allowed and the key's record
      afterwards. */
  datatype Decision = Decision(allowed: bool, record: RateRecord)

  /** The rule inside the transaction: a first call opens a window; a call
      more than a minute after the window opened opens a new one; a call in
      a window that has 20 calls is refused and changes nothing; any other
      call is counted. */
  function Step(record: Option<RateRecord>, now: int): (d: Decision)
    ensures d.allowed <==>
      record.None? || now - record.value.windowStart > RateLimitWindowMs || record.value.calls < MaxCallsPerWindow
    ensures !d.allowed ==> d.record == record.value
    ensures d.allowed ==>
      if record.Some? && now - record.value.windowStart <= RateLimitWindowMs
      then d.record == RateRecord(record.value.calls + 1, record.value.windowStart)
      else d.record == RateRecord(1, now)
  {
    if record.None? then Decision(true, RateRecord(1, now))
    else
      var windowStart := record.value.windowStart;
      var calls := record.value.calls;
      if now - windowStart > RateLimitWindowMs then Decision(true, RateRecord(1, now))
      else if calls >= MaxCallsPerWindow then Decision(false, record.value)
      else Decision(true, RateRecord(calls + 1, windowStart))
  }

  /** A stored count in [1, 20]. */
  predicate CountInRange(r: RateRecord) {
    1 <= r.calls <= MaxCallsPerWindow
  }

  /** The step never stores a count outside [1, 20] when the record it
      starts from, if any, had one inside. */
  lemma StepKeepsCountInRange(record: Option<RateRecord>, now: int)
    requires record.Some? ==> CountInRange(record.value)
    ensures CountInRange(Step(record, now).record)
  {
  }

  datatype RunResult = RunResult(allowed: nat, last: Option<RateRecord>)

  /** The calls allowed in a run of calls on one key, and the record after
      them. */
  function Run(record: Option<RateRecord>, nows: seq<int>): (r: RunResult)
    ensures nows != [] ==> r.last.Some?
    ensures nows == [] ==> r == RunResult(0, record)
    decreases |nows|
  {
    if nows == [] then RunResult(0, record)
    else
      var d := Step(record, nows[0]);
      var rest := Run(Some(d.record), nows[1..]);
      RunResult((if d.allowed then 1 else 0) + rest.allowed, rest.last)
  }

  /** Within one window, a key that has used `c` calls gets at most `20 - c`
      more, and its window does not move. */
  lemma {:induction false} RunWithinWindow(r: RateRecord, nows: seq<int>)
    requires 0 <= r.calls <= MaxCallsPerWindow
    requires forall i :: 0 <= i < |nows| ==> nows[i] - r.windowStart <= RateLimitWindowMs
    ensures Run(Some(r), nows).allowed <= MaxCallsPerWindow - r.calls
    ensures Run(Some(r), nows).last.value.windowStart == r.windowStart
    decreases |nows|
  {
    if nows != [] {
      var d := Step(Some(r), nows[0]);
      assert d.record.windowStart == r.windowStart;
      RunWithinWindow(d.record, nows[1..]);
    }
  }

  /** A key makes at most 20 allowed calls in the minute after its window
      opens: the first call of a run on a fresh key opens the window, and no
      call within the following 60 seconds is allowed beyond the twentieth. */
  lemma AtMostTwentyPerWindow(nows: seq<int>)
    requires nows != []
    requires forall i :: 0 <= i < |nows| ==> nows[i] - nows[0] <= RateLimitWindowMs
    ensures Run(None, nows).allowed <= MaxCallsPerWindow
  {
    var first := RateRecord(1, nows[0]);
    assert Step(None, nows[0]) == Decision(true, first);
    forall i | 0 <= i < |nows[1..]|
      ensures nows[1..][i] - first.windowStart <= RateLimitWindowMs
    {
      assert nows[1..][i] == nows[i + 1];
    }
    RunWithinWindow(first, nows[1..]);
  }

  /** The per-key records of the rate-limit collection. */
  class RateLimiter {
    var records: map<string, RateRecord>

    /** Every stored count lies in [1, 20]. */
    predicate Valid()
      reads this
    {
      forall key :: key in records ==> CountInRange(records[key])
    }

    constructor()
      ensures records == map[] && Valid()
    {
      records := map[];
    }

    /** `checkRateLimit`: runs the rule on the key's record and stores the
        new record when it changed. When the transaction fails the call is
        allowed and nothing is stored. */
    method CheckRateLimit(tokenHash: string, now: int, transactionFails: bool) returns (allowed: bool)
      requires Valid()
      modifies this
      ensures Valid()
      ensures transactionFails ==> allowed && records == old(records)
      ensures !transactionFails ==>
        var d := Step(if tokenHash in old(records) then Some(old(records)[tokenHash]) else None, now);
        allowed == d.allowed && records == old(records)[tokenHash := d.record]
    {
      if transactionFails {
        return true;
      }
      var record := if tokenHash in records then Some(records[tokenHash]) else None;
      var d := Step(record, now);
      StepKeepsCountInRange(record, now);
      if d.allowed {
        records := records[tokenHash := d.record];
      } else {
        assert records == records[tokenHash := d.record];
      }
      allowed := d.allowed;
    }
  }
}
