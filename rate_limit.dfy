/**
 * The demo-request API's fixed-window rate limiter: at most ten accepted
 * requests per client address in a window of sixty seconds, kept in a
 * module-level map from address to `{count, resetTime}`.
 */
module RateLimit {

  const WINDOW_MS: int := 60 * 1000
  const MAX_REQUESTS: int := 10

  /** The per-address record: requests counted so far, and when the window ends. */
  datatype Record = Record(count: int, resetTime: int)

  /** What one call leaves behind: the new map, and whether the request may proceed. */
  datatype Verdict = Verdict(records: map<string, Record>, allowed: bool)

  /** Every stored count lies between 1 and the maximum. */
  ghost predicate WellFormed(records: map<string, Record>) {
    forall ip :: ip in records ==> 1 <= records[ip].count <= MAX_REQUESTS
  }

  /** No record for the address, or its window has passed: a new window starts. */
  predicate StartsWindow(records: map<string, Record>, ip: string, now: int) {
    ip !in records || now > records[ip].resetTime
  }

  /** One call of the limiter, on values: the specification of `Limiter.CheckRateLimit`. */
  function Step(records: map<string, Record>, ip: string, now: int): (v: Verdict)
    ensures v.records.Keys == records.Keys + {ip}
    ensures forall other :: other in records && other != ip ==> v.records[other] == records[other]
    ensures StartsWindow(records, ip, now) ==> v.allowed && v.records[ip] == Record(1, now + WINDOW_MS)
    ensures !StartsWindow(records, ip, now) && records[ip].count >= MAX_REQUESTS ==>
              !v.allowed && v.records == records
    ensures !StartsWindow(records, ip, now) && records[ip].count < MAX_REQUESTS ==>
              v.allowed && v.records[ip] == Record(records[ip].count + 1, records[ip].resetTime)
  {
    if StartsWindow(records, ip, now) then
      Verdict(records[ip := Record(1, now + WINDOW_MS)], true)
    else if records[ip].count >= MAX_REQUESTS then
      Verdict(records, false)
    else
      Verdict(records[ip := records[ip].(count := records[ip].count + 1)], true)
  }

  /** The limiter never stores a count outside `1..10`. */
  lemma StepPreservesWellFormed(records: map<string, Record>, ip: string, now: int)
    requires WellFormed(records)
    ensures WellFormed(Step(records, ip, now).records)
  {
  }

  /** A call is refused exactly when the address's window is still live and already holds ten requests. */
  lemma StepRefusesOnlyAtTheLimit(records: map<string, Record>, ip: string, now: int)
    requires WellFormed(records)
    ensures !Step(records, ip, now).allowed <==>
              !StartsWindow(records, ip, now) && records[ip].count == MAX_REQUESTS
  {
  }

  /** The map after a series of calls for one address at the given times. */
  function AfterCalls(records: map<string, Record>, ip: string, times: seq<int>): map<string, Record>
    decreases |times|
  {
    if times == [] then records
    else AfterCalls(Step(records, ip, times[0]).records, ip, times[1..])
  }

  /** How many of a series of calls for one address are accepted. */
  function AcceptedCalls(records: map<string, Record>, ip: string, times: seq<int>): nat
    decreases |times|
  {
    if times == [] then 0
    else
      var v := Step(records, ip, times[0]);
      (if v.allowed then 1 else 0) + AcceptedCalls(v.records, ip, times[1..])
  }

  /**
   * Inside a live window (every call at or before the stored reset time),
   * no more calls are accepted than the window has left.
   */
  lemma {:induction false} LiveWindowBound(records: map<string, Record>, ip: string, times: seq<int>)
    requires WellFormed(records)
    requires ip in records
    requires forall k :: 0 <= k < |times| ==> times[k] <= records[ip].resetTime
    ensures AcceptedCalls(records, ip, times) <= MAX_REQUESTS - records[ip].count
    decreases |times|
  {
    if times != [] {
      var v := Step(records, ip, times[0]);
      StepPreservesWellFormed(records, ip, times[0]);
      assert v.records[ip].resetTime == records[ip].resetTime;
      LiveWindowBound(v.records, ip, times[1..]);
    }
  }

  /**
   * Between two resets at most ten calls for one address are accepted: a call
   * that opens a window at `start`, followed by any calls no later than the
   * window's end, is accepted at most ten times in all.
   */
  lemma AtMostTenPerWindow(records: map<string, Record>, ip: string, start: int, later: seq<int>)
    requires WellFormed(records)
    requires StartsWindow(records, ip, start)
    requires forall k :: 0 <= k < |later| ==> later[k] <= start + WINDOW_MS
    ensures AcceptedCalls(records, ip, [start] + later) <= MAX_REQUESTS
  {
    var v := Step(records, ip, start);
    StepPreservesWellFormed(records, ip, start);
    assert ([start] + later)[1..] == later;
    LiveWindowBound(v.records, ip, later);
  }

  /** Calls for one address never touch the records of any other address. */
  lemma {:induction false} OtherAddressesUntouched(records: map<string, Record>, ip: string, times: seq<int>, other: string)
    requires other != ip && other in records
    ensures other in AfterCalls(records, ip, times)
    ensures AfterCalls(records, ip, times)[other] == records[other]
    decreases |times|
  {
    if times != [] {
      OtherAddressesUntouched(Step(records, ip, times[0]).records, ip, times[1..], other);
    }
  }

  /** The limiter's state: the map kept for the lifetime of the server instance. */
  class Limiter {
    var records: map<string, Record>

    ghost predicate Valid()
      reads this
    {
      WellFormed(records)
    }

    constructor ()
      ensures Valid() && records == map[]
    {
      records := map[];
    }

    /** `checkRateLimit(ip)`, with the clock reading passed in as `now`. */
    method CheckRateLimit(ip: string, now: int) returns (allowed: bool)
      requires Valid()
      modifies this
      ensures Valid()
      ensures Verdict(records, allowed) == Step(old(records), ip, now)
      ensures forall other :: other in old(records) && other != ip ==> other in records && records[other] == old(records)[other]
    {
      if ip !in records || now > records[ip].resetTime {
        records := records[ip := Record(1, now + WINDOW_MS)];
        return true;
      }
      var record := records[ip];
      if record.count >= MAX_REQUESTS {
        return false;
      }
      records := records[ip := record.(count := record.count + 1)];
      return true;
    }
  }
}
