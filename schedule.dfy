/** The sleep at the end of each poll cycle. Times are whole hundredths of a
    second: the processing time is already rounded to two decimals, and the
    scan interval is a whole number of seconds. */
module Schedule {
  import opened Values

  /** `scan_interval` in hundredths of a second, as `scan_interval - process_time` sees it:
      an int, or a bool (which Python counts as 0 or 1); None where the subtraction raises TypeError. */
  function IntervalCentis(v: Value): (r: Option<int>)
    ensures r.Some? <==> v.VInt? || v.VBool?
    ensures v.VInt? ==> r == Some(100 * v.i)
    ensures v.VBool? ==> r == Some(if v.b then 100 else 0)
  {
    match v
    case VInt(i) => Some(100 * i)
    case VBool(b) => Some(if b then 100 else 0)
    case _ => None
  }

  /** How long to sleep, and whether the too-slow warning is logged. */
  datatype SleepDecision = SleepDecision(centis: int, slow: bool)

  /** The end of the `while True` body: when the interval leaves at most one second after processing, warn
      and sleep as long as processing took; otherwise sleep the rest of the interval. */
  function SleepRule(interval: int, processing: nat): (d: SleepDecision)
    ensures d.slow <==> interval - processing <= 100
    ensures d.centis >= 0
  {
    if interval - processing <= 100 then SleepDecision(processing, true)
    else SleepDecision(interval - processing, false)
  }

  /** When the interval leaves more than a second after processing, the cycle sleeps the rest of the interval,
      and that is more than a second; otherwise it sleeps as long as it processed. */
  lemma SleepFillsInterval(interval: int, processing: nat)
    ensures var d := SleepRule(interval, processing);
      && (!d.slow ==> processing + d.centis == interval && d.centis > 100)
      && (d.slow ==> d.centis == processing && processing >= interval - 100)
  {
  }

  /** The sleep never exceeds the larger of the interval and the processing time. */
  lemma SleepBounded(interval: int, processing: nat)
    ensures SleepRule(interval, processing).centis <= if interval > processing then interval else processing
  {
  }

  /** From one cycle's start to the next, in model time: the rounded processing time plus the sleep.
      The work after the measurement and before `time.sleep`, and any oversleep, are not counted. */
  function Period(interval: int, processing: nat): (r: int) {
    processing + SleepRule(interval, processing).centis
  }

  /** Model time from the first cycle's start to the start of the cycle after the last one. */
  function Elapsed(interval: int, processing: seq<nat>): (r: int)
    decreases |processing|
  {
    if processing == [] then 0 else Period(interval, processing[0]) + Elapsed(interval, processing[1..])
  }

  /** No drift in model time: while every cycle finishes more than a second before the interval is up,
      cycle number n starts exactly n intervals after the first. */
  lemma {:induction false} NoDrift(interval: int, processing: seq<nat>)
    requires forall i :: 0 <= i < |processing| ==> processing[i] < interval - 100
    ensures Elapsed(interval, processing) == |processing| * interval
    decreases |processing|
  {
    if processing != [] {
      NoDrift(interval, processing[1..]);
    }
  }

  /** However slow the cycles, n of them never take less, in model time, than n times the interval
      minus one second. */
  lemma {:induction false} SlowCycleBackoff(interval: int, processing: seq<nat>)
    ensures Elapsed(interval, processing) >= |processing| * (interval - 100)
    decreases |processing|
  {
    if processing != [] {
      SlowCycleBackoff(interval, processing[1..]);
    }
  }
}
