/** The observable behaviour of the daemon: the calls it makes on the device
    client and on the export plugins, and the sleeps between poll cycles. */
module Trace {

  datatype Event =
    | CheckConnection
    | ConfigureRegisters
    | Scrape
    | Close
    | Disconnect
    /** `configure` on the export built from the entry at this position of the config list */
    | Configure(position: nat)
    /** `publish` on the export built from the entry at this position of the config list */
    | Publish(position: nat)
    /** `time.sleep`, in hundredths of a second; `slow` when the too-slow warning was logged */
    | Sleep(centis: int, slow: bool)

  /** How many times `e` occurs in `s`. */
  function Count(s: seq<Event>, e: Event): (n: nat)
    ensures n <= |s|
  {
    if s == [] then 0 else (if s[0] == e then 1 else 0) + Count(s[1..], e)
  }

  /** `e` occurs nowhere in `s` exactly when it is counted zero times. */
  lemma {:induction false} CountAbsent(s: seq<Event>, e: Event)
    ensures Count(s, e) == 0 <==> e !in s
    decreases |s|
  {
    if s != [] {
      CountAbsent(s[1..], e);
      assert s == [s[0]] + s[1..];
    }
  }

  lemma {:induction false} CountAppend(a: seq<Event>, b: seq<Event>, e: Event)
    ensures Count(a + b, e) == Count(a, e) + Count(b, e)
  {
    if a == [] {
      assert a + b == b;
    } else {
      assert (a + b)[1..] == a[1..] + b;
      CountAppend(a[1..], b, e);
    }
  }

  /** The positions of the `Publish` events of `s`, in order. */
  function Published(s: seq<Event>): (ps: seq<nat>)
    ensures |ps| <= |s|
  {
    if s == [] then []
    else (if s[0].Publish? then [s[0].position] else []) + Published(s[1..])
  }

  lemma {:induction false} PublishedAppend(a: seq<Event>, b: seq<Event>)
    ensures Published(a + b) == Published(a) + Published(b)
  {
    if a == [] {
      assert a + b == b;
    } else {
      var head := if a[0].Publish? then [a[0].position] else [];
      assert (a + b)[0] == a[0];
      assert (a + b)[1..] == a[1..] + b;
      PublishedAppend(a[1..], b);
      calc {
        Published(a + b);
        head + Published(a[1..] + b);
        head + (Published(a[1..]) + Published(b));
        (head + Published(a[1..])) + Published(b);
      }
    }
  }

  /** How many `Sleep` events `s` holds. */
  function SleepCount(s: seq<Event>): (n: nat)
    ensures n <= |s|
  {
    if s == [] then 0 else (if s[0].Sleep? then 1 else 0) + SleepCount(s[1..])
  }

  lemma {:induction false} NoSleep(s: seq<Event>)
    requires forall i :: 0 <= i < |s| ==> !s[i].Sleep?
    ensures SleepCount(s) == 0
    decreases |s|
  {
    if s != [] {
      NoSleep(s[1..]);
    }
  }
}
