/** One pass of the `while True` body up to the processing-time measurement:
    check the connection, scrape inside a catch-all, then either publish to
    every export and close, or disconnect. */
module PollCycle {
  import opened Trace
  import opened Exports

  /** What `wallbox.scrape()` does: return a truthy value, return a falsy one, or raise. */
  datatype ScrapeOutcome = ScrapeTruthy | ScrapeFalsy | ScrapeRaises

  /** The calls of one cycle, and whether an uncaught exception ended the program during it. */
  datatype PollResult = PollResult(events: seq<Event>, crashed: bool)

  /** `publish` on each export in list order. The loop has no `try`: a `publish` that raises
      (its position is in `raising`) ends the program, and no later export is called. */
  function PublishAll(exports: seq<ActiveExport>, raising: set<nat>): (r: PollResult)
    ensures |r.events| <= |exports|
    ensures |r.events| < |exports| ==> r.crashed
    decreases |exports|
  {
    if exports == [] then PollResult([], false)
    else if exports[0].position in raising then PollResult([Publish(exports[0].position)], true)
    else
      var rest := PublishAll(exports[1..], raising);
      PollResult([Publish(exports[0].position)] + rest.events, rest.crashed)
  }

  /** The cycle. `persistent` is `connection == "http"`; the answer of `checkConnection` is not an
      input, because the code never looks at it. */
  function Poll(exports: seq<ActiveExport>, persistent: bool, scrape: ScrapeOutcome, raising: set<nat>): (r: PollResult)
    ensures |r.events| >= 2 && r.events[0] == CheckConnection && r.events[1] == Scrape
    ensures r.crashed ==> scrape == ScrapeTruthy
  {
    var head := [CheckConnection, Scrape];
    if scrape == ScrapeTruthy then
      var p := PublishAll(exports, raising);
      if p.crashed then PollResult(head + p.events, true)
      else PollResult(head + p.events + (if persistent then [] else [Close]), false)
    else PollResult(head + [Disconnect], false)
  }

  function Positions(exports: seq<ActiveExport>): (ps: seq<nat>)
    ensures |ps| == |exports|
    ensures forall i :: 0 <= i < |exports| ==> ps[i] == exports[i].position
  {
    seq(|exports|, i requires 0 <= i < |exports| => exports[i].position)
  }

  /** `publish` on the first `n` exports, in list order. */
  function PublishCalls(exports: seq<ActiveExport>, n: nat): (es: seq<Event>)
    requires n <= |exports|
    ensures |es| == n
    ensures forall i :: 0 <= i < n ==> es[i] == Publish(exports[i].position)
  {
    seq(n, i requires 0 <= i < n => Publish(exports[i].position))
  }

  /** The first `n` calls publish the first `n` positions. */
  lemma {:induction false} PublishedCalls(exports: seq<ActiveExport>, n: nat)
    requires n <= |exports|
    ensures Published(PublishCalls(exports, n)) == Positions(exports[..n])
    decreases n
  {
    if n > 0 {
      PublishedCalls(exports, n - 1);
      assert PublishCalls(exports, n) == PublishCalls(exports, n - 1) + [Publish(exports[n - 1].position)];
      PublishedAppend(PublishCalls(exports, n - 1), [Publish(exports[n - 1].position)]);
      assert Positions(exports[..n]) == Positions(exports[..n - 1]) + [exports[n - 1].position];
    }
  }

  /** No export raises among `exports`. */
  predicate NoneRaise(exports: seq<ActiveExport>, raising: set<nat>) {
    forall i :: 0 <= i < |exports| ==> exports[i].position !in raising
  }

  /** When no `publish` raises, every export is published, in list order, and nothing else is called. */
  lemma {:induction false} PublishAllInOrder(exports: seq<ActiveExport>, raising: set<nat>)
    requires NoneRaise(exports, raising)
    ensures var p := PublishAll(exports, raising);
      && !p.crashed
      && p.events == PublishCalls(exports, |exports|)
      && Published(p.events) == Positions(exports)
    decreases |exports|
  {
    if exports != [] {
      var p := PublishAll(exports, raising);
      var rest := PublishAll(exports[1..], raising);
      assert exports[0].position !in raising;
      assert NoneRaise(exports[1..], raising) by {
        forall i | 0 <= i < |exports| - 1 ensures exports[1..][i].position !in raising {
          assert exports[1..][i] == exports[i + 1];
        }
      }
      PublishAllInOrder(exports[1..], raising);
      assert p.events == [Publish(exports[0].position)] + rest.events;
      assert p.events == PublishCalls(exports, |exports|) by {
        forall i | 0 <= i < |exports| ensures p.events[i] == Publish(exports[i].position) {
          if i > 0 { assert exports[1..][i - 1] == exports[i]; }
        }
      }
      PublishedAppend([Publish(exports[0].position)], rest.events);
      assert Published([Publish(exports[0].position)]) == [exports[0].position];
      assert Positions(exports) == [exports[0].position] + Positions(exports[1..]);
    }
  }

  /** A `publish` that raises ends the cycle: the exports before it and it are published, none after it. */
  lemma {:induction false} PublishAllStopsAtRaise(exports: seq<ActiveExport>, raising: set<nat>, k: nat)
    requires k < |exports| && exports[k].position in raising
    requires NoneRaise(exports[..k], raising)
    ensures var p := PublishAll(exports, raising);
      && p.crashed
      && p.events == PublishCalls(exports, k + 1)
    decreases |exports|
  {
    if k > 0 {
      assert exports[1..][..k - 1] == exports[..k][1..];
      PublishAllStopsAtRaise(exports[1..], raising, k - 1);
      assert exports[0] == exports[..k][0];
    }
  }

  /** The publish loop ends the program exactly when some export's `publish` raises. */
  lemma {:induction false} PublishAllCrashesIffRaise(exports: seq<ActiveExport>, raising: set<nat>)
    ensures PublishAll(exports, raising).crashed <==> !NoneRaise(exports, raising)
    decreases |exports|
  {
    if exports != [] && exports[0].position !in raising {
      PublishAllCrashesIffRaise(exports[1..], raising);
      assert NoneRaise(exports, raising) <==> NoneRaise(exports[1..], raising) by {
        if NoneRaise(exports[1..], raising) {
          forall i | 0 <= i < |exports|
            ensures exports[i].position !in raising
          {
            if i > 0 { assert exports[i] == exports[1..][i - 1]; }
          }
        }
      }
    }
  }

  /** One more `publish` call: it extends the calls so far, and either the export does not raise, or
      the calls so far, this one included, are all `PublishAll` makes before the program ends. */
  lemma {:induction false} PublishStep(exports: seq<ActiveExport>, raising: set<nat>, i: nat)
    requires i < |exports| && NoneRaise(exports[..i], raising)
    ensures PublishCalls(exports, i + 1) == PublishCalls(exports, i) + [Publish(exports[i].position)]
    ensures exports[i].position !in raising ==> NoneRaise(exports[..i + 1], raising)
    ensures exports[i].position in raising ==> PublishAll(exports, raising) == PollResult(PublishCalls(exports, i + 1), true)
  {
    assert PublishCalls(exports, i + 1) == PublishCalls(exports, i) + [Publish(exports[i].position)];
    if exports[i].position in raising {
      PublishAllStopsAtRaise(exports, raising, i);
    } else {
      assert exports[..i + 1] == exports[..i] + [exports[i]];
    }
  }

  /** With positions in config order, each export is published exactly once. */
  lemma {:induction false} PublishAllExactlyOnce(exports: seq<ActiveExport>, raising: set<nat>, p: nat)
    requires NoneRaise(exports, raising)
    requires InConfigOrder(exports)
    ensures Count(PublishAll(exports, raising).events, Publish(p)) ==
      if exists i :: 0 <= i < |exports| && exports[i].position == p then 1 else 0
    decreases |exports|
  {
    if exports != [] {
      var rest := exports[1..];
      PublishAllExactlyOnce(rest, raising, p);
      var r := PublishAll(rest, raising).events;
      CountAppend([Publish(exports[0].position)], r, Publish(p));
      if exists i :: 0 <= i < |exports| && exports[i].position == p {
        var i :| 0 <= i < |exports| && exports[i].position == p;
        if exports[0].position == p {
          assert !exists j :: 0 <= j < |rest| && rest[j].position == p by {
            forall j | 0 <= j < |rest| ensures rest[j].position != p {
              assert rest[j] == exports[j + 1];
            }
          }
        } else {
          assert rest[i - 1].position == p;
        }
      } else {
        assert !exists j :: 0 <= j < |rest| && rest[j].position == p by {
          forall j | 0 <= j < |rest| ensures rest[j].position != p {
            assert rest[j] == exports[j + 1];
          }
        }
      }
    }
  }

  /** Every cycle starts by checking the connection and then scraping, each exactly once. */
  lemma {:induction false} PollStartsWithCheck(exports: seq<ActiveExport>, persistent: bool, scrape: ScrapeOutcome, raising: set<nat>)
    ensures var r := Poll(exports, persistent, scrape, raising);
      && |r.events| >= 2
      && r.events[..2] == [CheckConnection, Scrape]
      && Count(r.events, CheckConnection) == 1 && Count(r.events, Scrape) == 1
  {
    var r := Poll(exports, persistent, scrape, raising);
    var tail := r.events[2..];
    assert r.events == [CheckConnection, Scrape] + tail;
    if scrape == ScrapeTruthy {
      PublishOnly(exports, raising);
    }
    assert CheckConnection !in tail && Scrape !in tail;
    CountsAfterHead(tail);
  }

  /** A check and a scrape, followed by neither. */
  lemma {:induction false} CountsAfterHead(tail: seq<Event>)
    requires CheckConnection !in tail && Scrape !in tail
    ensures Count([CheckConnection, Scrape] + tail, CheckConnection) == 1
    ensures Count([CheckConnection, Scrape] + tail, Scrape) == 1
  {
    var head := [CheckConnection, Scrape];
    CountAbsent(tail, CheckConnection);
    CountAbsent(tail, Scrape);
    CountAppend(head, tail, CheckConnection);
    CountAppend(head, tail, Scrape);
    assert head[1..] == [Scrape];
  }

  /** `PublishAll` makes nothing but `publish` calls. */
  lemma {:induction false} PublishOnly(exports: seq<ActiveExport>, raising: set<nat>)
    ensures var p := PublishAll(exports, raising);
      && (forall i :: 0 <= i < |p.events| ==> p.events[i].Publish?)
      && Count(p.events, CheckConnection) == 0 && Count(p.events, Scrape) == 0
      && Count(p.events, Close) == 0 && Count(p.events, Disconnect) == 0
    decreases |exports|
  {
    if exports != [] && exports[0].position !in raising {
      PublishOnly(exports[1..], raising);
    }
  }

  /** A trace without `publish` calls publishes nothing. */
  lemma {:induction false} NothingPublished(s: seq<Event>)
    requires forall i :: 0 <= i < |s| ==> !s[i].Publish?
    ensures Published(s) == []
    decreases |s|
  {
    if s != [] {
      NothingPublished(s[1..]);
    }
  }

  /** A scrape that returns a falsy value or raises publishes nothing, never closes, and disconnects exactly once. */
  lemma {:induction false} PollFailure(exports: seq<ActiveExport>, persistent: bool, scrape: ScrapeOutcome, raising: set<nat>)
    requires scrape != ScrapeTruthy
    ensures var r := Poll(exports, persistent, scrape, raising);
      && !r.crashed
      && Published(r.events) == []
      && Count(r.events, Disconnect) == 1 && Count(r.events, Close) == 0
  {
    var r := Poll(exports, persistent, scrape, raising);
    NothingPublished(r.events);
    assert r.events == [CheckConnection, Scrape] + [Disconnect];
    CountAppend([CheckConnection, Scrape], [Disconnect], Disconnect);
    CountAppend([CheckConnection, Scrape], [Disconnect], Close);
    CountAbsent([CheckConnection, Scrape], Disconnect);
    CountAbsent([CheckConnection, Scrape], Close);
    CountAbsent([Disconnect], Close);
    assert [Disconnect][1..] == [];
  }

  /** A truthy scrape with no `publish` raising publishes to every export once, in list order. */
  lemma {:induction false} PollSuccess(exports: seq<ActiveExport>, persistent: bool, raising: set<nat>)
    requires NoneRaise(exports, raising)
    requires InConfigOrder(exports)
    ensures var r := Poll(exports, persistent, ScrapeTruthy, raising);
      && !r.crashed
      && Published(r.events) == Positions(exports)
      && forall e :: e in exports ==> Count(r.events, Publish(e.position)) == 1
  {
    var p := PublishAll(exports, raising);
    var close: seq<Event> := if persistent then [] else [Close];
    var head := [CheckConnection, Scrape];
    var r := Poll(exports, persistent, ScrapeTruthy, raising);
    PublishAllInOrder(exports, raising);
    assert r.events == head + (p.events + close);
    NothingPublished(head);
    NothingPublished(close);
    PublishedAppend(head, p.events + close);
    PublishedAppend(p.events, close);
    forall e | e in exports ensures Count(r.events, Publish(e.position)) == 1 {
      PublishAllExactlyOnce(exports, raising, e.position);
      CountBetween(head, p.events, close, Publish(e.position));
    }
  }

  /** An event absent from `a` and `c` occurs in `a + (b + c)` as often as in `b`. */
  lemma {:induction false} CountBetween(a: seq<Event>, b: seq<Event>, c: seq<Event>, e: Event)
    requires e !in a && e !in c
    ensures Count(a + (b + c), e) == Count(b, e)
  {
    CountAbsent(a, e);
    CountAbsent(c, e);
    CountAppend(a, b + c, e);
    CountAppend(b, c, e);
  }

  /** After a truthy scrape with no `publish` raising, the connection is closed exactly once, as the last call,
      unless it is "http"; it is never disconnected. */
  lemma {:induction false} PollSuccessCloses(exports: seq<ActiveExport>, persistent: bool, raising: set<nat>)
    requires NoneRaise(exports, raising)
    ensures var r := Poll(exports, persistent, ScrapeTruthy, raising);
      && Count(r.events, Close) == (if persistent then 0 else 1)
      && Count(r.events, Disconnect) == 0
      && (!persistent ==> r.events[|r.events| - 1] == Close)
  {
    var p := PublishAll(exports, raising);
    var close: seq<Event> := if persistent then [] else [Close];
    var head := [CheckConnection, Scrape];
    var r := Poll(exports, persistent, ScrapeTruthy, raising);
    PublishAllInOrder(exports, raising);
    PublishOnly(exports, raising);
    assert r.events == (head + p.events) + close;
    assert Close !in head + p.events && Disconnect !in close;
    CountBetween(head + p.events, close, [], Close);
    CountBetween(head, p.events, close, Disconnect);
    assert close + [] == close;
    assert r.events == head + (p.events + close);
  }

  /** A `publish` that raises ends the program in this cycle: exports after it are not published, and no
      `close` or `disconnect` follows. */
  lemma {:induction false} PollPublishRaises(exports: seq<ActiveExport>, persistent: bool, raising: set<nat>, k: nat)
    requires k < |exports| && exports[k].position in raising
    requires NoneRaise(exports[..k], raising)
    ensures var r := Poll(exports, persistent, ScrapeTruthy, raising);
      && r.crashed
      && Published(r.events) == Positions(exports[..k + 1])
      && r.events[|r.events| - 1] == Publish(exports[k].position)
      && Count(r.events, Close) == 0 && Count(r.events, Disconnect) == 0
  {
    var p := PublishAll(exports, raising);
    var head := [CheckConnection, Scrape];
    PublishAllStopsAtRaise(exports, raising, k);
    var r := Poll(exports, persistent, ScrapeTruthy, raising);
    assert r.events == head + p.events;
    PublishedAfterHead(p.events);
    PublishedCalls(exports, k + 1);
    PublishOnly(exports, raising);
    CountBetween(head, p.events, [], Close);
    CountBetween(head, p.events, [], Disconnect);
    assert p.events + [] == p.events;
  }

  /** A check and a scrape publish nothing. */
  lemma {:induction false} PublishedAfterHead(tail: seq<Event>)
    ensures Published([CheckConnection, Scrape] + tail) == Published(tail)
  {
    NothingPublished([CheckConnection, Scrape]);
    PublishedAppend([CheckConnection, Scrape], tail);
  }
}
