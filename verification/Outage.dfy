/**
 When a failing target is retried and when it counts as down. Times are nanoseconds since
 the epoch; the state keeps whole seconds, as it is saved. The recorded history is proved
 equal to a reading of the failures since the target was last caught up.
 */
module Outage {

  const SECOND := 1_000_000_000
  const MINUTE := 60 * SECOND
  const BACKOFF := [MINUTE, 5 * MINUTE, 15 * MINUTE, 30 * MINUTE]
  const DOWN_AFTER := 30 * MINUTE

  datatype Status = Idle | Retrying | Down | Stopped

  /** attempt is the process's own; the rest survives a restart. Zero is unset. */
  datatype Outage = Outage(attempt: nat, failingSince: int, downSince: int, nextRetry: int, status: Status)

  function Unix(t: int): int {
    t / SECOND
  }

  function Since(o: Outage, now: int): int {
    if o.failingSince == 0 then Unix(now) else o.failingSince
  }

  /** When a target failing since then counts as down. */
  function Mark(since: int): int {
    since * SECOND + DOWN_AFTER
  }

  function Delay(o: Outage, now: int): int {
    var delay := BACKOFF[if o.attempt < |BACKOFF| then o.attempt else |BACKOFF| - 1];
    var toDown := Mark(Since(o, now)) - now;
    if o.downSince == 0 && 0 < toDown < delay then toDown else delay
  }

  function Failed(o: Outage, now: int): Outage {
    var since := Since(o, now);
    var down := if now - since * SECOND >= DOWN_AFTER && o.downSince == 0 then Unix(now) else o.downSince;
    Outage(o.attempt + 1, since, down, Unix(now + Delay(o, now)), if down != 0 then Down else Retrying)
  }

  function CaughtUp(): Outage {
    Outage(0, 0, 0, 0, Idle)
  }

  function StoppedBy(o: Outage): Outage {
    o.(attempt := 0, nextRetry := 0, status := Stopped)
  }

  function Restarted(o: Outage): Outage {
    o.(attempt := 0, status := if o.status == Stopped then Idle else o.status)
  }

  class Tracker {
    var attempt: nat
    var failingSince: int
    var downSince: int
    var nextRetry: int
    var status: Status

    function View(): Outage
      reads this
    {
      Outage(attempt, failingSince, downSince, nextRetry, status)
    }

    constructor (saved: Outage)
      ensures View() == Restarted(saved)
    {
      attempt, failingSince, downSince, nextRetry := 0, saved.failingSince, saved.downSince, saved.nextRetry;
      status := if saved.status == Stopped then Idle else saved.status;
    }

    method Fail(now: int)
      modifies this
      ensures View() == Failed(old(View()), now)
    {
      if failingSince == 0 {
        failingSince := Unix(now);
      }
      var delay := BACKOFF[if attempt < |BACKOFF| - 1 then attempt else |BACKOFF| - 1];
      attempt := attempt + 1;
      if downSince == 0 {
        var toDown := failingSince * SECOND + DOWN_AFTER - now;
        if toDown > 0 && toDown < delay {
          delay := toDown;
        }
      }
      nextRetry := Unix(now + delay);
      var failing := now - failingSince * SECOND;
      if failing >= DOWN_AFTER {
        if downSince == 0 {
          downSince := Unix(now);
        }
      }
      status := Retrying;
      if downSince != 0 {
        status := Down;
      }
    }

    method Recover()
      modifies this
      ensures View() == CaughtUp()
    {
      status, failingSince, nextRetry, downSince, attempt := Idle, 0, 0, 0, 0;
    }

    method Stop()
      modifies this
      ensures View() == StoppedBy(old(View()))
    {
      status, nextRetry, attempt := Stopped, 0, 0;
    }
  }

  // ----- what the record means

  datatype Event = Fail(now: int) | Recover | Stop | Restart

  function Step(o: Outage, e: Event): Outage {
    match e
    case Fail(now) => Failed(o, now)
    case Recover => CaughtUp()
    case Stop => StoppedBy(o)
    case Restart => Restarted(o)
  }

  function After(events: seq<Event>): Outage {
    if events == [] then CaughtUp() else Step(After(events[..|events| - 1]), events[|events| - 1])
  }

  /** The failures since the target was last caught up. */
  function Failures(events: seq<Event>): seq<int> {
    if events == [] then []
    else
      var before := Failures(events[..|events| - 1]);
      match events[|events| - 1]
      case Fail(now) => before + [now]
      case Recover => []
      case _ => before
  }

  /** The second of the first failure at or past the mark; 0 while there is none. */
  function FirstPast(fails: seq<int>, mark: int): int {
    if fails == [] then 0 else if fails[0] >= mark then Unix(fails[0]) else FirstPast(fails[1..], mark)
  }

  /** The clock is past the epoch's first second: 0 means unset. */
  predicate Clocked(events: seq<Event>) {
    forall k :: 0 <= k < |events| && events[k].Fail? ==> events[k].now >= SECOND
  }

  lemma {:induction false} FirstPastOneMore(fails: seq<int>, now: int, mark: int)
    requires forall k :: 0 <= k < |fails| ==> fails[k] >= SECOND
    ensures FirstPast(fails + [now], mark) ==
      if FirstPast(fails, mark) != 0 then FirstPast(fails, mark) else if now >= mark then Unix(now) else 0
  {
    if fails != [] {
      assert (fails + [now])[1..] == fails[1..] + [now];
      FirstPastOneMore(fails[1..], now, mark);
    }
  }

  /** Stops and restarts included: failing since the first failure, down since the first past the mark. */
  lemma {:induction false} RecordMeans(events: seq<Event>)
    requires Clocked(events)
    ensures var fails := Failures(events);
      && (forall k :: 0 <= k < |fails| ==> fails[k] >= SECOND)
      && After(events).failingSince == (if fails == [] then 0 else Unix(fails[0]))
      && After(events).downSince == (if fails == [] then 0 else FirstPast(fails, Mark(Unix(fails[0]))))
      && (After(events).status == Down ==> After(events).downSince != 0)
  {
    if events != [] {
      var before := events[..|events| - 1];
      RecordMeans(before);
      var e := events[|events| - 1];
      if e.Fail? {
        var fails := Failures(before);
        var all := fails + [e.now];
        FirstPastOneMore(fails, e.now, Mark(Unix(all[0])));
        assert all[0] == if fails == [] then e.now else fails[0];
      }
    }
  }

  /** Every retry is ahead and within half an hour; before the mark none is scheduled past it. */
  lemma RetryInTime(o: Outage, now: int)
    ensures var next := Failed(o, now).nextRetry;
      && now < next * SECOND <= now + 30 * MINUTE
      && (o.downSince == 0 && now < Mark(Since(o, now)) ==> next <= Since(o, now) + 1800)
  {
    var delay := Delay(o, now);
    var toDown := Mark(Since(o, now)) - now;
    if delay == toDown {
      assert now + delay == (Since(o, now) + 1800) * SECOND;
    } else {
      assert delay >= MINUTE;
    }
  }

  /** o after n failures, each at the time scheduled. */
  function Follow(o: Outage, n: nat): Outage
    decreases n
  {
    if n == 0 then o else Follow(Failed(o, o.nextRetry * SECOND), n - 1)
  }

  /** Retried on schedule and failing each time, a target is reported down on the mark itself. */
  lemma {:induction false} DownOnTheMark(o: Outage) returns (n: nat)
    requires o.failingSince > 0 && o.downSince == 0 && o.nextRetry <= o.failingSince + 1800
    ensures Follow(o, n).downSince == o.failingSince + 1800
    decreases o.failingSince + 1800 - o.nextRetry
  {
    var now := o.nextRetry * SECOND;
    var next := Failed(o, now);
    if o.nextRetry == o.failingSince + 1800 {
      assert next.downSince == Unix(now) == o.nextRetry;
      assert Follow(next, 0) == next;
      n := 1;
    } else {
      RetryInTime(o, now);
      var m := DownOnTheMark(next);
      n := m + 1;
    }
  }

  // ----- how long until the next try

  /** The failures in a row: since the target was last caught up, stopped, or the worker started. */
  function InARow(events: seq<Event>): nat {
    if events == [] || !events[|events| - 1].Fail? then 0 else InARow(events[..|events| - 1]) + 1
  }

  lemma {:induction false} AttemptsCounted(events: seq<Event>)
    ensures After(events).attempt == InARow(events)
  {
    if events != [] { AttemptsCounted(events[..|events| - 1]); }
  }

  lemma OneMore(events: seq<Event>, now: int)
    requires Clocked(events) && now >= SECOND
    ensures var fails := Failures(events);
      && After(events + [Fail(now)]) == Failed(After(events), now) && Failures(events + [Fail(now)]) == fails + [now]
      && (fails + [now])[0] == (if fails == [] then now else fails[0])
      && Clocked(events + [Fail(now)])
  {
    var all := events + [Fail(now)];
    assert all[..|all| - 1] == events;
  }

  /** After a failure the status is Down exactly when one at or past the mark is recorded. */
  lemma DownExactly(events: seq<Event>, now: int)
    requires Clocked(events) && now >= SECOND
    ensures var o, fails := After(events + [Fail(now)]), Failures(events) + [now];
      var past := FirstPast(fails, Mark(Unix(fails[0]))) != 0;
      (o.status == Down <==> past) && (o.status == Retrying <==> !past)
  {
    OneMore(events, now);
    RecordMeans(events + [Fail(now)]);
    hide After, Failures, FirstPast;
  }

  /**
   A target that fails is tried again after 1, 5, 15 and then every 30 minutes of failures in a row, a
   try that would pass the mark being brought forward to it.
   */
  lemma NextTry(events: seq<Event>, now: int)
    requires Clocked(events) && now >= SECOND
    ensures var n, fails := InARow(events), Failures(events) + [now];
      var delay := (if n == 0 then 1 else if n == 1 then 5 else if n == 2 then 15 else 30) * MINUTE;
      var mark := Mark(Unix(fails[0]));
      After(events + [Fail(now)]).nextRetry ==
        if FirstPast(Failures(events), mark) == 0 && now < mark < now + delay then Unix(mark) else Unix(now + delay)
  {
    AttemptsCounted(events);
    RecordMeans(events);
    OneMore(events, now);
    hide After, Failures;
  }

  /** Caught up, or stopped, nothing is due; a restart keeps the record and what is due. */
  lemma NothingDue(events: seq<Event>, e: Event)
    requires !e.Fail?
    ensures var before, o := After(events), After(events + [e]);
      && (e == Recover ==> o == Outage(0, 0, 0, 0, Idle))
      && (e == Stop ==> o.nextRetry == 0 && o.status == Stopped)
      && (e == Restart ==> o.nextRetry == before.nextRetry)
      && (e == Restart ==> o.status == if before.status == Stopped then Idle else before.status)
      && (e != Recover ==> o.failingSince == before.failingSince && o.downSince == before.downSince)
  {
    assert (events + [e])[..|events|] == events;
  }
}
