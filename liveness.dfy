/**
 * The liveness flag both proxies keep for a relayed session: a
 * `collections.deque([True], maxlen=1)`. Every datagram handler appends `True`;
 * the watchdog pops once per period and ends the session when the pop finds the
 * queue empty.
 *
 * Threads and the one-second sleep are not modelled: handler invocations and
 * watchdog checks are an interleaved sequence of atomic events.
 */
module Liveness {
  import opened Wire

  /** The deque's `maxlen`. */
  const MaxLen := 1

  /** `deque.append(x)` on a deque bounded by MaxLen: when full, the leftmost item
      is discarded to make room. */
  function Appended(queue: seq<bool>, x: bool): (r: seq<bool>)
    requires |queue| <= MaxLen
    ensures 0 < |r| <= MaxLen
    ensures r == (queue + [x])[|queue| + 1 - |r|..]
    ensures r[|r| - 1] == x
  {
    if |queue| == MaxLen then queue[1..] + [x] else queue + [x]
  }

  class ActivityFlag {
    var queue: seq<bool>

    /** The deque never outgrows its bound and only ever holds `True`. */
    ghost predicate Valid()
      reads this
    {
      |queue| <= MaxLen && forall i | 0 <= i < |queue| :: queue[i]
    }

    /** `deque([True], maxlen=1)`. */
    constructor ()
      ensures Valid() && queue == [true]
    {
      queue := [true];
    }

    /** `data_queue.append(True)`, the first thing every handler does. */
    method OnDatagram()
      requires Valid()
      modifies this
      ensures Valid() && queue == Appended(old(queue), true)
      ensures queue == [true]
    {
      queue := Appended(queue, true);
    }

    /** `data_queue.pop()`: `alive` is false exactly when the pop would raise
        IndexError, that is, when no datagram was handled since the last pop. */
    method WatchdogTick() returns (alive: bool)
      requires Valid()
      modifies this
      ensures Valid() && queue == []
      ensures alive <==> old(queue) != []
    {
      alive := queue != [];
      if alive {
        queue := queue[..|queue| - 1];
      }
    }
  }

  datatype Event = Datagram | Tick

  /** Index of the latest watchdog check before position `i`, or -1 if none. */
  function LastTick(events: seq<Event>, i: nat): (t: int)
    requires i <= |events|
    ensures -1 <= t < i
    ensures t >= 0 ==> events[t] == Tick
    ensures forall j :: t < j < i ==> events[j] != Tick
  {
    if i == 0 then -1
    else if events[i - 1] == Tick then i - 1
    else LastTick(events, i - 1)
  }

  /** The session counts as active at position `i` when no check has happened yet
      or some datagram was handled after the latest check. */
  ghost predicate ActiveAt(events: seq<Event>, i: nat)
    requires i <= |events|
  {
    LastTick(events, i) < 0 || exists j :: LastTick(events, i) < j < i && events[j] == Datagram
  }

  /** The check at position `i` ends the session. */
  ghost predicate TickFails(events: seq<Event>, i: nat)
    requires i < |events|
  {
    events[i] == Tick && !ActiveAt(events, i)
  }

  /** The first check always passes: the deque starts as `[True]`. */
  lemma FirstTickPasses(events: seq<Event>, i: nat)
    requires i < |events| && events[i] == Tick
    requires forall j :: 0 <= j < i ==> events[j] != Tick
    ensures !TickFails(events, i)
  {
  }

  /** Two checks with no datagram between them: the second one fails. */
  lemma SilentPeriodFails(events: seq<Event>, t: nat, i: nat)
    requires t < i < |events| && events[t] == Tick && events[i] == Tick
    requires forall j :: t < j < i ==> events[j] != Datagram
    ensures TickFails(events, i)
  {
    var last := LastTick(events, i);
    assert t <= last;
    forall j | last < j < i
      ensures events[j] != Datagram
    {
    }
  }

  /** A datagram handled after the latest check keeps the next check from failing. */
  lemma ActivityKeepsAlive(events: seq<Event>, t: nat, j: nat, i: nat)
    requires t < j < i < |events| && events[t] == Tick && events[j] == Datagram
    requires forall k :: t < k < i ==> events[k] != Tick
    ensures !TickFails(events, i)
  {
    assert LastTick(events, i) == t;
  }

  /**
   * The `while True` watchdog loop of `proxy_session`, run against an interleaving
   * of handler invocations and checks. Fails with 'No comms for more than 1
   * seconds' at the first check that finds no datagram since the previous one;
   * succeeds only if no check in `events` does.
   */
  method Watch(events: seq<Event>) returns (outcome: Result<()>)
    ensures outcome.Err? ==>
              && outcome.error.NoComms?
              && outcome.error.check < |events| && TickFails(events, outcome.error.check)
              && forall j :: 0 <= j < outcome.error.check ==> !TickFails(events, j)
    ensures outcome.Ok? <==> forall j :: 0 <= j < |events| ==> !TickFails(events, j)
  {
    var flag := new ActivityFlag();
    for i := 0 to |events|
      invariant flag.Valid()
      invariant flag.queue != [] <==> ActiveAt(events, i)
      invariant forall j :: 0 <= j < i ==> !TickFails(events, j)
    {
      match events[i]
      case Datagram =>
        flag.OnDatagram();
        assert LastTick(events, i + 1) == LastTick(events, i);
        assert ActiveAt(events, i + 1) by {
          if LastTick(events, i + 1) >= 0 {
            assert LastTick(events, i + 1) < i < i + 1 && events[i] == Datagram;
          }
        }
      case Tick =>
        var alive := flag.WatchdogTick();
        if !alive {
          assert TickFails(events, i);
          return Err(NoComms(i));
        }
        assert LastTick(events, i + 1) == i;
    }
    return Ok(());
  }
}
