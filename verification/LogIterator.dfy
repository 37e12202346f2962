// The event iterators and watchers of StakeHub.go. Every event type has the same shape, so one generic
// iterator stands for all; `select` between two ready channels is a free choice.
module LogIterator {
  import opened Common

  type Log = nat
  type Error = nat

  /** The producer side: logs not sent yet, logs waiting in the channel, and how the subscription ended. */
  datatype End = Running | Ended(error: Option<Error>)
  datatype Source = Source(rest: seq<Log>, channel: seq<Log>, end: End)

  datatype Choice = TakeLog | TakeErr

  const UNPACK_ERROR: Error := 0

  /** Whether the waiting call can go on with this choice. */
  predicate Enabled(it: Iter, choice: Choice) {
    !it.done && it.fail.None? ==>
      match choice
      case TakeLog => it.source.channel != []
      case TakeErr => it.source.end.Ended?
  }

  function Delivered(it: Iter, decodes: Log -> bool): (Iter, bool)
    requires it.source.channel != []
  {
    var log := it.source.channel[0];
    var received := it.(source := it.source.(channel := it.source.channel[1..]), taken := it.taken + [log]);
    if decodes(log) then (received.(exposed := it.exposed + [log]), true)
    else (received.(fail := Some(UNPACK_ERROR)), false)
  }

  function NextOf(it: Iter, choice: Choice, decodes: Log -> bool): (Iter, bool)
    requires Enabled(it, choice)
  {
    if it.fail.Some? then (it, false)
    else if !it.done && choice.TakeLog? then Delivered(it, decodes)
    else
      var ended := if it.done then it else it.(done := true, fail := it.source.end.error);
      if ended.fail.Some? || ended.source.channel == [] then (ended, false) else Delivered(ended, decodes)
  }

  class Iterator {
    const decodes: Log -> bool
    var source: Source
    var event: Option<Log>
    var done: bool
    var fail: Option<Error>
    ghost var exposed: seq<Log>
    ghost var taken: seq<Log>

    ghost function State(): Iter
      reads this
    {
      Iter(source, done, fail, taken, exposed)
    }

    constructor (decodes: Log -> bool, logs: seq<Log>)
      ensures State() == Iter(Source(logs, [], Running), false, None, [], []) && this.decodes == decodes
    {
      this.decodes, source, event, done, fail := decodes, Source(logs, [], Running), None, false, None;
      taken, exposed := [], [];
    }

    // Receives the next log of the channel and unpacks it into `event`.
    method Deliver() returns (more: bool)
      requires source.channel != []
      modifies this
      ensures (State(), more) == Delivered(old(State()), decodes)
      ensures more ==> event == Some(old(source.channel)[0])
    {
      var log := source.channel[0];
      source := source.(channel := source.channel[1..]);
      taken := taken + [log];
      if !decodes(log) {
        fail := Some(UNPACK_ERROR);
        return false;
      }
      event := Some(log);
      exposed := exposed + [log];
      return true;
    }

    // The call that takes the end of the subscription calls itself once more, and never twice.
    method Next(choice: Choice) returns (more: bool)
      requires Enabled(State(), choice)
      modifies this
      ensures (State(), more) == NextOf(old(State()), choice, decodes)
      ensures more ==> event.Some? && exposed == old(exposed) + [event.value]
      decreases !done
    {
      if fail.Some? {
        return false;
      }
      if done {
        if source.channel == [] {
          return false;
        }
        more := Deliver();
        return;
      }
      match choice {
        case TakeLog =>
          more := Deliver();
        case TakeErr =>
          done := true;
          fail := source.end.error;
          more := Next(choice);
      }
    }
  }

  /** `taken` are the logs received so far; `exposed` those that a call returning true has shown. */
  datatype Iter = Iter(source: Source, done: bool, fail: Option<Error>, taken: seq<Log>, exposed: seq<Log>)

  datatype Action = Produce | Finish(error: Option<Error>) | Call(choice: Choice)

  /** The producer sends in order and ends without an error only once everything is sent. */
  predicate Allowed(it: Iter, a: Action) {
    match a
    case Produce => it.source.end.Running? && it.source.rest != []
    case Finish(error) => it.source.end.Running? && (error.None? ==> it.source.rest == [])
    case Call(choice) => Enabled(it, choice)
  }

  function Act(it: Iter, a: Action, decodes: Log -> bool): Iter
    requires Allowed(it, a)
  {
    match a
    case Produce =>
      it.(source := it.source.(rest := it.source.rest[1..], channel := it.source.channel + [it.source.rest[0]]))
    case Finish(error) => it.(source := it.source.(end := Ended(error)))
    case Call(choice) => NextOf(it, choice, decodes).0
  }

  ghost predicate Reaches(start: Iter, actions: seq<Action>, end: Iter, decodes: Log -> bool)
    decreases |actions|
  {
    if actions == [] then start == end
    else Allowed(start, actions[0]) && Reaches(Act(start, actions[0], decodes), actions[1..], end, decodes)
  }

  /** Of the logs to deliver, those taken, waiting and unsent follow each other in order; the exposed ones are
      those taken, less a last one that would not unpack. */
  ghost predicate Inv(it: Iter, logs: seq<Log>, decodes: Log -> bool) {
    && it.taken + it.source.channel + it.source.rest == logs
    && (forall i | 0 <= i < |it.exposed| :: decodes(it.exposed[i]))
    && (if it.exposed == it.taken then it.fail.Some? ==> it.done && it.source.end == Ended(it.fail)
        else it.fail == Some(UNPACK_ERROR) && it.taken != [] && it.exposed == it.taken[..|it.taken| - 1]
             && !decodes(it.taken[|it.taken| - 1]) && (it.done ==> it.source.end == Ended(None)))
    && (it.source.end == Ended(None) ==> it.source.rest == [])
    && (it.done ==> it.source.end.Ended? && (it.fail.None? ==> it.source.end == Ended(None)))
  }

  lemma DeliveredKeeps(it: Iter, logs: seq<Log>, decodes: Log -> bool)
    requires Inv(it, logs, decodes) && it.fail.None? && it.source.channel != []
    ensures Inv(Delivered(it, decodes).0, logs, decodes)
  {
    var log, channel := it.source.channel[0], it.source.channel[1..];
    assert it.taken + [log] + channel == it.taken + it.source.channel;
  }

  lemma ActKeeps(it: Iter, a: Action, logs: seq<Log>, decodes: Log -> bool)
    requires Inv(it, logs, decodes) && Allowed(it, a)
    ensures Inv(Act(it, a, decodes), logs, decodes)
  {
    match a
    case Produce =>
      var it' := Act(it, a, decodes);
      assert it'.source.channel + it'.source.rest == it.source.channel + it.source.rest;
      assert it'.taken + it'.source.channel + it'.source.rest == it.taken + (it.source.channel + it.source.rest);
    case Finish(_) =>
    case Call(choice) =>
      if it.fail.None? {
        var ended := if it.done || choice.TakeLog? then it else it.(done := true, fail := it.source.end.error);
        if ended.fail.None? && ended.source.channel != [] {
          DeliveredKeeps(ended, logs, decodes);
        }
      }
  }

  lemma {:induction false} ReachesKeeps(start: Iter, actions: seq<Action>, end: Iter, logs: seq<Log>,
                                        decodes: Log -> bool)
    requires Inv(start, logs, decodes) && Reaches(start, actions, end, decodes)
    ensures Inv(end, logs, decodes)
    decreases |actions|
  {
    if actions == [] {
    } else {
      ActKeeps(start, actions[0], logs, decodes);
      ReachesKeeps(Act(start, actions[0], decodes), actions[1..], end, logs, decodes);
    }
  }

  function Fresh(logs: seq<Log>): Iter {
    Iter(Source(logs, [], Running), false, None, [], [])
  }

  // With everything taken and nothing failed, everything is exposed.
  lemma InvMeans(it: Iter, logs: seq<Log>, decodes: Log -> bool)
    requires Inv(it, logs, decodes)
    ensures it.exposed <= logs
    ensures it.fail.None? && it.source.channel == [] && it.source.rest == [] ==> it.exposed == logs
  {
    assert it.taken <= logs;
  }

  // However producer and calls interleave: when a call returns false without an error, the calls before it have
  // exposed exactly the logs, in order; with an error, a prefix of them.
  lemma FalseWithoutErrorMeansComplete(logs: seq<Log>, actions: seq<Action>, it: Iter, choice: Choice,
                                       decodes: Log -> bool)
    requires Reaches(Fresh(logs), actions, it, decodes) && Enabled(it, choice)
    requires !NextOf(it, choice, decodes).1
    ensures it.exposed <= logs
    ensures NextOf(it, choice, decodes).0.fail.None? ==> it.exposed == logs
  {
    ReachesKeeps(Fresh(logs), actions, it, logs, decodes);
    InvMeans(it, logs, decodes);
    ActKeeps(it, Call(choice), logs, decodes);
    InvMeans(Act(it, Call(choice), decodes), logs, decodes);
  }

  /** A log was received that does not unpack. */
  predicate MetBadLog(it: Iter, decodes: Log -> bool) {
    exists i | 0 <= i < |it.taken| :: !decodes(it.taken[i])
  }

  lemma BadLogIsHidden(it: Iter, logs: seq<Log>, decodes: Log -> bool)
    requires Inv(it, logs, decodes)
    ensures MetBadLog(it, decodes) <==> it.exposed != it.taken
  {
    if it.exposed != it.taken {
      assert !decodes(it.taken[|it.taken| - 1]);
    } else {
      assert forall i | 0 <= i < |it.taken| :: it.taken[i] == it.exposed[i];
    }
  }

  // An iterator that received a log that does not unpack has that error; otherwise it has the error that ended the
  // subscription, once a call took that end, and none before.
  lemma ErrorIsTheCause(logs: seq<Log>, actions: seq<Action>, it: Iter, decodes: Log -> bool)
    requires Reaches(Fresh(logs), actions, it, decodes)
    ensures it.done ==> it.source.end.Ended?
    ensures it.fail == if MetBadLog(it, decodes) then Some(UNPACK_ERROR)
                       else if it.done then it.source.end.error
                       else None
  {
    ReachesKeeps(Fresh(logs), actions, it, logs, decodes);
    BadLogIsHidden(it, logs, decodes);
  }

  /** No later call can return true. */
  predicate Over(it: Iter) {
    it.fail.Some? || (it.done && it.source.channel == [] && it.source.end.Ended?)
  }

  // Failure is absorbing, and so is completion: after a call that returned false no later call returns true,
  // whatever the producer still does.
  lemma {:induction false} OverIsFinal(it: Iter, actions: seq<Action>, end: Iter, decodes: Log -> bool)
    requires Over(it) && Reaches(it, actions, end, decodes)
    ensures Over(end) && end.fail == it.fail && end.exposed == it.exposed
    ensures forall choice | Enabled(end, choice) :: !NextOf(end, choice, decodes).1
    decreases |actions|
  {
    if actions == [] {
    } else {
      OverIsFinal(Act(it, actions[0], decodes), actions[1..], end, decodes);
    }
  }

  lemma FalseMeansOver(logs: seq<Log>, actions: seq<Action>, it: Iter, choice: Choice, decodes: Log -> bool)
    requires Reaches(Fresh(logs), actions, it, decodes) && Enabled(it, choice)
    ensures var (after, more) := NextOf(it, choice, decodes);
            !more <==> (Over(after) && after.exposed == it.exposed)
  {
    ReachesKeeps(Fresh(logs), actions, it, logs, decodes);
  }

  // ---- Watch ----

  datatype Turn = LogReady | SinkReady | SubErr(error: Option<Error>) | Quit

  datatype Stop = StillRunning | Stopped(error: Option<Error>)

  /** The forwarding loop: what went to the sink, the log received and not forwarded yet, how many were received. */
  datatype Watcher = Watcher(sink: seq<Log>, inHand: Option<Log>, taken: nat, stop: Stop) {
    function Held(): nat {
      |sink| + if inHand.Some? then 1 else 0
    }
  }

  /** One select: it waits for a log only with an empty hand, for the sink only with a log in hand. */
  function Turned(w: Watcher, turn: Turn, logs: seq<Log>, decodes: Log -> bool): Watcher {
    if w.stop != StillRunning then w
    else
      match turn
      case LogReady =>
        if w.inHand.Some? || w.taken >= |logs| then w
        else if !decodes(logs[w.taken]) then w.(taken := w.taken + 1, stop := Stopped(Some(UNPACK_ERROR)))
        else w.(taken := w.taken + 1, inHand := Some(logs[w.taken]))
      case SinkReady => if w.inHand.None? then w else w.(sink := w.sink + [w.inHand.value], inHand := None)
      case SubErr(error) => w.(stop := Stopped(error))
      case Quit => w.(stop := Stopped(None))
  }

  /** The loop after a schedule, which says which ready channel each select takes. */
  function Watched(logs: seq<Log>, decodes: Log -> bool, schedule: seq<Turn>): Watcher {
    if schedule == [] then Watcher([], None, 0, StillRunning)
    else
      var n := |schedule| - 1;
      Turned(Watched(logs, decodes, schedule[..n]), schedule[n], logs, decodes)
  }

  lemma {:induction false} StoppedStays(logs: seq<Log>, decodes: Log -> bool, schedule: seq<Turn>, i: nat)
    requires i <= |schedule| && Watched(logs, decodes, schedule[..i]).stop != StillRunning
    ensures Watched(logs, decodes, schedule) == Watched(logs, decodes, schedule[..i])
  {
    if i == |schedule| {
      assert schedule[..i] == schedule;
    } else {
      var before := schedule[..|schedule| - 1];
      assert before[..i] == schedule[..i];
      StoppedStays(logs, decodes, before, i);
    }
  }

  /** The loop itself; turns that its select does not wait for are skipped. */
  method Watch(logs: seq<Log>, decodes: Log -> bool, schedule: seq<Turn>)
    returns (sink: seq<Log>, taken: nat, stop: Stop)
    ensures var w := Watched(logs, decodes, schedule); sink == w.sink && taken == w.taken && stop == w.stop
    ensures sink <= logs && |sink| <= taken <= |sink| + 1 && taken <= |logs|
    ensures forall i | 0 <= i < |sink| :: decodes(sink[i])
    ensures stop == Stopped(Some(UNPACK_ERROR)) && SubErr(Some(UNPACK_ERROR)) !in schedule
            ==> taken == |sink| + 1 && !decodes(logs[|sink|])
    ensures stop == Stopped(None) ==> Quit in schedule || SubErr(None) in schedule
  {
    sink, taken, stop := [], 0, StillRunning;
    var inHand: Option<Log> := None;
    for i := 0 to |schedule|
      invariant Watcher(sink, inHand, taken, stop) == Watched(logs, decodes, schedule[..i])
      invariant sink <= logs && taken <= |logs|
      invariant taken == |sink| + (if inHand.Some? then 1 else 0)
      invariant inHand.Some? ==> inHand.value == logs[|sink|] && decodes(inHand.value)
      invariant forall j | 0 <= j < |sink| :: decodes(sink[j])
      invariant stop == StillRunning
    {
      assert schedule[..i + 1][..i] == schedule[..i];
      match schedule[i]
      case LogReady =>
        if inHand.None? && taken < |logs| {
          var log := logs[taken];
          taken := taken + 1;
          if !decodes(log) {
            stop := Stopped(Some(UNPACK_ERROR));
            StoppedStays(logs, decodes, schedule, i + 1);
            return;
          }
          inHand := Some(log);
        }
      case SinkReady =>
        if inHand.Some? {
          sink := sink + [inHand.value];
          inHand := None;
        }
      case SubErr(error) =>
        stop := Stopped(error);
        StoppedStays(logs, decodes, schedule, i + 1);
        return;
      case Quit =>
        stop := Stopped(None);
        StoppedStays(logs, decodes, schedule, i + 1);
        return;
    }
    assert schedule[..|schedule|] == schedule;
  }

  /** How many logs at the head of `logs` unpack. */
  function Leading(logs: seq<Log>, decodes: Log -> bool): (n: nat)
    ensures n <= |logs| && (forall i | 0 <= i < n :: decodes(logs[i])) && (n < |logs| ==> !decodes(logs[n]))
  {
    if logs == [] || !decodes(logs[0]) then 0 else 1 + Leading(logs[1..], decodes)
  }

  /** The schedule has, in this order, `n` turns of the log channel with a turn of the sink after each, or of the
      `n`-th at least the turn of the log channel. */
  ghost predicate Forwards(schedule: seq<Turn>, n: nat)
    decreases |schedule|
  {
    n == 0 || exists j | 0 <= j < |schedule| :: schedule[j] == SinkReady && Receives(schedule[..j], n)
  }

  ghost predicate Receives(schedule: seq<Turn>, n: nat)
    decreases |schedule|
  {
    n == 0 || exists i | 0 <= i < |schedule| :: schedule[i] == LogReady && Forwards(schedule[..i], n - 1)
  }

  lemma OneTurnMore(before: seq<Turn>, turn: Turn, n: nat)
    ensures Forwards(before + [turn], n) <==> Forwards(before, n) || (turn == SinkReady && Receives(before, n))
    ensures Receives(before + [turn], n)
       <==> Receives(before, n) || (turn == LogReady && n > 0 && Forwards(before, n - 1))
  {
    var schedule := before + [turn];
    assert forall i | 0 <= i < |before| :: schedule[i] == before[i] && schedule[..i] == before[..i];
    assert schedule[|before|] == turn && schedule[..|before|] == before;
  }

  predicate NeverEnds(schedule: seq<Turn>) {
    forall i | 0 <= i < |schedule| :: schedule[i].LogReady? || schedule[i].SinkReady?
  }

  /** No more is received than unpacks; and the loop stops by itself only once all of that is forwarded. */
  predicate Counted(w: Watcher, leading: nat) {
    w.Held() <= leading && if w.stop == StillRunning then w.taken == w.Held() else |w.sink| == leading
  }

  lemma TurnCounts(w: Watcher, turn: Turn, logs: seq<Log>, decodes: Log -> bool)
    requires Counted(w, Leading(logs, decodes)) && (turn.LogReady? || turn.SinkReady?)
    ensures var w', leading := Turned(w, turn, logs, decodes), Leading(logs, decodes);
            && Counted(w', leading)
            && |w'.sink| == (if turn == SinkReady then w.Held() else |w.sink|)
            && w'.Held() == if turn == SinkReady then w.Held()
                            else if |w.sink| < leading then |w.sink| + 1
                            else leading
  {
  }

  // What a schedule forwards, as long as the subscription lasts: with at least n pairs of turns it is at least n logs,
  // unless there are fewer or one of them does not unpack, and no log gets through in any other way.
  lemma {:induction false} WatchForwards(logs: seq<Log>, decodes: Log -> bool, schedule: seq<Turn>, n: nat)
    requires NeverEnds(schedule)
    ensures var w, leading := Watched(logs, decodes, schedule), Leading(logs, decodes);
            && (|w.sink| >= n <==> n <= leading && Forwards(schedule, n))
            && (w.Held() >= n <==> n <= leading && Receives(schedule, n))
            && Counted(w, leading)
  {
    if schedule == [] {
    } else {
      var before, turn := schedule[..|schedule| - 1], schedule[|schedule| - 1];
      assert schedule == before + [turn];
      WatchForwards(logs, decodes, before, n);
      TurnCounts(Watched(logs, decodes, before), turn, logs, decodes);
      OneTurnMore(before, turn, n);
      if n > 0 {
        WatchForwards(logs, decodes, before, n - 1);
      }
    }
  }

  /** How the turns of a lasting subscription end the loop: not at all, or because the first log that does not unpack is
      received, which takes all logs before it to be forwarded and one more turn of the log channel. */
  ghost predicate MeetsBadLog(logs: seq<Log>, decodes: Log -> bool, schedule: seq<Turn>) {
    Leading(logs, decodes) < |logs| && Receives(schedule, Leading(logs, decodes) + 1)
  }

  lemma OneTurnStops(w: Watcher, turn: Turn, logs: seq<Log>, decodes: Log -> bool)
    requires Counted(w, Leading(logs, decodes)) && (turn.LogReady? || turn.SinkReady?)
    ensures Turned(w, turn, logs, decodes).stop
         == if w.stop == StillRunning && turn.LogReady? && |w.sink| == Leading(logs, decodes) < |logs|
            then Stopped(Some(UNPACK_ERROR)) else w.stop
  {
  }

  lemma {:induction false} StopsOnlyOnBadLog(logs: seq<Log>, decodes: Log -> bool, schedule: seq<Turn>)
    requires NeverEnds(schedule)
    ensures Watched(logs, decodes, schedule).stop
         == if MeetsBadLog(logs, decodes, schedule) then Stopped(Some(UNPACK_ERROR)) else StillRunning
  {
    if schedule == [] {
    } else {
      var before, turn := schedule[..|schedule| - 1], schedule[|schedule| - 1];
      var leading := Leading(logs, decodes);
      assert schedule == before + [turn];
      StopsOnlyOnBadLog(logs, decodes, before);
      WatchForwards(logs, decodes, before, leading);
      OneTurnMore(before, turn, leading + 1);
      OneTurnStops(Watched(logs, decodes, before), turn, logs, decodes);
    }
  }

  // The loop ends with the reason of the first turn that ends it, unless it met a log that does not unpack before.
  lemma WatchStops(logs: seq<Log>, decodes: Log -> bool, schedule: seq<Turn>, i: nat)
    requires i < |schedule| && NeverEnds(schedule[..i]) && (schedule[i].SubErr? || schedule[i].Quit?)
    ensures Watched(logs, decodes, schedule).stop
         == if MeetsBadLog(logs, decodes, schedule[..i]) then Stopped(Some(UNPACK_ERROR))
            else Stopped(if schedule[i].SubErr? then schedule[i].error else None)
    ensures Watched(logs, decodes, schedule).sink == Watched(logs, decodes, schedule[..i]).sink
  {
    StopsOnlyOnBadLog(logs, decodes, schedule[..i]);
    assert schedule[..i + 1][..i] == schedule[..i];
    StoppedStays(logs, decodes, schedule, i + 1);
  }
}
