/** A tier of trackers that take turns when they fail (btpd/tracker_req.c, for BEP 12). */
module Tracker {
  import opened Lists

  datatype Event = Started | Stopped | Completed | Empty

  datatype Answer = Failure | NoConnection | BadData | Good

  /** What happens to a tier. A request that it causes is put off if deferred holds. */
  datatype Happening =
    | StartIt
    | StopIt
    | CompleteIt
    | Answered(answer: Answer, wish: int)
    | Fired

  /** rand_between: any number of the range. */
  method RandBetween(min: int, max: int) returns (r: int)
    requires min <= max
    ensures min <= r <= max
  {
    r :| min <= r <= max;
  }

  /** Where x stands in the list. */
  function IndexOf(s: seq<nat>, x: nat): (k: nat)
    requires x in s
    ensures k < |s| && s[k] == x && x !in s[..k]
  {
    if s[|s| - 1] == x && x !in s[..|s| - 1] then |s| - 1
    else IndexOf(s[..|s| - 1], x)
  }

  /** The first place from k on whose tracker has not failed. */
  function NextLeft(trackers: seq<nat>, failed: set<nat>, k: nat): (r: nat)
    requires k <= |trackers|
    ensures k <= r <= |trackers|
    ensures forall j :: k <= j < r ==> trackers[j] in failed
    ensures r < |trackers| ==> trackers[r] !in failed
    decreases |trackers| - k
  {
    if k < |trackers| && trackers[k] in failed then NextLeft(trackers, failed, k + 1) else k
  }

  /** Some tracker can still be asked. */
  predicate AnyLeft(trackers: seq<nat>, failed: set<nat>)
    ensures AnyLeft(trackers, failed) <==> exists e :: e in trackers && e !in failed
  {
    NextLeft(trackers, failed, 0) < |trackers|
  }

  function First(trackers: seq<nat>, failed: set<nat>): (e: nat)
    requires AnyLeft(trackers, failed)
    ensures e in trackers && e !in failed
  {
    trackers[NextLeft(trackers, failed, 0)]
  }

  /** tr_result moves the tracker that answered to the front. */
  function ToFront(s: seq<nat>, x: nat): seq<nat> {
    [x] + Remove(s, x)
  }

  lemma MoveToFront(s: seq<nat>, failed: set<nat>, x: nat)
    requires NoDup(s) && x in s
    ensures NoDup(ToFront(s, x)) && |ToFront(s, x)| == |s|
    ensures forall y :: y in ToFront(s, x) <==> y in s
    ensures AnyLeft(s, failed) <==> AnyLeft(ToFront(s, x), failed)
  {
    RemoveMembers(s, x);
    NoDupCons(x, Remove(s, x));
  }

  /**
   struct tr_tier. Trackers are numbered; failed are those that have a failure. A request is put
   off, and the timer set for it, when another one was sent less than REQ_DELAY ago: that is the
   parameter deferred of the methods that send.
   */
  class Tier {
    var trackers: seq<nat>
    var failed: set<nat>
    var cur: nat
    var timer: bool
    var delay: int
    var req: bool
    var interval: int
    var badConns: nat
    var active: bool
    var hasResponded: bool
    var event: Event

    /** An active tier waits for exactly one thing, an answer or its timer; an inactive one for nothing. */
    ghost predicate Valid()
      reads this
    {
      && trackers != [] && NoDup(trackers)
      && (active ==> cur in trackers && req != timer && AnyLeft(trackers, failed))
      && (!active ==> !req && !timer)
    }

    /** tier_create */
    constructor (trackers: seq<nat>)
      requires trackers != [] && NoDup(trackers)
      ensures Valid() && !active && event == Stopped && this.trackers == trackers && failed == {}
    {
      this.trackers, failed, cur := trackers, {}, trackers[0];
      timer, req, active, hasResponded := false, false, false, false;
      delay, interval, badConns, event := 0, -1, 0, Stopped;
    }

    /** all_failed and first_nonfailed, and the loop of tr_result that looks behind the current tracker. */
    method Search(from: nat) returns (k: nat)
      requires from <= |trackers|
      ensures k == NextLeft(trackers, failed, from)
    {
      k := from;
      while k < |trackers| && trackers[k] in failed
        invariant from <= k <= |trackers|
        invariant NextLeft(trackers, failed, from) == NextLeft(trackers, failed, k)
      {
        k := k + 1;
      }
    }

    /** entry_send */
    method EntrySend(e: nat, ev: Event, deferred: bool)
      requires trackers != [] && NoDup(trackers) && e in trackers && AnyLeft(trackers, failed) && active
      modifies this`req, this`timer, this`event, this`cur
      ensures Valid() && cur == e && event == ev && req == !deferred
    {
      req := false;
      event := ev;
      cur := e;
      if deferred {
        timer := true;
        return;
      }
      timer := false;
      req := true;
    }

    /** tier_timer_cb: its assertion holds, and first_nonfailed does not come to its abort. */
    method TimerCb(deferred: bool)
      requires Valid() && timer
      modifies this`req, this`timer, this`event, this`cur
      ensures Valid() && active && event == old(event) && req == !deferred
      ensures cur == First(trackers, failed)
    {
      timer := false;
      assert active && AnyLeft(trackers, failed);
      var k := Search(0);
      EntrySend(trackers[k], event, deferred);
    }

    /** tier_start */
    method Start(deferred: bool)
      requires Valid() && (!active || event == Stopped)
      modifies this
      ensures Valid() && active && event == Started && failed == {} && badConns == 0 && !hasResponded
      ensures trackers == old(trackers) && cur == trackers[0] && req == !deferred && interval == old(interval)
    {
      failed := {};
      hasResponded := false;
      badConns := 0;
      active := true;
      assert trackers[0] in trackers;
      EntrySend(trackers[0], Started, deferred);
    }

    /** tier_stop: a tier that never had an answer is given up at once after two rounds. */
    method Stop(deferred: bool)
      requires Valid()
      modifies this`req, this`timer, this`event, this`cur, this`active
      ensures Valid() && (active ==> event == Stopped)
      ensures old(!active || event == Stopped) ==> State() == old(State())
      ensures old(active && event != Stopped) ==>
        if !old(hasResponded) && old(badConns) > 1 then !active
        else active && cur == First(trackers, failed) && req == !deferred
    {
      if !active || event == Stopped {
        return;
      }
      if !hasResponded && badConns > 1 {
        timer := false;
        req := false;
        active := false;
      } else {
        var k := Search(0);
        EntrySend(trackers[k], Stopped, deferred);
      }
    }

    /** tier_complete */
    method Complete(deferred: bool)
      requires Valid()
      modifies this`req, this`timer, this`event, this`cur
      ensures Valid()
      ensures old(active && event == Empty) ==> event == Completed && cur == trackers[0] && req == !deferred
      ensures !old(active && event == Empty) ==> State() == old(State())
    {
      if active && event == Empty {
        EntrySend(trackers[0], Completed, deferred);
      }
    }

    /** What an answer without an error, or with bad data, leaves behind. */
    ghost predicate Settled(trackers': seq<nat>, cur': nat, event': Event, interval': int, wish: int)
      reads this
    {
      && badConns == 0 && hasResponded && trackers == ToFront(trackers', cur') && cur == cur'
      && (event' == Stopped ==> !active && event == Stopped && interval == interval')
      && (event' != Stopped ==>
           && active && event == Empty && timer && interval == (if wish > 0 then wish else interval')
           && (if interval > 0 then delay == interval else 1500 <= delay <= 1800))
    }

    /** What a failure or a missing answer leaves behind; a later round is not begun before its delay. */
    ghost predicate Unsettled(cur': nat, badConns': nat, deferred: bool)
      reads this
    {
      if AnyLeft(trackers, failed) then
        && Tried(trackers, failed, cur', badConns', event, deferred, cur, badConns, active, req)
        && (badConns != badConns' && badConns == 2 && active ==> 240 <= delay <= 360)
        && (badConns != badConns' && badConns > 2 && active ==> 900 <= delay <= 1200)
      else
        !active && cur == cur' && badConns == badConns'
    }

    /** tr_result */
    method Result(answer: Answer, wish: int, deferred: bool)
      requires Valid() && req
      modifies this
      ensures Valid() && |trackers| == |old(trackers)|
      ensures failed == if answer.Failure? then old(failed) + {old(cur)} else old(failed)
      ensures answer.Failure? || answer.NoConnection? ==>
        && trackers == old(trackers) && event == old(event) && hasResponded == old(hasResponded)
        && interval == old(interval) && Unsettled(old(cur), old(badConns), deferred)
      ensures answer.BadData? || answer.Good? ==>
        Settled(old(trackers), old(cur), old(event), old(interval), wish)
    {
      req := false;
      if answer.Failure? {
        failed := failed + {cur};
        var k := Search(0);
        if k == |trackers| {
          active := false;
          return;
        }
      }
      if answer.Failure? || answer.NoConnection? {
        TryNext(deferred);
      } else {
        Settle(wish);
      }
    }

    /** The case of tr_result that tries the next tracker, or the next round. */
    method TryNext(deferred: bool)
      requires trackers != [] && NoDup(trackers) && cur in trackers && AnyLeft(trackers, failed)
      requires active && !req && !timer
      modifies this`req, this`timer, this`delay, this`event, this`cur, this`badConns, this`active
      ensures Valid() && event == old(event) && Unsettled(old(cur), old(badConns), deferred)
    {
      var k := Search(IndexOf(trackers, cur) + 1);
      if k < |trackers| {
        EntrySend(trackers[k], event, deferred);
        return;
      }
      badConns := badConns + 1;
      if event == Stopped && badConns > 1 {
        active := false;
      } else if badConns == 1 {
        EntrySend(trackers[0], event, deferred);
      } else {
        timer := true;
        if badConns == 2 {
          delay := RandBetween(240, 360);
        } else {
          delay := RandBetween(900, 1200);
        }
      }
    }

    /** The case of tr_result in which the tracker has answered: it becomes the first. */
    method Settle(wish: int)
      requires trackers != [] && NoDup(trackers) && cur in trackers && AnyLeft(trackers, failed)
      requires active && !req && !timer
      modifies this`active, this`event, this`interval, this`timer, this`delay, this`badConns, this`hasResponded,
        this`trackers
      ensures Valid() && |trackers| == |old(trackers)| && trackers == ToFront(old(trackers), cur)
      ensures Settled(old(trackers), cur, old(event), old(interval), wish)
    {
      MoveToFront(trackers, failed, cur);
      if event == Stopped {
        active := false;
      } else {
        event := Empty;
        if wish > 0 {
          interval := wish;
        }
        timer, delay := true, interval;
        if interval <= 0 {
          delay := RandBetween(25 * 60, 30 * 60);
        }
      }
      badConns := 0;
      hasResponded := true;
      trackers := [cur] + Remove(trackers, cur);
    }

    /** All that a tier is but its delay. */
    ghost function State(): (seq<nat>, set<nat>, nat, bool, bool, int, nat, bool, bool, Event)
      reads this
    {
      (trackers, failed, cur, timer, req, interval, badConns, active, hasResponded, event)
    }

    /** What a happening has done; one that cannot happen, as an answer without a request, has changed nothing. */
    twostate predicate Did(h: Happening, deferred: bool)
      reads this
    {
      match h
      case StartIt =>
        if old(active && event != Stopped) then
          State() == old(State())
        else
          && old(trackers != [])
          && State() ==
            (old(trackers), {}, old(trackers)[0], deferred, !deferred, old(interval), 0, true, false, Started)
      case StopIt =>
        if old(!active || event == Stopped) then
          State() == old(State())
        else
          && trackers == old(trackers) && failed == old(failed) && badConns == old(badConns)
          && (!old(hasResponded) && old(badConns) > 1 ==> !active)
          && (old(hasResponded) || old(badConns) <= 1 ==>
               && active && event == Stopped && req == !deferred
               && AnyLeft(trackers, failed) && cur == First(trackers, failed))
      case CompleteIt =>
        if old(!active || event != Empty) then
          State() == old(State())
        else
          && old(trackers != [])
          && State() ==
            (old(trackers), old(failed), old(trackers)[0], deferred, !deferred, old(interval), old(badConns), true,
             old(hasResponded), Completed)
      case Answered(answer, wish) =>
        if old(!req) then
          State() == old(State())
        else if answer == Good || answer == BadData then
          failed == old(failed) && Settled(old(trackers), old(cur), old(event), old(interval), wish)
        else
          && failed == (if answer == Failure then old(failed) + {old(cur)} else old(failed))
          && trackers == old(trackers) && event == old(event) && interval == old(interval)
          && hasResponded == old(hasResponded) && Unsettled(old(cur), old(badConns), deferred)
      case Fired =>
        if old(!timer) then
          State() == old(State())
        else
          && AnyLeft(trackers, failed)
          && State() ==
            (old(trackers), old(failed), First(trackers, failed), deferred, !deferred, old(interval), old(badConns),
             true, old(hasResponded), old(event))
    }

    method Do(h: Happening, deferred: bool)
      requires Valid()
      modifies this
      ensures Valid() && |trackers| == |old(trackers)| && Did(h, deferred)
    {
      match h
      case StartIt =>
        if !active || event == Stopped {
          Start(deferred);
        }
      case StopIt => Stop(deferred);
      case CompleteIt => Complete(deferred);
      case Answered(answer, wish) =>
        if req {
          Result(answer, wish, deferred);
        }
      case Fired =>
        if timer {
          TimerCb(deferred);
        }
    }

    /** Every run keeps Valid. */
    method Run(happenings: seq<(Happening, bool)>)
      requires Valid()
      modifies this
      ensures Valid() && |trackers| == |old(trackers)|
    {
      for i := 0 to |happenings|
        invariant Valid() && |trackers| == |old(trackers)|
      {
        Do(happenings[i].0, happenings[i].1);
      }
    }

    // ---------- How long stopping takes ----------

    /** The answers that the tier still needs at most to become inactive. */
    ghost function Needed(): nat
      reads this
    {
      if active && cur in trackers then Rest(trackers, cur, badConns) else 0
    }

    /** An answer to a stopping tier stops it or brings it nearer to that. */
    method AnswerStopping(answer: Answer, wish: int, deferred: bool)
      requires Valid() && req && event == Stopped
      modifies this
      ensures Valid() && |trackers| == |old(trackers)|
      ensures active ==> event == Stopped && req == !deferred && Needed() < old(Needed())
      ensures active && LastOne(old(trackers), old(failed), old(cur), old(badConns)) ==>
        && LastOne(trackers, failed, cur, badConns)
        && LastSteps(trackers, failed, cur, badConns) < old(LastSteps(trackers, failed, cur, badConns))
    {
      Result(answer, wish, deferred);
      if active {
        Nearer(old(trackers), failed, old(cur), old(badConns), deferred, cur, badConns, active, req);
        if LastOne(old(trackers), old(failed), old(cur), old(badConns)) {
          LastNearer(trackers, old(failed), failed, old(cur), old(badConns), deferred, cur, badConns, active, req);
        }
      }
    }

    /** The timer of a put off request fires: the round begins anew unless the request was to begin it. */
    method FireStopping(deferred: bool) returns (anew: bool)
      requires Valid() && timer && event == Stopped
      modifies this`req, this`timer, this`event, this`cur
      ensures Valid() && active && event == Stopped && req == !deferred
      ensures anew == (old(cur) != First(trackers, failed)) && cur == First(trackers, failed)
      ensures Needed() <= old(Needed()) + if anew then |trackers| else 0
    {
      anew := cur != First(trackers, failed);
      TimerCb(deferred);
    }

    /** What happens to a stopping tier that is not started again: only answers and its timer matter. */
    method StepStopping(h: Happening, deferred: bool) returns (answered: bool, anew: bool)
      requires Valid() && active && event == Stopped && !h.StartIt?
      modifies this
      ensures Valid() && |trackers| == |old(trackers)| && (active ==> event == Stopped)
      ensures active ==> Needed() + (if answered then 1 else 0) <= old(Needed()) + if anew then |trackers| else 0
      ensures anew ==> !answered && active && old(cur) != First(trackers, failed) && cur == First(trackers, failed)
      ensures active && !answered ==> cur == old(cur) || cur == First(trackers, failed)
      ensures active && !answered ==> trackers == old(trackers) && failed == old(failed) && badConns == old(badConns)
      ensures !deferred && !old(timer) ==> !anew && (active ==> !timer)
      ensures active && LastOne(old(trackers), old(failed), old(cur), old(badConns)) ==>
        && LastOne(trackers, failed, cur, badConns)
        && LastSteps(trackers, failed, cur, badConns) + (if answered then 1 else 0)
           <= old(LastSteps(trackers, failed, cur, badConns))
    {
      answered, anew := false, false;
      if h.Answered? && req {
        answered := true;
        AnswerStopping(h.answer, h.wish, deferred);
      } else if h.Fired? && timer {
        anew := FireStopping(deferred);
      }
    }

    /**
     A tier that is told to stop is inactive after twice as many answers as it has trackers, and
     at most one round more for every time that the timer of a put off request begins a round anew.
     It does so exactly when the request was for another tracker than the first that has not failed.
     */
    method StopRun(first: bool, happenings: seq<(Happening, bool)>) returns (answers: nat, restarts: nat)
      requires Valid() && event != Stopped
      requires forall h :: h in happenings ==> !h.0.StartIt?
      modifies this
      ensures Valid() && |trackers| == |old(trackers)|
      ensures active ==> event == Stopped && answers < (2 + restarts) * |trackers|
      ensures restarts <= answers
      ensures !first && (forall h :: h in happenings ==> !h.1) ==> restarts == 0
    {
      answers, restarts := 0, 0;
      ghost var n := |trackers|;
      Stop(first);
      for i := 0 to |happenings|
        invariant Valid() && |trackers| == n
        invariant active ==> event == Stopped && answers + Needed() <= (2 + restarts) * n
        invariant restarts <= answers
        invariant active && restarts == answers ==> cur == First(trackers, failed)
        invariant !first && (forall h :: h in happenings ==> !h.1) ==> restarts == 0 && !timer
      {
        if active {
          var (h, deferred) := happenings[i];
          var answered, anew := StepStopping(h, deferred);
          if answered {
            answers := answers + 1;
          }
          if anew {
            restarts := restarts + 1;
            OneRoundMore(restarts, n);
          }
        }
      }
    }

    // ---------- Exactly when the bound holds ----------

    /** Seen before tier_stop: at most one tracker can still be asked, or the tier is given up at once. */
    predicate StopsInTime()
      reads this
    {
      !TwoLeft(trackers, failed) || (!hasResponded && badConns > 1)
    }

    /** Then, however requests are put off, the tier is inactive after twice as many answers as it has trackers. */
    method StopBounded(first: bool, happenings: seq<(Happening, bool)>) returns (answers: nat)
      requires Valid() && event != Stopped && StopsInTime()
      requires forall h :: h in happenings ==> !h.0.StartIt?
      modifies this
      ensures Valid() && |trackers| == |old(trackers)|
      ensures active ==> event == Stopped && answers < 2 * |trackers|
    {
      answers := 0;
      ghost var n := |trackers|;
      Stop(first);
      for i := 0 to |happenings|
        invariant Valid() && |trackers| == n
        invariant active ==> event == Stopped && LastOne(trackers, failed, cur, badConns)
        invariant active ==> answers + LastSteps(trackers, failed, cur, badConns) <= if n == 1 then 2 else 3
      {
        if active {
          var (h, deferred) := happenings[i];
          var answered, anew := StepStopping(h, deferred);
          if answered {
            answers := answers + 1;
          }
        }
      }
    }

    /**
     Else there is no bound: when no tracker can be reached and every request for another than the
     first is put off, the tier stays active, however many answers come.
     */
    method StopUnbounded(first: bool, rounds: nat) returns (answers: nat)
      requires Valid() && active && event != Stopped && !StopsInTime()
      modifies this
      ensures Valid() && active && event == Stopped && answers == rounds && trackers == old(trackers)
    {
      Stop(first);
      if timer {
        TimerCb(false);
      }
      answers := 0;
      while answers < rounds
        invariant answers <= rounds && Valid() && trackers == old(trackers) && failed == old(failed)
        invariant active && event == Stopped && req && cur == First(trackers, failed)
      {
        IndexIs(trackers, NextLeft(trackers, failed, 0));
        Result(NoConnection, 0, true);
        TimerCb(false);
        answers := answers + 1;
      }
    }
  }

  /** Two trackers can still be asked. */
  predicate TwoLeft(trackers: seq<nat>, failed: set<nat>) {
    var k := NextLeft(trackers, failed, 0);
    k < |trackers| && NextLeft(trackers, failed, k + 1) < |trackers|
  }

  /** Only one tracker is left, and it is asked, or in a later round the one at the head of the list. */
  ghost predicate LastOne(trackers: seq<nat>, failed: set<nat>, cur: nat, badConns: nat) {
    && AnyLeft(trackers, failed) && !TwoLeft(trackers, failed)
    && (cur == First(trackers, failed) || (cur == trackers[0] && badConns > 0))
  }

  /** The answers that are needed then: of the one left, of the head, and of the one left again. */
  ghost function LastSteps(trackers: seq<nat>, failed: set<nat>, cur: nat, badConns: nat): nat {
    if AnyLeft(trackers, failed) && cur != First(trackers, failed) then 2
    else if badConns > 0 then 1
    else if |trackers| == 1 then 2 else 3
  }

  /** How a tier goes on when the tracker was could not be reached. */
  ghost predicate Tried(trackers: seq<nat>, failed: set<nat>, was: nat, bad: nat, event: Event, deferred: bool,
                        cur: nat, badConns: nat, active: bool, req: bool)
  {
    && was in trackers
    && var k := NextLeft(trackers, failed, IndexOf(trackers, was) + 1);
       if k < |trackers| then active && cur == trackers[k] && badConns == bad && req == !deferred
       else
         && badConns == bad + 1
         && (active <==> !(event == Stopped && badConns > 1))
         && (badConns == 1 ==> cur == trackers[0] && req == !deferred)
         && (badConns > 1 ==> cur == was && !req)
  }

  /** The rest of this round, and one more round unless there was one. */
  ghost function Rest(trackers: seq<nat>, cur: nat, badConns: nat): (n: nat)
    requires cur in trackers
    ensures 0 < n <= 2 * |trackers|
  {
    (if badConns == 0 then |trackers| else 0) + |trackers| - IndexOf(trackers, cur)
  }

  lemma IndexIs(s: seq<nat>, k: nat)
    requires NoDup(s) && k < |s|
    ensures IndexOf(s, s[k]) == k
  {
  }

  lemma Nearer(trackers: seq<nat>, failed: set<nat>, was: nat, bad: nat, deferred: bool,
               cur: nat, badConns: nat, active: bool, req: bool)
    requires NoDup(trackers) && trackers != []
    requires Tried(trackers, failed, was, bad, Stopped, deferred, cur, badConns, active, req) && active
    ensures cur in trackers && Rest(trackers, cur, badConns) < Rest(trackers, was, bad) && req == !deferred
  {
    IndexIs(trackers, IndexOf(trackers, cur));
    IndexIs(trackers, 0);
    var k := NextLeft(trackers, failed, IndexOf(trackers, was) + 1);
    if k < |trackers| {
      IndexIs(trackers, k);
    }
  }

  lemma OneRoundMore(restarts: nat, n: nat)
    requires restarts > 0
    ensures (2 + restarts) * n == (2 + restarts - 1) * n + n
  {
  }

  lemma LastNearer(trackers: seq<nat>, before: set<nat>, failed: set<nat>, was: nat, bad: nat, deferred: bool,
                   cur: nat, badConns: nat, active: bool, req: bool)
    requires NoDup(trackers) && trackers != [] && LastOne(trackers, before, was, bad)
    requires failed == before || failed == before + {was}
    requires AnyLeft(trackers, failed)
    requires Tried(trackers, failed, was, bad, Stopped, deferred, cur, badConns, active, req) && active
    ensures LastOne(trackers, failed, cur, badConns)
    ensures LastSteps(trackers, failed, cur, badConns) < LastSteps(trackers, before, was, bad)
  {
    OnlyOneLeft(trackers, before);
    var f := NextLeft(trackers, before, 0);
    IndexIs(trackers, f);
    IndexIs(trackers, 0);
    assert failed == before;
  }

  lemma OnlyOneLeft(trackers: seq<nat>, failed: set<nat>)
    requires AnyLeft(trackers, failed) && !TwoLeft(trackers, failed)
    ensures forall j :: 0 <= j < |trackers| ==> (trackers[j] !in failed <==> j == NextLeft(trackers, failed, 0))
  {
  }
}
