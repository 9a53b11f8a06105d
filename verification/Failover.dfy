/** internal/failover/failover.go: consecutive failures per API key and internal model. Times are nanoseconds. */
module Failover {
  import opened Wrappers
  import Lists

  datatype CounterKey = CounterKey(apiKey: string, modelID: string)

  datatype Entry = Entry(consec: int, lastFail: int)

  /** What has happened to the counter, in order. `Expired` is a stale entry being cleared. */
  datatype Event =
    | Failed(key: CounterKey, at: int)
    | Succeeded(key: CounterKey)
    | Expired(key: CounterKey)

  const NANOS_PER_SECOND: int := 1_000_000_000

  function Threshold(maxFail: int): int {
    if maxFail < 1 then 1 else maxFail
  }

  /** The failures of one pair since its last success or expiry, and the time of the last of them: nothing that
      happens to other pairs counts. */
  function Streak(history: seq<Event>, k: CounterKey): (e: Entry)
    ensures e.consec >= 0
  {
    if history == [] then Entry(0, 0)
    else
      var front, last := history[..|history| - 1], history[|history| - 1];
      if last.key != k then Streak(front, k)
      else
        match last
        case Failed(_, at) => Entry(Streak(front, k).consec + 1, at)
        case Succeeded(_) => Entry(0, 0)
        case Expired(_) => Entry(0, 0)
  }

  predicate Stale(e: Entry, resetSec: int, now: int) {
    resetSec > 0 && now - e.lastFail > resetSec * NANOS_PER_SECOND
  }

  /** What has happened to one pair. */
  function Own(k: CounterKey, history: seq<Event>): seq<Event> {
    Lists.FlatMap(OwnOf, k, history)
  }

  function OwnOf(k: CounterKey, ev: Event): seq<Event> {
    if ev.key == k then [ev] else []
  }

  /** The last `n` things that happened to the pair are failures. */
  predicate FailedInARow(k: CounterKey, history: seq<Event>, n: int) {
    var own := Own(k, history);
    n <= |own| && forall i :: 0 <= i && |own| - n <= i < |own| ==> own[i].Failed?
  }

  lemma OwnSnoc(k: CounterKey, history: seq<Event>, ev: Event)
    ensures Own(k, history + [ev]) == if ev.key == k then Own(k, history) + [ev] else Own(k, history)
  {
    Lists.FlatMapAppend(OwnOf, k, history, [ev]);
    Lists.FlatMapOne(OwnOf, k, ev);
  }

  lemma RunSnoc(k: CounterKey, history: seq<Event>, ev: Event, n: int)
    requires ev.key == k && n > 0
    ensures FailedInARow(k, history + [ev], n) <==> ev.Failed? && FailedInARow(k, history, n - 1)
  {
    OwnSnoc(k, history, ev);
    var own, all := Own(k, history), Own(k, history + [ev]);
    assert all[|all| - 1] == ev;
    if FailedInARow(k, history + [ev], n) {
      forall i | 0 <= i && |own| - (n - 1) <= i < |own| ensures own[i].Failed? {
        assert all[i].Failed?;
      }
    }
  }

  /** The streak is as long as the run of failures the pair's own history ends in, and as old as the last of them. */
  lemma {:induction false} StreakIsRun(k: CounterKey, history: seq<Event>, n: int)
    ensures n > 0 ==> (Streak(history, k).consec >= n <==> FailedInARow(k, history, n))
    ensures
      var own := Own(k, history);
      Streak(history, k).consec > 0 ==>
        own != [] && own[|own| - 1].Failed? && Streak(history, k).lastFail == own[|own| - 1].at
  {
    if history != [] {
      var front, ev := history[..|history| - 1], history[|history| - 1];
      assert history == front + [ev];
      OwnSnoc(k, front, ev);
      StreakSnoc(front, ev, k);
      StreakIsRun(k, front, if ev.key == k then n - 1 else n);
      if ev.key == k && n > 0 {
        RunSnoc(k, front, ev, n);
      }
    }
  }

  lemma StreakSnoc(history: seq<Event>, ev: Event, k: CounterKey)
    ensures ev.key != k ==> Streak(history + [ev], k) == Streak(history, k)
    ensures ev.key == k && ev.Failed? ==> Streak(history + [ev], k) == Entry(Streak(history, k).consec + 1, ev.at)
    ensures ev.key == k && !ev.Failed? ==> Streak(history + [ev], k) == Entry(0, 0)
  {
    assert (history + [ev])[..|history|] == history;
  }

  /** The stored map holds exactly the running streaks. */
  ghost predicate Counts(m: map<CounterKey, Entry>, history: seq<Event>) {
    && (forall k :: k in m ==> m[k] == Streak(history, k))
    && (forall k :: k in m <==> Streak(history, k).consec > 0)
  }

  lemma CountsSnoc(m: map<CounterKey, Entry>, after: map<CounterKey, Entry>, history: seq<Event>, ev: Event)
    requires Counts(m, history)
    requires after == if ev.Failed? then m[ev.key := Entry((if ev.key in m then m[ev.key].consec else 0) + 1, ev.at)]
                      else m - {ev.key}
    ensures Counts(after, history + [ev])
  {
    forall k ensures k in after <==> Streak(history + [ev], k).consec > 0 {
      StreakSnoc(history, ev, k);
      assert k in m <==> Streak(history, k).consec > 0;
    }
    forall k | k in after ensures after[k] == Streak(history + [ev], k) {
      StreakSnoc(history, ev, k);
      assert ev.key in m <==> Streak(history, ev.key).consec > 0;
    }
  }

  class Counter {
    var m: map<CounterKey, Entry>
    ghost var history: seq<Event>

    ghost predicate Valid()
      reads this
    {
      Counts(m, history)
    }

    constructor ()
      ensures Valid() && history == []
    {
      m := map[];
      history := [];
    }

    method OnFailure(apiKey: string, modelID: string, now: int)
      requires Valid()
      modifies this
      ensures Valid() && history == old(history) + [Failed(CounterKey(apiKey, modelID), now)]
    {
      var k := CounterKey(apiKey, modelID);
      var e := if k in m then m[k] else Entry(0, 0);
      e := e.(consec := e.consec + 1);
      e := e.(lastFail := now);
      ghost var before := m;
      m := m[k := e];
      CountsSnoc(before, m, history, Failed(k, now));
      history := history + [Failed(k, now)];
    }

    method OnSuccess(apiKey: string, modelID: string)
      requires Valid()
      modifies this
      ensures Valid() && history == old(history) + [Succeeded(CounterKey(apiKey, modelID))]
    {
      var k := CounterKey(apiKey, modelID);
      CountsSnoc(m, m - {k}, history, Succeeded(k));
      m := m - {k};
      history := history + [Succeeded(k)];
    }

    /** True exactly when the pair's own streak has reached the threshold and is not stale; a stale one expires. */
    method ShouldSkip(apiKey: string, modelID: string, maxFail: int, resetSec: int, now: int) returns (skip: bool)
      requires Valid()
      modifies this
      ensures Valid()
      ensures
        var k := CounterKey(apiKey, modelID);
        var e := Streak(old(history), k);
        && (skip <==> e.consec >= Threshold(maxFail) && !Stale(e, resetSec, now))
        && history == if e.consec > 0 && Stale(e, resetSec, now) then old(history) + [Expired(k)] else old(history)
    {
      var atMost := if maxFail < 1 then 1 else maxFail;
      var k := CounterKey(apiKey, modelID);
      assert k in m <==> Streak(history, k).consec > 0;
      if k !in m {
        return false;
      }
      var e := m[k];
      if resetSec > 0 {
        if now - e.lastFail > resetSec * NANOS_PER_SECOND {
          CountsSnoc(m, m - {k}, history, Expired(k));
          m := m - {k};
          history := history + [Expired(k)];
          return false;
        }
      }
      return e.consec >= atMost;
    }
  }

  // ---- requests for one pair, one after another ----

  datatype Outcome = Fails | Succeeds | Neither  // Neither: a stream that broke after it was committed

  datatype Attempt = Attempt(asked: int, ended: int, outcome: Outcome)

  predicate Skips(history: seq<Event>, k: CounterKey, maxFail: int, resetSec: int, now: int) {
    Streak(history, k).consec >= Threshold(maxFail) && !Stale(Streak(history, k), resetSec, now)
  }

  /** What one request adds: the expiry, if any, and the outcome of the attempt it makes unless it is told to skip. */
  function Asked(history: seq<Event>, k: CounterKey, maxFail: int, resetSec: int, a: Attempt): seq<Event> {
    if Skips(history, k, maxFail, resetSec, a.asked) then []
    else Expiry(history, k, resetSec, a.asked) + Effect(k, a)
  }

  function Expiry(history: seq<Event>, k: CounterKey, resetSec: int, now: int): seq<Event> {
    if Streak(history, k).consec > 0 && Stale(Streak(history, k), resetSec, now) then [Expired(k)] else []
  }

  function Effect(k: CounterKey, a: Attempt): seq<Event> {
    match a.outcome
    case Fails => [Failed(k, a.ended)]
    case Succeeds => [Succeeded(k)]
    case Neither => []
  }

  /** The streak after an attempt that was made. */
  lemma StreakAfter(history: seq<Event>, k: CounterKey, maxFail: int, resetSec: int, a: Attempt)
    requires !Skips(history, k, maxFail, resetSec, a.asked)
    ensures
      var kept := if Expiry(history, k, resetSec, a.asked) == [] then Streak(history, k).consec else 0;
      Streak(history + Asked(history, k, maxFail, resetSec, a), k).consec ==
      match a.outcome
      case Fails => kept + 1
      case Succeeds => 0
      case Neither => kept
  {
    var expiry, effect := Expiry(history, k, resetSec, a.asked), Effect(k, a);
    var mid := history + expiry;
    if expiry != [] {
      StreakSnoc(history, expiry[0], k);
    } else {
      assert mid == history;
    }
    if effect != [] {
      StreakSnoc(mid, effect[0], k);
      assert effect == [effect[0]];
    } else {
      assert mid + effect == mid;
    }
    assert history + Asked(history, k, maxFail, resetSec, a) == mid + effect;
  }

  function RunAttempts(history: seq<Event>, k: CounterKey, maxFail: int, resetSec: int, attempts: seq<Attempt>): seq<Event>
    decreases |attempts|
  {
    if attempts == [] then history
    else RunAttempts(history + Asked(history, k, maxFail, resetSec, attempts[0]), k, maxFail, resetSec, attempts[1..])
  }

  /** One attempt raises a streak below the threshold by at most one, and a stale streak is dropped first. */
  lemma OneAttempt(history: seq<Event>, k: CounterKey, maxFail: int, resetSec: int, a: Attempt)
    requires Streak(history, k).consec <= Threshold(maxFail)
    ensures Streak(history + Asked(history, k, maxFail, resetSec, a), k).consec <= Threshold(maxFail)
  {
    if Skips(history, k, maxFail, resetSec, a.asked) {
      assert history + Asked(history, k, maxFail, resetSec, a) == history;
    } else {
      StreakAfter(history, k, maxFail, resetSec, a);
    }
  }

  /** With fixed settings, requests made one after another never push a streak past the threshold. */
  lemma {:induction false} StreakNeverPassesThreshold(
      history: seq<Event>, k: CounterKey, maxFail: int, resetSec: int, attempts: seq<Attempt>)
    requires Streak(history, k).consec <= Threshold(maxFail)
    ensures Streak(RunAttempts(history, k, maxFail, resetSec, attempts), k).consec <= Threshold(maxFail)
    decreases |attempts|
  {
    if attempts != [] {
      OneAttempt(history, k, maxFail, resetSec, attempts[0]);
      StreakNeverPassesThreshold(
        history + Asked(history, k, maxFail, resetSec, attempts[0]), k, maxFail, resetSec, attempts[1..]);
    }
  }

  /** Once the threshold is reached, no request attempts the pair until its last failure goes stale. */
  lemma {:induction false} BlockedUntilStale(
      history: seq<Event>, k: CounterKey, maxFail: int, resetSec: int, attempts: seq<Attempt>)
    requires Streak(history, k).consec >= Threshold(maxFail)
    requires forall a :: a in attempts ==> !Stale(Streak(history, k), resetSec, a.asked)
    ensures RunAttempts(history, k, maxFail, resetSec, attempts) == history
    decreases |attempts|
  {
    if attempts != [] {
      assert attempts[0] in attempts;
      assert history + Asked(history, k, maxFail, resetSec, attempts[0]) == history;
      BlockedUntilStale(history, k, maxFail, resetSec, attempts[1..]);
    }
  }

  /** And the first request after that does attempt it, with a streak counted afresh. */
  lemma StaleIsRetried(history: seq<Event>, k: CounterKey, maxFail: int, resetSec: int, a: Attempt)
    requires Streak(history, k).consec > 0 && Stale(Streak(history, k), resetSec, a.asked)
    ensures Asked(history, k, maxFail, resetSec, a)[0] == Expired(k)
    ensures Streak(history + Asked(history, k, maxFail, resetSec, a), k).consec == if a.outcome.Fails? then 1 else 0
  {
    StreakAfter(history, k, maxFail, resetSec, a);
  }
}
