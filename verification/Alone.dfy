/** A request that runs while the others pause: the interleaved system of Requests does what the loop of
    internal/pipeline/pipeline.go does, turn by turn and as a whole. */
module Alone {
  import opened Wrappers
  import Lists
  import Indexes
  import Limiter
  import Failover
  import Usage
  import Pipeline
  import opened Requests

  /** Some run of actions leads from one state to the other. */
  ghost predicate Leads(s: State, t: State) {
    exists actions :: Happens(s, actions) && Run(s, actions) == t
  }

  lemma LeadsNowhere(s: State)
    ensures Leads(s, s)
  {
    assert Happens(s, []) && Run(s, []) == s;
  }

  lemma {:induction false} RunThen(s: State, actions: seq<Action>, more: seq<Action>)
    requires Happens(s, actions) && Happens(Run(s, actions), more)
    ensures Happens(s, actions + more) && Run(s, actions + more) == Run(Run(s, actions), more)
    decreases |actions|
  {
    if actions == [] {
      assert actions + more == more;
    } else {
      RunThen(Next(s, actions[0]), actions[1..], more);
      assert (actions + more)[0] == actions[0] && (actions + more)[1..] == actions[1..] + more;
    }
  }

  lemma LeadsOn(s: State, t: State, u: State)
    requires Leads(s, t) && Leads(t, u)
    ensures Leads(s, u)
  {
    var actions :| Happens(s, actions) && Run(s, actions) == t;
    var more :| Happens(t, more) && Run(t, more) == u;
    RunThen(s, actions, more);
  }

  /** One more action. */
  lemma Act(s: State, t: State, a: Action) returns (u: State)
    requires Leads(s, t) && Inv(t) && Enabled(t, a)
    ensures u == Next(t, a) && Leads(s, u) && Inv(u)
  {
    u := Next(t, a);
    assert [a][0] == a && [a][1..] == [];
    assert Happens(u, []) && Run(u, []) == u;
    assert Happens(t, [a]) && Run(t, [a]) == u;
    LeadsOn(s, t, u);
    Step(t, a);
  }

  /** Request `i` has met this verdict, and what it recorded shows just that. */
  ghost predicate Met(t: State, u: State, i: nat, v: Pipeline.Verdict)
    requires i < |t.procs| && |t.procs[i].trail| < |t.procs[i].cands| == |t.procs[i].ws|
  {
    var p := t.procs[i];
    && u.history == t.history + Pipeline.SettleEvents(p.e, Cand(p), Now(p), v)
    && u.usage == t.usage + Pipeline.UsageOf(p.e, v)
    && |u.procs| == |t.procs|
    && u.procs[i].e == p.e && u.procs[i].cands == p.cands && u.procs[i].ws == p.ws
    && u.procs[i].trail == p.trail + [v]
    && u.procs[i].phase == if Pipeline.Terminal(v) then Answered else Asking
  }

  /** A candidate in a slot: called, released, recorded, settled. */
  lemma Attend(s: State, t: State, i: nat) returns (u: State)
    requires Leads(s, t) && Inv(t) && i < |t.procs| && t.procs[i].phase.Calling?
    ensures Leads(s, u) && Inv(u)
    ensures
      var p := t.procs[i];
      && AtRoute(p)
      && Met(t, u, i, Pipeline.AttemptVerdict(p.e, RouteNow(p), Now(p).upstream, ""))
      && u.inFlight == if p.slot.Some? && p.slot.value.owed then Limiter.Released(t.inFlight, p.slot.value.provider)
                       else t.inFlight
  {
    assert ProcInv(t.procs[i]);
    var a := Act(s, t, Finish(i));
    var b := Act(s, a, Release(i));
    var c := Act(s, b, Record(i));
    u := Act(s, c, Settle(i));
  }

  /** A candidate that gets no attempt is settled by the choice alone. */
  lemma ChosenNotCalled(t: State, i: nat)
    requires Enabled(t, Choose(i)) && !Next(t, Choose(i)).procs[i].phase.Calling?
    ensures
      var p, u := t.procs[i], Next(t, Choose(i));
      && u.inFlight == t.inFlight
      && Met(t, u, i, Pipeline.JudgeRoute(p.e, t.inFlight, "", Cand(p), Now(p)))
  {
    var p := t.procs[i];
    var v := Pipeline.JudgeRoute(p.e, t.inFlight, "", Cand(p), Now(p));
    assert v.Unroutable? || v.Untranslatable? || v.Busy?;
    assert t.history + [] == t.history && t.usage + [] == t.usage;
  }

  lemma ChosenAndCalled(t: State, i: nat)
    requires Enabled(t, Choose(i)) && Next(t, Choose(i)).procs[i].phase.Calling?
    requires forall p :: p in t.inFlight ==> t.inFlight[p] > 0
    ensures
      var p, q := t.procs[i], Next(t, Choose(i)).procs[i];
      && AtRoute(p) && AtRoute(q) && RouteNow(q) == RouteNow(p) && Cand(q) == Cand(p) && Now(q) == Now(p)
      && q.e == p.e && q.cands == p.cands && q.ws == p.ws && q.trail == p.trail
      && Pipeline.JudgeRoute(p.e, t.inFlight, "", Cand(p), Now(p)) ==
         Pipeline.AttemptVerdict(p.e, RouteNow(p), Now(p).upstream, "")
      && Next(t, Choose(i)).history == t.history && Next(t, Choose(i)).usage == t.usage
      && |Next(t, Choose(i)).procs| == |t.procs|
      && (if q.slot.Some? && q.slot.value.owed then
            Limiter.Released(Next(t, Choose(i)).inFlight, q.slot.value.provider)
          else Next(t, Choose(i)).inFlight) == t.inFlight
  {
    var pe := RouteNow(t.procs[i]).provider;
    Limiter.ReleaseUndoesTake(t.inFlight, pe.name);
  }

  /** From the choice on, with the slots as they were at the end. */
  lemma ChooseAndAttend(s: State, t: State, i: nat) returns (u: State)
    requires Leads(s, t) && Inv(t) && Enabled(t, Choose(i))
    ensures Leads(s, u) && Inv(u) && u.inFlight == t.inFlight
    ensures Met(t, u, i, Pipeline.JudgeRoute(t.procs[i].e, t.inFlight, "", Cand(t.procs[i]), Now(t.procs[i])))
  {
    u := Act(s, t, Choose(i));
    if u.procs[i].phase.Calling? {
      ChosenAndCalled(t, i);
      u := Attend(s, u, i);
    } else {
      ChosenNotCalled(t, i);
    }
  }

  /** The request at `i` is about to take a candidate. */
  predicate Ready(s: State, i: nat) {
    i < |s.procs| && s.procs[i].phase.Asking? && |s.procs[i].trail| < |s.procs[i].cands| == |s.procs[i].ws|
  }

  /** What one turn of the loop leaves. */
  ghost predicate TurnDone(s: State, t: State, i: nat, v: Pipeline.Verdict)
    requires Ready(s, i)
  {
    var p := s.procs[i];
    && t.inFlight == s.inFlight
    && t.history == Pipeline.HistoryAfter(p.e, s.history, Cand(p), Now(p), v)
    && t.usage == s.usage + Pipeline.UsageOf(p.e, v)
    && |t.procs| == |s.procs|
    && t.procs[i].e == p.e && t.procs[i].cands == p.cands && t.procs[i].ws == p.ws
    && t.procs[i].trail == p.trail + [v]
    && t.procs[i].phase == if Pipeline.Terminal(v) then Answered else Asking
  }

  lemma SkippedTurn(s: State, i: nat)
    requires Ready(s, i)
    requires Pipeline.SkipsCandidate(s.procs[i].e, s.history, Cand(s.procs[i]), Now(s.procs[i]))
    ensures TurnDone(s, Next(s, Ask(i)), i, Pipeline.Skipped)
  {
    var p := s.procs[i];
    assert Pipeline.Expired(p.e, s.history, Cand(p), Now(p)) == s.history;
    assert s.history + [] == s.history && s.usage + [] == s.usage;
  }

  /** One turn of the system is one turn of the loop. */
  lemma OneTurn(s: State, i: nat) returns (t: State)
    requires Inv(s) && Ready(s, i)
    ensures Leads(s, t) && Inv(t)
    ensures TurnDone(s, t, i, Pipeline.Judge(s.procs[i].e, s.history, s.inFlight, "", Cand(s.procs[i]), Now(s.procs[i])))
  {
    var p := s.procs[i];
    LeadsNowhere(s);
    t := Act(s, s, Ask(i));
    if Pipeline.SkipsCandidate(p.e, s.history, Cand(p), Now(p)) {
      SkippedTurn(s, i);
    } else {
      t := ChooseAndAttend(s, t, i);
    }
  }

  /** The candidates still to come. */
  function Left(p: Proc): seq<Indexes.Candidate>
    requires |p.trail| <= |p.cands|
  {
    p.cands[|p.trail|..]
  }

  function WeatherLeft(p: Proc): seq<Pipeline.Weather>
    requires |p.trail| <= |p.ws|
  {
    p.ws[|p.trail|..]
  }

  /** Run by itself from here on, request `i` can always be answered. */
  lemma {:induction false} AloneCanFinish(s: State, i: nat) returns (t: State)
    requires Inv(s) && i < |s.procs| && s.procs[i].phase.Asking?
    ensures Leads(s, t) && Inv(t) && |t.procs| == |s.procs|
    ensures t.procs[i].phase.Answered? && t.inFlight == s.inFlight
    ensures
      var p := s.procs[i];
      && |p.trail| <= |p.cands| == |p.ws|
      && t.procs[i].trail == p.trail + Pipeline.Serve(p.e, s.history, s.inFlight, "", Left(p), WeatherLeft(p))
      && t.history == Pipeline.HistoryRun(p.e, s.history, s.inFlight, "", Left(p), WeatherLeft(p))
      && t.procs[i].heads == [Pipeline.Answer(t.procs[i].trail)]
    decreases |s.procs[i].cands| - |s.procs[i].trail|
  {
    var p := s.procs[i];
    assert ProcInv(p);
    if |p.trail| == |p.cands| {
      LeadsNowhere(s);
      t := Act(s, s, GiveUp(i));
      assert ProcInv(t.procs[i]);
      assert p.trail + [] == p.trail;
    } else {
      var u := OneTurn(s, i);
      var v := Pipeline.Judge(p.e, s.history, s.inFlight, "", Cand(p), Now(p));
      TurnOfServe(p, s.history, s.inFlight, v);
      if Pipeline.Terminal(v) {
        t := u;
        assert ProcInv(t.procs[i]);
      } else {
        t := AloneCanFinish(u, i);
        LeadsOn(s, u, t);
      }
    }
  }

  lemma TurnOfServe(p: Proc, history: seq<Failover.Event>, inFlight: map<string, int>, v: Pipeline.Verdict)
    requires |p.trail| < |p.cands| == |p.ws|
    requires v == Pipeline.Judge(p.e, history, inFlight, "", Cand(p), Now(p))
    ensures
      var q := Judged(p, v);
      var after := Pipeline.HistoryAfter(p.e, history, Cand(p), Now(p), v);
      if Pipeline.Terminal(v) then
        && p.trail + Pipeline.Serve(p.e, history, inFlight, "", Left(p), WeatherLeft(p)) == p.trail + [v]
        && Pipeline.HistoryRun(p.e, history, inFlight, "", Left(p), WeatherLeft(p)) == after
      else
        && p.trail + Pipeline.Serve(p.e, history, inFlight, "", Left(p), WeatherLeft(p)) ==
             q.trail + Pipeline.Serve(p.e, after, inFlight, "", Left(q), WeatherLeft(q))
        && Pipeline.HistoryRun(p.e, history, inFlight, "", Left(p), WeatherLeft(p)) ==
             Pipeline.HistoryRun(p.e, after, inFlight, "", Left(q), WeatherLeft(q))
  {
    var n := |p.trail|;
    Pipeline.Suffix(p.cands, n);
    Pipeline.Suffix(p.ws, n);
    Pipeline.ServeFirst(p.e, history, inFlight, "", Cand(p), p.cands[n + 1..], Now(p), p.ws[n + 1..], v);
    if !Pipeline.Terminal(v) {
      var after := Pipeline.HistoryAfter(p.e, history, Cand(p), Now(p), v);
      Lists.Regroup(p.trail, [v], Pipeline.Serve(p.e, after, inFlight, "", p.cands[n + 1..], p.ws[n + 1..]));
    }
  }

  // ---- every run of one request alone ----

  /** Where a request will have got to when it is answered, if it runs alone. */
  datatype Outcome = Outcome(trail: seq<Pipeline.Verdict>, history: seq<Failover.Event>, inFlight: map<string, int>)

  function Rest(p: Proc, history: seq<Failover.Event>, inFlight: map<string, int>): Outcome
    requires |p.trail| <= |p.cands| == |p.ws|
  {
    Outcome(p.trail + Pipeline.Serve(p.e, history, inFlight, "", Left(p), WeatherLeft(p)),
            Pipeline.HistoryRun(p.e, history, inFlight, "", Left(p), WeatherLeft(p)),
            inFlight)
  }

  /** With this verdict on its candidate still to be settled. */
  function Settled(p: Proc, history: seq<Failover.Event>, inFlight: map<string, int>, v: Pipeline.Verdict): Outcome
    requires |p.trail| < |p.cands| == |p.ws|
  {
    var after := history + Pipeline.SettleEvents(p.e, Cand(p), Now(p), v);
    if Pipeline.Terminal(v) then Outcome(p.trail + [v], after, inFlight) else Rest(Judged(p, v), after, inFlight)
  }

  /** The slots once this request has given its own back. */
  function Freed(p: Proc, inFlight: map<string, int>): map<string, int> {
    if p.slot.Some? && p.slot.value.owed then Limiter.Released(inFlight, p.slot.value.provider) else inFlight
  }

  function Future(s: State, i: nat): Outcome
    requires i < |s.procs| && |s.procs[i].cands| == |s.procs[i].ws| && PhaseOf(s.procs[i])
  {
    var p := s.procs[i];
    match p.phase
    case Asking => Rest(p, s.history, s.inFlight)
    case Choosing => Settled(p, s.history, s.inFlight, Pipeline.JudgeRoute(p.e, s.inFlight, "", Cand(p), Now(p)))
    case Calling =>
      Settled(p, s.history, Freed(p, s.inFlight), Pipeline.AttemptVerdict(p.e, RouteNow(p), Now(p).upstream, ""))
    case Ending(v) => Settled(p, s.history, Freed(p, s.inFlight), v)
    case Recording(v) => Settled(p, s.history, s.inFlight, v)
    case Settling(v) => Settled(p, s.history, s.inFlight, v)
    case Answered => Outcome(p.trail, s.history, s.inFlight)
  }

  /** An action of request `i`. */
  predicate ActsFor(a: Action, i: nat) {
    !a.Arrive? && a.i == i
  }

  /** What is left is the verdict on the next candidate, then the rest. */
  lemma RestIsTurn(p: Proc, history: seq<Failover.Event>, inFlight: map<string, int>)
    requires |p.trail| < |p.cands| == |p.ws|
    ensures
      Rest(p, history, inFlight) ==
      Settled(p, Pipeline.Expired(p.e, history, Cand(p), Now(p)), inFlight,
              Pipeline.Judge(p.e, history, inFlight, "", Cand(p), Now(p)))
  {
    TurnOfServe(p, history, inFlight, Pipeline.Judge(p.e, history, inFlight, "", Cand(p), Now(p)));
  }

  /** The phase of a request does not matter to how a verdict is settled. */
  lemma SettledInAnyPhase(p: Proc, q: Proc, history: seq<Failover.Event>, inFlight: map<string, int>, v: Pipeline.Verdict)
    requires |p.trail| < |p.cands| == |p.ws| && q == p.(phase := q.phase, slot := q.slot, heads := q.heads)
    ensures Settled(p, history, inFlight, v) == Settled(q, history, inFlight, v)
  {
  }

  lemma AskKeepsFuture(s: State, i: nat)
    requires Enabled(s, Ask(i)) && ProcInv(s.procs[i]) && ProcInv(Next(s, Ask(i)).procs[i])
    ensures Future(Next(s, Ask(i)), i) == Future(s, i)
  {
    var p, t := s.procs[i], Next(s, Ask(i));
    RestIsTurn(p, s.history, s.inFlight);
    if Pipeline.SkipsCandidate(p.e, s.history, Cand(p), Now(p)) {
      SkippedTurn(s, i);
      assert s.history + [] == s.history;
    } else {
      SettledInAnyPhase(
        p, t.procs[i], t.history, s.inFlight, Pipeline.JudgeRoute(p.e, s.inFlight, "", Cand(p), Now(p)));
    }
  }

  lemma ChooseKeepsFuture(s: State, i: nat)
    requires Enabled(s, Choose(i)) && ProcInv(s.procs[i]) && ProcInv(Next(s, Choose(i)).procs[i])
    requires forall p :: p in s.inFlight ==> s.inFlight[p] > 0
    ensures Future(Next(s, Choose(i)), i) == Future(s, i)
  {
    if Next(s, Choose(i)).procs[i].phase.Calling? {
      ChosenAndCalled(s, i);
    } else {
      ChosenNotCalled(s, i);
    }
  }

  lemma ReleaseKeepsFuture(s: State, i: nat)
    requires Enabled(s, Release(i)) && ProcInv(s.procs[i]) && ProcInv(Next(s, Release(i)).procs[i])
    ensures Future(Next(s, Release(i)), i) == Future(s, i)
  {
  }

  lemma GiveUpKeepsFuture(s: State, i: nat)
    requires Enabled(s, GiveUp(i)) && ProcInv(s.procs[i]) && ProcInv(Next(s, GiveUp(i)).procs[i])
    ensures Future(Next(s, GiveUp(i)), i) == Future(s, i)
  {
    assert s.procs[i].trail + [] == s.procs[i].trail;
  }

  lemma StepKeepsFuture(s: State, a: Action, i: nat)
    requires Enabled(s, a) && ActsFor(a, i) && (a.Finish? || a.Record? || a.Settle?)
    requires ProcInv(s.procs[i]) && ProcInv(Next(s, a).procs[i])
    ensures Future(Next(s, a), i) == Future(s, i)
  {
  }

  /** No action of the request's own changes where it is going. */
  lemma ActKeepsFuture(s: State, a: Action, i: nat)
    requires Inv(s) && Enabled(s, a) && ActsFor(a, i)
    ensures i < |s.procs| == |Next(s, a).procs| && ProcInv(s.procs[i]) && ProcInv(Next(s, a).procs[i])
    ensures Future(Next(s, a), i) == Future(s, i)
  {
    OthersUntouched(s, a);
    ActorStep(s, a);
    match a
    case Ask(_) => AskKeepsFuture(s, i);
    case Choose(_) => ChooseKeepsFuture(s, i);
    case Release(_) => ReleaseKeepsFuture(s, i);
    case GiveUp(_) => GiveUpKeepsFuture(s, i);
    case _ => StepKeepsFuture(s, a, i);
  }

  lemma {:induction false} RunKeepsFuture(s: State, actions: seq<Action>, i: nat)
    requires Inv(s) && Happens(s, actions) && i < |s.procs| && forall a :: a in actions ==> ActsFor(a, i)
    ensures Inv(Run(s, actions)) && |Run(s, actions).procs| == |s.procs|
    ensures ProcInv(s.procs[i]) && ProcInv(Run(s, actions).procs[i])
    ensures Future(Run(s, actions), i) == Future(s, i)
    decreases |actions|
  {
    if actions != [] {
      assert actions[0] in actions;
      ActKeepsFuture(s, actions[0], i);
      Step(s, actions[0]);
      RunKeepsFuture(Next(s, actions[0]), actions[1..], i);
    }
  }

  /** Whatever its actions, repeated releases included: a request that is run by itself from any state that satisfies
      the invariant, until it is answered, has met the verdicts of Serve, left the failure counter and the slots as
      Serve does, and been answered once, as they say. */
  lemma AloneIsServe(s: State, actions: seq<Action>, i: nat)
    requires Inv(s) && Happens(s, actions) && i < |s.procs| && forall a :: a in actions ==> ActsFor(a, i)
    requires s.procs[i].phase.Asking?
    requires i < |Run(s, actions).procs| && Run(s, actions).procs[i].phase.Answered?
    ensures
      var p, t := s.procs[i], Run(s, actions);
      && |p.trail| <= |p.cands| == |p.ws|
      && t.procs[i].trail == p.trail + Pipeline.Serve(p.e, s.history, s.inFlight, "", Left(p), WeatherLeft(p))
      && t.history == Pipeline.HistoryRun(p.e, s.history, s.inFlight, "", Left(p), WeatherLeft(p))
      && t.inFlight == s.inFlight
      && t.procs[i].heads == [Pipeline.Answer(t.procs[i].trail)]
  {
    RunKeepsFuture(s, actions, i);
  }
}
