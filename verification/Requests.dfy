/** Any number of requests running through internal/pipeline at once, over one limiter and one failure counter, each
    with the configuration snapshot it started from. An action is one access to something shared. */
module Requests {
  import opened Wrappers
  import Lists
  import Indexes
  import Limiter
  import Failover
  import Usage
  import Pipeline

  /** A release closure. */
  datatype Slot = Slot(provider: string, owed: bool)

  datatype Phase =
    | Asking                         // next: should this candidate be skipped?
    | Choosing                       // next: its route and a slot
    | Calling                        // next: the upstream answers
    | Ending(v: Pipeline.Verdict)    // next: the slot is released
    | Recording(v: Pipeline.Verdict) // next: the attempt is recorded
    | Settling(v: Pipeline.Verdict)  // next: the failure counter learns of it
    | Answered

  datatype Proc = Proc(
    e: Pipeline.Env,
    cands: seq<Indexes.Candidate>,
    ws: seq<Pipeline.Weather>,
    trail: seq<Pipeline.Verdict>,
    phase: Phase,
    slot: Option<Slot>,
    heads: seq<int>)

  datatype State = State(
    inFlight: map<string, int>,
    history: seq<Failover.Event>,
    usage: seq<Usage.Attempt>,
    sent: seq<Pipeline.Sent>,
    procs: seq<Proc>)

  datatype Action =
    | Arrive(e: Pipeline.Env, cands: seq<Indexes.Candidate>, ws: seq<Pipeline.Weather>)
    | Ask(i: nat)
    | Choose(i: nat)
    | Finish(i: nat)
    | Release(i: nat)  // also a second call of the closure, at any later time
    | Record(i: nat)
    | Settle(i: nat)
    | GiveUp(i: nat)

  const INITIAL := State(map[], [], [], [], [])

  function Cand(p: Proc): Indexes.Candidate
    requires |p.trail| < |p.cands|
  {
    p.cands[|p.trail|]
  }

  function Now(p: Proc): Pipeline.Weather
    requires |p.trail| < |p.ws|
  {
    p.ws[|p.trail|]
  }

  /** The request is at a candidate that has a route and a body. */
  predicate AtRoute(p: Proc) {
    && |p.trail| < |p.cands| == |p.ws|
    && Pipeline.RouteOf(p.e, Cand(p)).Some?
    && Pipeline.Outbound(p.e, Pipeline.RouteOf(p.e, Cand(p)).value).Some?
  }

  function RouteNow(p: Proc): Pipeline.Route
    requires AtRoute(p)
  {
    Pipeline.RouteOf(p.e, Cand(p)).value
  }

  /** What the request sends to its candidate. */
  function SentNow(p: Proc): Pipeline.Sent
    requires AtRoute(p)
  {
    Pipeline.Posted(RouteNow(p), Pipeline.Outbound(p.e, RouteNow(p)).value)
  }

  /** What each action waits for; a process that breaks these shapes cannot arise. */
  predicate Enabled(s: State, a: Action) {
    match a
    case Arrive(_, cands, ws) => |cands| == |ws|
    case Ask(i) => i < |s.procs| && s.procs[i].phase.Asking? && |s.procs[i].trail| < |s.procs[i].cands| == |s.procs[i].ws|
    case Choose(i) =>
      i < |s.procs| && s.procs[i].phase.Choosing? && |s.procs[i].trail| < |s.procs[i].cands| == |s.procs[i].ws|
    case Finish(i) => i < |s.procs| && s.procs[i].phase.Calling? && AtRoute(s.procs[i])
    case Release(i) =>
      i < |s.procs| && (s.procs[i].phase.Ending? || (s.procs[i].slot.Some? && !s.procs[i].phase.Calling?))
    case Record(i) => i < |s.procs| && s.procs[i].phase.Recording?
    case Settle(i) =>
      i < |s.procs| && s.procs[i].phase.Settling? && |s.procs[i].trail| < |s.procs[i].cands| == |s.procs[i].ws|
    case GiveUp(i) => i < |s.procs| && s.procs[i].phase.Asking? && |s.procs[i].trail| == |s.procs[i].cands|
  }

  function Next(s: State, a: Action): State
    requires Enabled(s, a)
  {
    match a
    case Arrive(e, cands, ws) => s.(procs := s.procs + [Proc(e, cands, ws, [], Asking, None, [])])
    case Ask(i) => AskNext(s, i, s.procs[i])
    case Choose(i) => ChooseNext(s, i, s.procs[i])
    case Finish(i) =>
      var p := s.procs[i];
      var v := Pipeline.AttemptVerdict(p.e, RouteNow(p), Now(p).upstream, "");
      s.(procs := s.procs[i := p.(phase := Ending(v), heads := p.heads + Pipeline.HeadsOf(v))])
    case Release(i) => ReleaseNext(s, i, s.procs[i])
    case Record(i) =>
      var p := s.procs[i];
      s.(usage := s.usage + Pipeline.UsageOf(p.e, p.phase.v), procs := s.procs[i := p.(phase := Settling(p.phase.v))])
    case Settle(i) =>
      var p := s.procs[i];
      s.(history := s.history + Pipeline.SettleEvents(p.e, Cand(p), Now(p), p.phase.v),
         procs := s.procs[i := Judged(p, p.phase.v)])
    case GiveUp(i) =>
      var p := s.procs[i];
      s.(procs := s.procs[i := p.(phase := Answered, heads := p.heads + [if Pipeline.AnyBusy(p.trail) then 529 else 502])])
  }

  /** The verdict on the candidate is in. */
  function Judged(p: Proc, v: Pipeline.Verdict): Proc {
    p.(trail := p.trail + [v], phase := if Pipeline.Terminal(v) then Answered else Asking)
  }

  function AskNext(s: State, i: nat, p: Proc): State
    requires i < |s.procs| && |p.trail| < |p.cands| == |p.ws|
  {
    if Pipeline.SkipsCandidate(p.e, s.history, Cand(p), Now(p)) then
      s.(procs := s.procs[i := Judged(p, Pipeline.Skipped)])
    else
      s.(history := Pipeline.Expired(p.e, s.history, Cand(p), Now(p)), procs := s.procs[i := p.(phase := Choosing)])
  }

  function ChooseNext(s: State, i: nat, p: Proc): State
    requires i < |s.procs| && |p.trail| < |p.cands| == |p.ws|
  {
    var route := Pipeline.RouteOf(p.e, Cand(p));
    if route.None? then s.(procs := s.procs[i := Judged(p, Pipeline.Unroutable)])
    else if Pipeline.Outbound(p.e, route.value).None? then
      s.(procs := s.procs[i := Judged(p.(heads := p.heads + [400]), Pipeline.Untranslatable)])
    else
      var pe := route.value.provider;
      if Limiter.Refuses(s.inFlight, pe.name, pe.maxConcurrency) then
        s.(procs := s.procs[i := Judged(p, Pipeline.Busy)])
      else if pe.maxConcurrency <= 0 then
        s.(sent := s.sent + [SentNow(p)], procs := s.procs[i := p.(phase := Calling, slot := None)])
      else
        s.(inFlight := Limiter.Taken(s.inFlight, pe.name),
           sent := s.sent + [SentNow(p)],
           procs := s.procs[i := p.(phase := Calling, slot := Some(Slot(pe.name, true)))])
  }

  /** Calling the closure: only the first call of a limited one releases. */
  function ReleaseNext(s: State, i: nat, p: Proc): State
    requires i < |s.procs|
  {
    var slot := if p.slot.Some? then Some(p.slot.value.(owed := false)) else None;
    var phase := if p.phase.Ending? then Recording(p.phase.v) else p.phase;
    s.(inFlight := if p.slot.Some? && p.slot.value.owed then Limiter.Released(s.inFlight, p.slot.value.provider)
                   else s.inFlight,
       procs := s.procs[i := p.(slot := slot, phase := phase)])
  }

  // ---- one request ----

  /** The head written so far. */
  function HeadsDue(p: Proc): seq<int> {
    match p.phase
    case Ending(v) => Pipeline.HeadsOf(v)
    case Recording(v) => Pipeline.HeadsOf(v)
    case Settling(v) => Pipeline.HeadsOf(v)
    case Answered => [Pipeline.Answer(p.trail)]
    case _ => []
  }

  /** A verdict a candidate can meet, for some state of the counter and the slots. */
  ghost predicate Possible(p: Proc, j: nat, v: Pipeline.Verdict)
    requires j < |p.cands| == |p.ws|
  {
    v.Skipped? || exists inFlight :: v == Pipeline.JudgeRoute(p.e, inFlight, "", p.cands[j], p.ws[j])
  }

  predicate PhaseOf(p: Proc) {
    match p.phase
    case Asking => |p.trail| <= |p.cands|
    case Answered => |p.trail| <= |p.cands|
    case Choosing => |p.trail| < |p.cands|
    case Calling => AtRoute(p)
    case Ending(v) => AtRoute(p)
    case Recording(v) => AtRoute(p)
    case Settling(v) => AtRoute(p)
  }

  /** The verdict in hand is that of the attempt. */
  ghost predicate VerdictInHand(p: Proc)
    requires PhaseOf(p)
  {
    p.phase.Ending? || p.phase.Recording? || p.phase.Settling? ==>
      p.phase.v == Pipeline.AttemptVerdict(p.e, RouteNow(p), Now(p).upstream, "") && Pipeline.Attempted(p.phase.v)
  }

  ghost predicate SlotOf(p: Proc)
    requires PhaseOf(p)
  {
    var limited := (p.phase.Calling? || p.phase.Ending?) && RouteNow(p).provider.maxConcurrency > 0;
    && (limited ==> p.slot == Some(Slot(RouteNow(p).provider.name, true)))
    && (!limited && p.slot.Some? ==> !p.slot.value.owed)
  }

  ghost predicate TrailOf(p: Proc)
    requires |p.trail| <= |p.cands| == |p.ws|
  {
    && (forall j :: 0 <= j < |p.trail| ==> Possible(p, j, p.trail[j]))
    && (forall j :: 0 <= j < |p.trail| && Pipeline.Terminal(p.trail[j]) ==> j == |p.trail| - 1 && p.phase.Answered?)
    && (p.phase.Answered? && |p.trail| < |p.cands| ==> p.trail != [] && Pipeline.Terminal(p.trail[|p.trail| - 1]))
  }

  ghost predicate ProcInv(p: Proc) {
    && |p.cands| == |p.ws|
    && PhaseOf(p) && VerdictInHand(p) && SlotOf(p) && TrailOf(p)
    && p.heads == HeadsDue(p)
  }

  // ---- the slots of all requests ----

  predicate Holds(p: Proc, provider: string) {
    p.slot.Some? && p.slot.value.owed && p.slot.value.provider == provider
  }

  function Held(procs: seq<Proc>, provider: string): nat {
    if procs == [] then 0
    else Held(procs[..|procs| - 1], provider) + if Holds(procs[|procs| - 1], provider) then 1 else 0
  }

  lemma {:induction false} HeldUpdate(procs: seq<Proc>, i: nat, p: Proc, provider: string)
    requires i < |procs|
    ensures Held(procs[i := p], provider) ==
            Held(procs, provider) - (if Holds(procs[i], provider) then 1 else 0) + if Holds(p, provider) then 1 else 0
  {
    var front, last := procs[..|procs| - 1], procs[|procs| - 1];
    var after := procs[i := p];
    if i == |procs| - 1 {
      assert after[..|procs| - 1] == front;
    } else {
      HeldUpdate(front, i, p, provider);
      assert after[..|procs| - 1] == front[i := p];
    }
  }

  /** No request's snapshot gives this provider a larger limit. */
  ghost predicate LimitsWithin(procs: seq<Proc>, provider: string, limit: int) {
    forall i, j :: 0 <= i < |procs| && 0 <= j < |procs[i].cands| ==> LimitWithin(procs[i].e, procs[i].cands[j], provider, limit)
  }

  predicate LimitWithin(e: Pipeline.Env, cand: Indexes.Candidate, provider: string, limit: int) {
    var route := Pipeline.RouteOf(e, cand);
    route.Some? && route.value.provider.name == provider ==> route.value.provider.maxConcurrency <= limit
  }

  ghost predicate SlotsInv(s: State) {
    && (forall p :: p in s.inFlight ==> s.inFlight[p] > 0)
    && (forall p :: Limiter.Count(s.inFlight, p) == Held(s.procs, p))
    && (forall p, limit :: limit >= 0 && LimitsWithin(s.procs, p, limit) ==> Limiter.Count(s.inFlight, p) <= limit)
  }

  // ---- the failures of all requests ----

  predicate TrailsFit(procs: seq<Proc>) {
    forall i :: 0 <= i < |procs| ==> |procs[i].trail| <= |procs[i].cands|
  }

  function Failures(procs: seq<Proc>, k: Failover.CounterKey): nat
    requires TrailsFit(procs)
  {
    if procs == [] then 0
    else
      var last := procs[|procs| - 1];
      Failures(procs[..|procs| - 1], k) + Pipeline.FailedAttempts(last.e, last.trail, last.cands, k)
  }

  ghost predicate Inv(s: State) {
    && (forall i :: 0 <= i < |s.procs| ==> ProcInv(s.procs[i]))
    && SlotsInv(s)
    && (forall k :: Pipeline.FailuresOf(s.history, k) == Failures(s.procs, k))
  }

  lemma {:induction false} FailuresUpdate(procs: seq<Proc>, i: nat, p: Proc, k: Failover.CounterKey)
    requires TrailsFit(procs)
    requires i < |procs| && |p.trail| <= |p.cands|
    ensures Failures(procs[i := p], k) ==
            Failures(procs, k) - Pipeline.FailedAttempts(procs[i].e, procs[i].trail, procs[i].cands, k) +
            Pipeline.FailedAttempts(p.e, p.trail, p.cands, k)
  {
    var front, after := procs[..|procs| - 1], procs[i := p];
    if i == |procs| - 1 {
      assert after[..|procs| - 1] == front;
    } else {
      FailuresUpdate(front, i, p, k);
      assert after[..|procs| - 1] == front[i := p];
    }
  }

  lemma {:induction false} FailedSnoc(
      e: Pipeline.Env, trail: seq<Pipeline.Verdict>, v: Pipeline.Verdict, cands: seq<Indexes.Candidate>,
      k: Failover.CounterKey)
    requires |trail| < |cands|
    ensures Pipeline.FailedAttempts(e, trail + [v], cands, k) ==
            Pipeline.FailedAttempts(e, trail, cands, k) +
            if v.Failed? && Pipeline.KeyOf(e, cands[|trail|]) == k then 1 else 0
  {
    var all := trail + [v];
    if trail == [] {
      assert all[1..] == [];
    } else {
      FailedSnoc(e, trail[1..], v, cands[1..], k);
      assert all[1..] == trail[1..] + [v];
    }
  }

  // ---- what each step keeps ----

  /** A verdict that leaves no slot and has been answered if it had to be. */
  lemma JudgedInv(p: Proc, v: Pipeline.Verdict)
    requires |p.trail| < |p.cands| == |p.ws| && TrailOf(p) && !p.phase.Answered?
    requires p.slot.Some? ==> !p.slot.value.owed
    requires Possible(p, |p.trail|, v) && p.heads == Pipeline.HeadsOf(v)
    ensures ProcInv(Judged(p, v))
  {
    var q := Judged(p, v);
    forall j | 0 <= j < |q.trail| ensures Possible(q, j, q.trail[j]) {
      if j < |p.trail| {
        assert Possible(p, j, p.trail[j]);
      }
    }
    assert q.trail[|q.trail| - 1] == v;
  }

  lemma AskStep(s: State, i: nat)
    requires Enabled(s, Ask(i)) && ProcInv(s.procs[i])
    ensures ProcInv(Next(s, Ask(i)).procs[i])
  {
    assert ProcInv(s.procs[i]);
    if Pipeline.SkipsCandidate(s.procs[i].e, s.history, Cand(s.procs[i]), Now(s.procs[i])) {
      JudgedInv(s.procs[i], Pipeline.Skipped);
    }
  }

  /** A candidate that gets no attempt. */
  lemma NotGranted(p: Proc, inFlight: map<string, int>)
    requires ProcInv(p) && p.phase.Choosing?
    ensures
      var v := Pipeline.JudgeRoute(p.e, inFlight, "", Cand(p), Now(p));
      && (v.Unroutable? || v.Busy? ==> ProcInv(Judged(p, v)))
      && (v.Untranslatable? ==> ProcInv(Judged(p.(heads := p.heads + [400]), v)))
  {
    var v := Pipeline.JudgeRoute(p.e, inFlight, "", Cand(p), Now(p));
    assert Possible(p, |p.trail|, v);
    if v.Unroutable? || v.Busy? {
      JudgedInv(p, v);
    } else if v.Untranslatable? {
      var q := p.(heads := p.heads + [400]);
      assert Possible(q, |q.trail|, v);
      SameTrail(p, q);
      JudgedInv(q, v);
    }
  }

  lemma Granted(p: Proc, slot: Option<Slot>)
    requires ProcInv(p) && p.phase.Choosing? && AtRoute(p)
    requires slot == if RouteNow(p).provider.maxConcurrency <= 0 then None
                     else Some(Slot(RouteNow(p).provider.name, true))
    ensures ProcInv(p.(phase := Calling, slot := slot))
  {
    SameTrail(p, p.(phase := Calling, slot := slot));
  }

  lemma ChooseStep(s: State, i: nat)
    requires Enabled(s, Choose(i)) && ProcInv(s.procs[i])
    ensures ProcInv(Next(s, Choose(i)).procs[i])
  {
    var p := s.procs[i];
    assert ProcInv(p);
    NotGranted(p, s.inFlight);
    if AtRoute(p) {
      var pe := RouteNow(p).provider;
      Granted(p, if pe.maxConcurrency <= 0 then None else Some(Slot(pe.name, true)));
    }
  }

  /** Only the phase, the slot or the head changes. */
  lemma SameTrail(p: Proc, q: Proc)
    requires |p.trail| <= |p.cands| == |p.ws| && TrailOf(p) && !p.phase.Answered? && !q.phase.Answered?
    requires q.e == p.e && q.cands == p.cands && q.ws == p.ws && q.trail == p.trail
    ensures TrailOf(q)
  {
    forall j | 0 <= j < |q.trail| ensures Possible(q, j, q.trail[j]) {
      assert Possible(p, j, p.trail[j]);
    }
  }

  lemma FinishStep(s: State, i: nat)
    requires Enabled(s, Finish(i)) && ProcInv(s.procs[i])
    ensures ProcInv(Next(s, Finish(i)).procs[i])
  {
    assert ProcInv(s.procs[i]);
    SameTrail(s.procs[i], Next(s, Finish(i)).procs[i]);
  }

  lemma ReleaseStep(s: State, i: nat)
    requires Enabled(s, Release(i)) && ProcInv(s.procs[i])
    ensures ProcInv(Next(s, Release(i)).procs[i])
  {
    var p, q := s.procs[i], Next(s, Release(i)).procs[i];
    assert ProcInv(p);
    forall j | 0 <= j < |q.trail| ensures Possible(q, j, q.trail[j]) {
      assert Possible(p, j, p.trail[j]);
    }
  }

  lemma RecordStep(s: State, i: nat)
    requires Enabled(s, Record(i)) && ProcInv(s.procs[i])
    ensures ProcInv(Next(s, Record(i)).procs[i])
  {
    assert ProcInv(s.procs[i]);
    SameTrail(s.procs[i], Next(s, Record(i)).procs[i]);
  }

  lemma SettleStep(s: State, i: nat)
    requires Enabled(s, Settle(i)) && ProcInv(s.procs[i])
    ensures ProcInv(Next(s, Settle(i)).procs[i])
  {
    var p := s.procs[i];
    assert ProcInv(p);
    var v, pe := p.phase.v, RouteNow(p).provider;
    assert !Limiter.Refuses(map[], pe.name, pe.maxConcurrency);
    assert v == Pipeline.JudgeRoute(p.e, map[], "", Cand(p), Now(p));
    JudgedInv(p, v);
  }

  lemma GiveUpStep(s: State, i: nat)
    requires Enabled(s, GiveUp(i)) && ProcInv(s.procs[i])
    ensures ProcInv(Next(s, GiveUp(i)).procs[i])
  {
    var p, q := s.procs[i], Next(s, GiveUp(i)).procs[i];
    assert ProcInv(p);
    forall j | 0 <= j < |q.trail| ensures Possible(q, j, q.trail[j]) {
      assert Possible(p, j, p.trail[j]);
    }
  }

  /** The request an action belongs to. */
  function Actor(s: State, a: Action): nat {
    match a
    case Arrive(_, _, _) => |s.procs|
    case Ask(i) => i
    case Choose(i) => i
    case Finish(i) => i
    case Release(i) => i
    case Record(i) => i
    case Settle(i) => i
    case GiveUp(i) => i
  }

  lemma OnlyActor(s: State, a: Action)
    requires Enabled(s, a)
    ensures
      var t, i := Next(s, a), Actor(s, a);
      && |t.procs| == (if a.Arrive? then |s.procs| + 1 else |s.procs|) && i < |t.procs|
      && (a.Arrive? ==> t.procs[..i] == s.procs)
      && (!a.Arrive? ==> t.procs == s.procs[i := t.procs[i]])
  {
  }

  lemma SameJob(s: State, a: Action)
    requires Enabled(s, a) && !a.Arrive?
    ensures
      var t, i := Next(s, a), Actor(s, a);
      && i < |s.procs| == |t.procs|
      && t.procs[i].e == s.procs[i].e && t.procs[i].cands == s.procs[i].cands && t.procs[i].ws == s.procs[i].ws
  {
    OnlyActor(s, a);
  }

  /** An action changes its own request and no other. */
  lemma OthersUntouched(s: State, a: Action)
    requires Enabled(s, a)
    ensures
      var t, i := Next(s, a), Actor(s, a);
      && |t.procs| == (if a.Arrive? then |s.procs| + 1 else |s.procs|) && i < |t.procs|
      && (forall j :: 0 <= j < |s.procs| && j != i ==> t.procs[j] == s.procs[j])
      && (!a.Arrive? ==>
            && t.procs == s.procs[i := t.procs[i]]
            && t.procs[i].e == s.procs[i].e && t.procs[i].cands == s.procs[i].cands && t.procs[i].ws == s.procs[i].ws)
  {
    OnlyActor(s, a);
    if a.Arrive? {
      assert forall j :: 0 <= j < |s.procs| ==> Next(s, a).procs[j] == s.procs[j];
    } else {
      SameJob(s, a);
    }
  }

  lemma ActorStep(s: State, a: Action)
    requires Inv(s) && Enabled(s, a)
    ensures Actor(s, a) < |Next(s, a).procs| && ProcInv(Next(s, a).procs[Actor(s, a)])
  {
    if !a.Arrive? {
      assert ProcInv(s.procs[Actor(s, a)]);
    }
    match a
    case Arrive(_, _, _) =>
    case Ask(i) => AskStep(s, i);
    case Choose(i) => ChooseStep(s, i);
    case Finish(i) => FinishStep(s, i);
    case Release(i) => ReleaseStep(s, i);
    case Record(i) => RecordStep(s, i);
    case Settle(i) => SettleStep(s, i);
    case GiveUp(i) => GiveUpStep(s, i);
  }

  lemma ProcsStep(s: State, a: Action)
    requires Inv(s) && Enabled(s, a)
    ensures forall j :: 0 <= j < |Next(s, a).procs| ==> ProcInv(Next(s, a).procs[j])
  {
    ActorStep(s, a);
    OthersUntouched(s, a);
  }

  function One(b: bool): int {
    if b then 1 else 0
  }

  lemma HeldPositive(procs: seq<Proc>, i: nat, provider: string)
    requires i < |procs| && Holds(procs[i], provider)
    ensures Held(procs, provider) >= 1
  {
    HeldUpdate(procs, i, procs[i].(slot := None), provider);
  }

  lemma ChooseMoves(s: State, i: nat, provider: string)
    requires Inv(s) && Enabled(s, Choose(i))
    ensures
      var t := Next(s, Choose(i));
      Limiter.Count(t.inFlight, provider) - Limiter.Count(s.inFlight, provider) ==
      One(Holds(t.procs[i], provider)) - One(Holds(s.procs[i], provider))
  {
    assert ProcInv(s.procs[i]);
    if AtRoute(s.procs[i]) {
      Limiter.TakeCounts(s.inFlight, RouteNow(s.procs[i]).provider.name, provider);
    }
  }

  lemma ReleaseMoves(s: State, i: nat, provider: string)
    requires Inv(s) && Enabled(s, Release(i))
    ensures
      var t := Next(s, Release(i));
      Limiter.Count(t.inFlight, provider) - Limiter.Count(s.inFlight, provider) ==
      One(Holds(t.procs[i], provider)) - One(Holds(s.procs[i], provider))
  {
    var p := s.procs[i];
    if p.slot.Some? && p.slot.value.owed {
      HeldPositive(s.procs, i, p.slot.value.provider);
      Limiter.ReleaseCounts(s.inFlight, p.slot.value.provider, provider);
    }
    ReleasedSlot(s, i, provider);
  }

  lemma ReleasedSlot(s: State, i: nat, provider: string)
    requires Enabled(s, Release(i))
    ensures
      var p, t := s.procs[i], Next(s, Release(i));
      && !Holds(t.procs[i], provider)
      && t.inFlight == if p.slot.Some? && p.slot.value.owed then Limiter.Released(s.inFlight, p.slot.value.provider)
                       else s.inFlight
  {
  }

  /** The limiter moves by what the acting request takes or gives back. */
  lemma SlotMoves(s: State, a: Action, provider: string)
    requires Inv(s) && Enabled(s, a) && !a.Arrive?
    ensures
      var t, i := Next(s, a), Actor(s, a);
      && i < |s.procs| == |t.procs|
      && Limiter.Count(t.inFlight, provider) - Limiter.Count(s.inFlight, provider) ==
         One(Holds(t.procs[i], provider)) - One(Holds(s.procs[i], provider))
  {
    OthersUntouched(s, a);
    if a.Choose? {
      ChooseMoves(s, a.i, provider);
    } else if a.Release? {
      ReleaseMoves(s, a.i, provider);
    } else {
      SlotKept(s, a);
    }
  }

  lemma SlotKept(s: State, a: Action)
    requires Enabled(s, a) && !a.Arrive? && !a.Choose? && !a.Release?
    ensures Next(s, a).inFlight == s.inFlight
    ensures Next(s, a).procs[Actor(s, a)].slot == s.procs[Actor(s, a)].slot
  {
  }

  lemma HeldStep(s: State, a: Action, provider: string)
    requires Inv(s) && Enabled(s, a)
    ensures Limiter.Count(Next(s, a).inFlight, provider) == Held(Next(s, a).procs, provider)
  {
    var t, i := Next(s, a), Actor(s, a);
    if a.Arrive? {
      assert t.procs[..|t.procs| - 1] == s.procs;
    } else {
      OthersUntouched(s, a);
      SlotMoves(s, a, provider);
      HeldUpdate(s.procs, i, t.procs[i], provider);
    }
  }

  lemma LimitsBefore(s: State, a: Action, provider: string, limit: int)
    requires Enabled(s, a) && LimitsWithin(Next(s, a).procs, provider, limit)
    ensures LimitsWithin(s.procs, provider, limit)
  {
    OthersUntouched(s, a);
    var t := Next(s, a);
    forall i, j | 0 <= i < |s.procs| && 0 <= j < |s.procs[i].cands|
      ensures LimitWithin(s.procs[i].e, s.procs[i].cands[j], provider, limit)
    {
      assert t.procs[i].e == s.procs[i].e && t.procs[i].cands == s.procs[i].cands;
      assert LimitWithin(t.procs[i].e, t.procs[i].cands[j], provider, limit);
    }
  }

  /** A slot is granted below the limit the request's own snapshot gives. */
  lemma CapStep(s: State, a: Action, provider: string, limit: int)
    requires Inv(s) && Enabled(s, a) && limit >= 0 && LimitsWithin(Next(s, a).procs, provider, limit)
    ensures Limiter.Count(Next(s, a).inFlight, provider) <= limit
  {
    LimitsBefore(s, a, provider, limit);
    if a.Choose? {
      var p := s.procs[a.i];
      assert LimitWithin(p.e, Cand(p), provider, limit);
    } else if !a.Arrive? {
      SlotMoves(s, a, provider);
      HeldStep(s, a, provider);
      assert ProcInv(s.procs[Actor(s, a)]);
    }
  }

  lemma SlotsStep(s: State, a: Action)
    requires Inv(s) && Enabled(s, a)
    ensures SlotsInv(Next(s, a))
  {
    var t := Next(s, a);
    NoZeroStep(s, a);
    forall p ensures Limiter.Count(t.inFlight, p) == Held(t.procs, p) {
      HeldStep(s, a, p);
    }
    forall p, limit | limit >= 0 && LimitsWithin(t.procs, p, limit) ensures Limiter.Count(t.inFlight, p) <= limit {
      CapStep(s, a, p, limit);
    }
  }

  lemma NoZeroStep(s: State, a: Action)
    requires SlotsInv(s) && Enabled(s, a)
    ensures forall p :: p in Next(s, a).inFlight ==> Next(s, a).inFlight[p] > 0
  {
  }

  /** One step moves the failures of a pair by what it adds to the trail. */
  lemma FailuresStep(s: State, a: Action, k: Failover.CounterKey)
    requires Inv(s) && Enabled(s, a)
    requires TrailsFit(Next(s, a).procs)
    ensures Pipeline.FailuresOf(Next(s, a).history, k) == Failures(Next(s, a).procs, k)
  {
    var t, i := Next(s, a), Actor(s, a);
    if a.Arrive? {
      assert t.procs[..|t.procs| - 1] == s.procs;
    } else {
      OthersUntouched(s, a);
      var p, q := s.procs[i], t.procs[i];
      assert ProcInv(p) && |q.trail| <= |q.cands|;
      FailuresUpdate(s.procs, i, q, k);
      FailureMoves(s, a, k);
    }
  }

  /** The failures counted move with the attempts of the trail. */
  ghost predicate FailuresAgree(s: State, t: State, p: Proc, q: Proc, k: Failover.CounterKey)
    requires |p.trail| <= |p.cands| && |q.trail| <= |q.cands|
  {
    Pipeline.FailuresOf(t.history, k) - Pipeline.FailuresOf(s.history, k) ==
    Pipeline.FailedAttempts(q.e, q.trail, q.cands, k) - Pipeline.FailedAttempts(p.e, p.trail, p.cands, k)
  }

  lemma JudgedFailures(p: Proc, v: Pipeline.Verdict, k: Failover.CounterKey)
    requires |p.trail| < |p.cands|
    ensures
      var q := Judged(p, v);
      Pipeline.FailedAttempts(q.e, q.trail, q.cands, k) ==
      Pipeline.FailedAttempts(p.e, p.trail, p.cands, k) + One(v.Failed? && Pipeline.KeyOf(p.e, Cand(p)) == k)
  {
    FailedSnoc(p.e, p.trail, v, p.cands, k);
  }

  lemma AskMoves(s: State, i: nat, k: Failover.CounterKey)
    requires Enabled(s, Ask(i))
    ensures
      var q := Next(s, Ask(i)).procs[i];
      |q.trail| <= |q.cands| && FailuresAgree(s, Next(s, Ask(i)), s.procs[i], q, k)
  {
    var p := s.procs[i];
    ExpiryIsNoFailure(p.e, s.history, Cand(p), Now(p), k);
    JudgedFailures(p, Pipeline.Skipped, k);
  }

  lemma ChooseTrail(s: State, i: nat)
    requires Enabled(s, Choose(i))
    ensures
      var p, q := s.procs[i], Next(s, Choose(i)).procs[i];
      && q.e == p.e && q.cands == p.cands && Next(s, Choose(i)).history == s.history
      && !q.phase.Settling? && Next(s, Choose(i)).usage == s.usage
      && (q.trail == p.trail || q.trail == p.trail + [Pipeline.Unroutable] ||
          q.trail == p.trail + [Pipeline.Untranslatable] || q.trail == p.trail + [Pipeline.Busy])
  {
  }

  lemma ChooseFailures(s: State, i: nat, k: Failover.CounterKey)
    requires Enabled(s, Choose(i))
    ensures
      var q := Next(s, Choose(i)).procs[i];
      |q.trail| <= |q.cands| && FailuresAgree(s, Next(s, Choose(i)), s.procs[i], q, k)
  {
    ChooseTrail(s, i);
    var p := s.procs[i];
    FailedSnoc(p.e, p.trail, Pipeline.Unroutable, p.cands, k);
    FailedSnoc(p.e, p.trail, Pipeline.Untranslatable, p.cands, k);
    FailedSnoc(p.e, p.trail, Pipeline.Busy, p.cands, k);
  }

  lemma SettleMoves(s: State, i: nat, k: Failover.CounterKey)
    requires Enabled(s, Settle(i))
    ensures
      var q := Next(s, Settle(i)).procs[i];
      |q.trail| <= |q.cands| && FailuresAgree(s, Next(s, Settle(i)), s.procs[i], q, k)
  {
    var p := s.procs[i];
    JudgedFailures(p, p.phase.v, k);
    SettledFailure(p.e, s.history, Cand(p), Now(p), p.phase.v, k);
  }

  lemma FailureMoves(s: State, a: Action, k: Failover.CounterKey)
    requires Inv(s) && Enabled(s, a) && !a.Arrive?
    ensures
      var p, q := s.procs[Actor(s, a)], Next(s, a).procs[Actor(s, a)];
      && |p.trail| <= |p.cands| && |q.trail| <= |q.cands|
      && FailuresAgree(s, Next(s, a), p, q, k)
  {
    assert ProcInv(s.procs[Actor(s, a)]);
    match a
    case Ask(i) => AskMoves(s, i, k);
    case Choose(i) => ChooseFailures(s, i, k);
    case Settle(i) => SettleMoves(s, i, k);
    case _ =>
  }

  lemma ExpiryIsNoFailure(
      e: Pipeline.Env, history: seq<Failover.Event>, cand: Indexes.Candidate, w: Pipeline.Weather, k: Failover.CounterKey)
    ensures Pipeline.FailuresOf(Pipeline.Expired(e, history, cand, w), k) == Pipeline.FailuresOf(history, k)
  {
    Pipeline.FailuresAfter(e, history, cand, w, Pipeline.Busy, k);
    assert Pipeline.HistoryAfter(e, history, cand, w, Pipeline.Busy) == Pipeline.Expired(e, history, cand, w);
  }

  lemma SettledFailure(
      e: Pipeline.Env, history: seq<Failover.Event>, cand: Indexes.Candidate, w: Pipeline.Weather, v: Pipeline.Verdict,
      k: Failover.CounterKey)
    ensures Pipeline.FailuresOf(history + Pipeline.SettleEvents(e, cand, w, v), k) ==
            Pipeline.FailuresOf(history, k) + One(v.Failed? && Pipeline.KeyOf(e, cand) == k)
  {
    var events := Pipeline.SettleEvents(e, cand, w, v);
    if events != [] {
      Pipeline.FailuresSnoc(history, events[0], k);
    } else {
      assert history + events == history;
    }
  }

  lemma Step(s: State, a: Action)
    requires Inv(s) && Enabled(s, a)
    ensures Inv(Next(s, a))
  {
    ProcsStep(s, a);
    SlotsStep(s, a);
    forall k ensures Pipeline.FailuresOf(Next(s, a).history, k) == Failures(Next(s, a).procs, k) {
      FailuresStep(s, a, k);
    }
  }

  // ---- whole runs ----

  ghost predicate Happens(s: State, actions: seq<Action>)
    decreases |actions|
  {
    actions == [] || (Enabled(s, actions[0]) && Happens(Next(s, actions[0]), actions[1..]))
  }

  function Run(s: State, actions: seq<Action>): State
    requires Happens(s, actions)
    decreases |actions|
  {
    if actions == [] then s else Run(Next(s, actions[0]), actions[1..])
  }

  lemma {:induction false} RunKeepsInv(s: State, actions: seq<Action>)
    requires Inv(s) && Happens(s, actions)
    ensures Inv(Run(s, actions))
    decreases |actions|
  {
    if actions != [] {
      Step(s, actions[0]);
      RunKeepsInv(Next(s, actions[0]), actions[1..]);
    }
  }

  /** Slots are conserved over every interleaving: a provider's count is the number of requests that hold one of its
      slots, no zero is stored, and no count passes the largest limit any snapshot gave the provider. */
  lemma SlotsAreConserved(actions: seq<Action>)
    requires Happens(INITIAL, actions)
    ensures SlotsInv(Run(INITIAL, actions))
  {
    RunKeepsInv(INITIAL, actions);
  }

  /** When every request has been answered, no slot is taken. */
  lemma {:induction false} NoneHeld(procs: seq<Proc>, provider: string)
    requires forall i :: 0 <= i < |procs| ==> ProcInv(procs[i]) && procs[i].phase.Answered?
    ensures Held(procs, provider) == 0
  {
    if procs != [] {
      NoneHeld(procs[..|procs| - 1], provider);
      assert ProcInv(procs[|procs| - 1]);
    }
  }

  lemma NoSlotLeft(actions: seq<Action>)
    requires Happens(INITIAL, actions)
    requires forall i :: 0 <= i < |Run(INITIAL, actions).procs| ==> Run(INITIAL, actions).procs[i].phase.Answered?
    ensures Run(INITIAL, actions).inFlight == map[]
  {
    RunKeepsInv(INITIAL, actions);
    var s := Run(INITIAL, actions);
    forall p ensures p !in s.inFlight {
      NoneHeld(s.procs, p);
      assert Limiter.Count(s.inFlight, p) == 0;
    }
  }

  /** However requests interleave, an answered one has been answered once, as its own verdicts say; an unanswered one
      has had at most the head of the attempt it is committed to; and the failures counted for a pair are exactly
      the attempts on it, by any request, that wrote nothing. */
  lemma EveryRequestAnsweredOnce(actions: seq<Action>, i: nat)
    requires Happens(INITIAL, actions) && i < |Run(INITIAL, actions).procs|
    ensures
      var p := Run(INITIAL, actions).procs[i];
      && |p.heads| <= 1
      && (p.phase.Answered? ==> p.heads == [Pipeline.Answer(p.trail)])
      && (p.phase.Asking? || p.phase.Choosing? || p.phase.Calling? ==> p.heads == [])
      && |p.trail| <= |p.cands| == |p.ws| && TrailOf(p)
  {
    RunKeepsInv(INITIAL, actions);
    assert ProcInv(Run(INITIAL, actions).procs[i]);
  }

  lemma FailuresAreCounted(actions: seq<Action>, k: Failover.CounterKey)
    requires Happens(INITIAL, actions)
    ensures
      var s := Run(INITIAL, actions);
      && TrailsFit(s.procs)
      && Pipeline.FailuresOf(s.history, k) == Failures(s.procs, k)
  {
    RunKeepsInv(INITIAL, actions);
    var s := Run(INITIAL, actions);
    forall i | 0 <= i < |s.procs| ensures |s.procs[i].trail| <= |s.procs[i].cands| {
      assert ProcInv(s.procs[i]);
    }
  }

  // ---- the usage records of all requests ----

  /** How often an attempt stands for this usage record among what a request has recorded so far. */
  function LoggedBy(p: Proc, a: Usage.Attempt): nat {
    multiset(Pipeline.UsageAll(p.e, p.trail))[a] +
    if p.phase.Settling? then multiset(Pipeline.UsageOf(p.e, p.phase.v))[a] else 0
  }

  function Logged(procs: seq<Proc>, a: Usage.Attempt): nat {
    if procs == [] then 0 else Logged(procs[..|procs| - 1], a) + LoggedBy(procs[|procs| - 1], a)
  }

  lemma {:induction false} LoggedUpdate(procs: seq<Proc>, i: nat, p: Proc, a: Usage.Attempt)
    requires i < |procs|
    ensures Logged(procs[i := p], a) == Logged(procs, a) - LoggedBy(procs[i], a) + LoggedBy(p, a)
  {
    var front, after := procs[..|procs| - 1], procs[i := p];
    if i == |procs| - 1 {
      assert after[..|procs| - 1] == front;
    } else {
      LoggedUpdate(front, i, p, a);
      assert after[..|procs| - 1] == front[i := p];
    }
  }

  ghost predicate UsageInv(s: State) {
    forall a :: multiset(s.usage)[a] == Logged(s.procs, a)
  }

  lemma JudgedLogs(p: Proc, v: Pipeline.Verdict, a: Usage.Attempt)
    ensures LoggedBy(Judged(p, v), a) ==
            multiset(Pipeline.UsageAll(p.e, p.trail))[a] + multiset(Pipeline.UsageOf(p.e, v))[a]
  {
    assert (p.trail + [v])[..|p.trail|] == p.trail;
  }

  lemma SilentVerdict(e: Pipeline.Env, trail: seq<Pipeline.Verdict>, v: Pipeline.Verdict)
    requires !Pipeline.Attempted(v)
    ensures Pipeline.UsageAll(e, trail + [v]) == Pipeline.UsageAll(e, trail)
  {
    assert (trail + [v])[..|trail|] == trail;
  }

  lemma ChooseLogs(s: State, i: nat, x: Usage.Attempt)
    requires Enabled(s, Choose(i))
    ensures LoggedBy(Next(s, Choose(i)).procs[i], x) == LoggedBy(s.procs[i], x) && Next(s, Choose(i)).usage == s.usage
  {
    ChooseTrail(s, i);
    var p := s.procs[i];
    SilentVerdict(p.e, p.trail, Pipeline.Unroutable);
    SilentVerdict(p.e, p.trail, Pipeline.Untranslatable);
    SilentVerdict(p.e, p.trail, Pipeline.Busy);
  }

  /** The aggregate grows by what the acting request records. */
  lemma UsageMoves(s: State, a: Action, x: Usage.Attempt)
    requires Inv(s) && Enabled(s, a) && !a.Arrive?
    ensures
      var t, i := Next(s, a), Actor(s, a);
      && i < |s.procs| == |t.procs|
      && multiset(t.usage)[x] - multiset(s.usage)[x] == LoggedBy(t.procs[i], x) - LoggedBy(s.procs[i], x)
  {
    OthersUntouched(s, a);
    match a
    case Ask(i) => AskLogs(s, i, x);
    case Choose(i) => ChooseLogs(s, i, x);
    case Record(i) => RecordLogs(s, i, x);
    case Settle(i) => JudgedLogs(s.procs[i], s.procs[i].phase.v, x);
    case _ =>
  }

  lemma AskLogs(s: State, i: nat, x: Usage.Attempt)
    requires Enabled(s, Ask(i))
    ensures LoggedBy(Next(s, Ask(i)).procs[i], x) == LoggedBy(s.procs[i], x) && Next(s, Ask(i)).usage == s.usage
  {
    AskTrail(s, i);
    SilentVerdict(s.procs[i].e, s.procs[i].trail, Pipeline.Skipped);
  }

  lemma AskTrail(s: State, i: nat)
    requires Enabled(s, Ask(i))
    ensures
      var p, q := s.procs[i], Next(s, Ask(i)).procs[i];
      && q.e == p.e && !InCall(q) && Next(s, Ask(i)).usage == s.usage && Next(s, Ask(i)).sent == s.sent
      && (q.trail == p.trail || q.trail == p.trail + [Pipeline.Skipped])
  {
  }

  lemma RecordLogs(s: State, i: nat, x: Usage.Attempt)
    requires Enabled(s, Record(i))
    ensures
      var t := Next(s, Record(i));
      multiset(t.usage)[x] - multiset(s.usage)[x] == LoggedBy(t.procs[i], x) - LoggedBy(s.procs[i], x)
  {
  }

  lemma UsageStep(s: State, a: Action)
    requires Inv(s) && UsageInv(s) && Enabled(s, a)
    ensures UsageInv(Next(s, a))
  {
    var t, i := Next(s, a), Actor(s, a);
    forall x ensures multiset(t.usage)[x] == Logged(t.procs, x) {
      if a.Arrive? {
        assert t.procs[..|t.procs| - 1] == s.procs;
      } else {
        OthersUntouched(s, a);
        UsageMoves(s, a, x);
        LoggedUpdate(s.procs, i, t.procs[i], x);
      }
    }
  }

  lemma {:induction false} RunKeepsUsage(s: State, actions: seq<Action>)
    requires Inv(s) && UsageInv(s) && Happens(s, actions)
    ensures UsageInv(Run(s, actions))
    decreases |actions|
  {
    if actions != [] {
      Step(s, actions[0]);
      UsageStep(s, actions[0]);
      RunKeepsUsage(Next(s, actions[0]), actions[1..]);
    }
  }

  /** Over every interleaving the usage recorder has been given each recorded attempt of each request once, and
      nothing else; so its rows are the sums over the attempts of all requests. */
  lemma UsageIsEveryAttempt(actions: seq<Action>)
    requires Happens(INITIAL, actions)
    ensures UsageInv(Run(INITIAL, actions))
  {
    RunKeepsUsage(INITIAL, actions);
  }

  // ---- what all requests send ----

  predicate InCall(p: Proc) {
    p.phase.Calling? || p.phase.Ending? || p.phase.Recording? || p.phase.Settling?
  }

  /** What a request has sent so far. */
  function SentBy(p: Proc): seq<Pipeline.Sent> {
    var sofar := Pipeline.SentAll(p.e, p.trail);
    if InCall(p) && AtRoute(p) then sofar + [SentNow(p)] else sofar
  }

  function Postings(procs: seq<Proc>, x: Pipeline.Sent): nat {
    Lists.Tally((p: Proc) => PostedBy(p, x), procs)
  }

  function PostedBy(p: Proc, x: Pipeline.Sent): nat {
    multiset(SentBy(p))[x]
  }

  lemma PostedUpdate(procs: seq<Proc>, i: nat, p: Proc, x: Pipeline.Sent)
    requires i < |procs|
    ensures Postings(procs[i := p], x) == Postings(procs, x) - PostedBy(procs[i], x) + PostedBy(p, x)
  {
    Lists.TallyUpdate((q: Proc) => PostedBy(q, x), procs, i, p);
  }

  ghost predicate SentInv(s: State) {
    forall x :: multiset(s.sent)[x] == Postings(s.procs, x)
  }

  lemma SilentSend(e: Pipeline.Env, trail: seq<Pipeline.Verdict>, v: Pipeline.Verdict)
    ensures Pipeline.SentAll(e, trail + [v]) == Pipeline.SentAll(e, trail) + Pipeline.SentOf(e, v)
  {
    assert (trail + [v])[..|trail|] == trail;
  }

  /** What all have sent and what one has sent grow by the same. */
  ghost predicate GrowAlike(
      all: seq<Pipeline.Sent>, all': seq<Pipeline.Sent>, own: seq<Pipeline.Sent>, own': seq<Pipeline.Sent>)
  {
    exists more :: all' == all + more && own' == own + more
  }

  lemma NothingSent(all: seq<Pipeline.Sent>, own: seq<Pipeline.Sent>)
    ensures GrowAlike(all, all, own, own)
  {
    assert all == all + [] && own == own + [];
  }

  lemma GrowAlikeCounts(
      all: seq<Pipeline.Sent>, all': seq<Pipeline.Sent>, own: seq<Pipeline.Sent>, own': seq<Pipeline.Sent>,
      x: Pipeline.Sent)
    requires GrowAlike(all, all', own, own')
    ensures multiset(all')[x] - multiset(all)[x] == multiset(own')[x] - multiset(own)[x]
  {
    var more :| all' == all + more && own' == own + more;
    assert multiset(all') == multiset(all) + multiset(more);
    assert multiset(own') == multiset(own) + multiset(more);
  }

  lemma NoSend(e: Pipeline.Env, trail: seq<Pipeline.Verdict>, v: Pipeline.Verdict)
    requires !Pipeline.Attempted(v)
    ensures Pipeline.SentAll(e, trail + [v]) == Pipeline.SentAll(e, trail)
  {
    SilentSend(e, trail, v);
  }

  lemma AskSends(s: State, i: nat)
    requires Enabled(s, Ask(i))
    ensures Next(s, Ask(i)).sent == s.sent && SentBy(Next(s, Ask(i)).procs[i]) == SentBy(s.procs[i])
  {
    AskTrail(s, i);
    NoSend(s.procs[i].e, s.procs[i].trail, Pipeline.Skipped);
  }

  /** A candidate that is called is sent its body. */
  lemma CallSends(s: State, i: nat)
    requires Enabled(s, Choose(i)) && Next(s, Choose(i)).procs[i].phase.Calling?
    ensures AtRoute(s.procs[i])
    ensures
      var p, t := s.procs[i], Next(s, Choose(i));
      t.sent == s.sent + [SentNow(p)] && SentBy(t.procs[i]) == SentBy(p) + [SentNow(p)]
  {
  }

  lemma RefusedIsQuiet(s: State, i: nat)
    requires Enabled(s, Choose(i)) && !Next(s, Choose(i)).procs[i].phase.Calling?
    ensures Next(s, Choose(i)).sent == s.sent && !InCall(Next(s, Choose(i)).procs[i])
  {
  }

  lemma RefusedSends(s: State, i: nat)
    requires Enabled(s, Choose(i)) && !Next(s, Choose(i)).procs[i].phase.Calling?
    ensures Next(s, Choose(i)).sent == s.sent && SentBy(Next(s, Choose(i)).procs[i]) == SentBy(s.procs[i])
  {
    var p := s.procs[i];
    ChooseTrail(s, i);
    RefusedIsQuiet(s, i);
    NoSend(p.e, p.trail, Pipeline.Unroutable);
    NoSend(p.e, p.trail, Pipeline.Untranslatable);
    NoSend(p.e, p.trail, Pipeline.Busy);
  }

  /** The verdict in hand is settled: what was in the air is now part of the trail. */
  lemma SettleSends(s: State, i: nat)
    requires Enabled(s, Settle(i)) && ProcInv(s.procs[i])
    ensures Next(s, Settle(i)).sent == s.sent && SentBy(Next(s, Settle(i)).procs[i]) == SentBy(s.procs[i])
  {
    var p := s.procs[i];
    HandIsSent(p);
    JudgedSends(p, p.phase.v);
    assert Next(s, Settle(i)).procs[i] == Judged(p, p.phase.v);
  }

  lemma JudgedSends(p: Proc, v: Pipeline.Verdict)
    ensures SentBy(Judged(p, v)) == Pipeline.SentAll(p.e, p.trail) + Pipeline.SentOf(p.e, v)
  {
    SilentSend(p.e, p.trail, v);
  }

  lemma HandIsSent(p: Proc)
    requires ProcInv(p) && p.phase.Settling?
    ensures Pipeline.SentOf(p.e, p.phase.v) == [SentNow(p)]
  {
  }

  lemma OthersSendNothing(s: State, a: Action)
    requires Enabled(s, a) && (a.Finish? || a.Release? || a.Record? || a.GiveUp?)
    requires ProcInv(s.procs[a.i])
    ensures a.i < |Next(s, a).procs|
    ensures Next(s, a).sent == s.sent && SentBy(Next(s, a).procs[a.i]) == SentBy(s.procs[a.i])
  {
  }

  lemma SendMoves(s: State, a: Action)
    requires Inv(s) && Enabled(s, a) && !a.Arrive?
    ensures Actor(s, a) < |s.procs| == |Next(s, a).procs|
    ensures GrowAlike(s.sent, Next(s, a).sent, SentBy(s.procs[Actor(s, a)]), SentBy(Next(s, a).procs[Actor(s, a)]))
  {
    OthersUntouched(s, a);
    var i := Actor(s, a);
    assert ProcInv(s.procs[i]);
    NothingSent(s.sent, SentBy(s.procs[i]));
    if a.Ask? {
      AskSends(s, i);
    } else if a.Choose? {
      if Next(s, a).procs[i].phase.Calling? {
        CallSends(s, i);
      } else {
        RefusedSends(s, i);
      }
    } else if a.Settle? {
      SettleSends(s, i);
    } else {
      OthersSendNothing(s, a);
    }
  }

  lemma SentStep(s: State, a: Action)
    requires Inv(s) && SentInv(s) && Enabled(s, a)
    ensures SentInv(Next(s, a))
  {
    var t, i := Next(s, a), Actor(s, a);
    if a.Arrive? {
      assert t.procs[..|t.procs| - 1] == s.procs;
    } else {
      forall x ensures multiset(t.sent)[x] == Postings(t.procs, x) {
        SentStepOf(s, a, x);
      }
    }
  }

  lemma SentStepOf(s: State, a: Action, x: Pipeline.Sent)
    requires Inv(s) && Enabled(s, a) && !a.Arrive? && multiset(s.sent)[x] == Postings(s.procs, x)
    ensures multiset(Next(s, a).sent)[x] == Postings(Next(s, a).procs, x)
  {
    var t, i := Next(s, a), Actor(s, a);
    OthersUntouched(s, a);
    SendMoves(s, a);
    PostedUpdate(s.procs, i, t.procs[i], x);
    GrowAlikeCounts(s.sent, t.sent, SentBy(s.procs[i]), SentBy(t.procs[i]), x);
  }

  lemma {:induction false} RunKeepsSent(s: State, actions: seq<Action>)
    requires Inv(s) && SentInv(s) && Happens(s, actions)
    ensures SentInv(Run(s, actions))
    decreases |actions|
  {
    if actions != [] {
      Step(s, actions[0]);
      SentStep(s, actions[0]);
      RunKeepsSent(Next(s, actions[0]), actions[1..]);
    }
  }

  /** Over every interleaving, what has gone out is what each request has sent for its own candidates, and nothing
      else. */
  lemma SentIsEveryAttempt(actions: seq<Action>)
    requires Happens(INITIAL, actions)
    ensures SentInv(Run(INITIAL, actions))
  {
    RunKeepsSent(INITIAL, actions);
  }
}
