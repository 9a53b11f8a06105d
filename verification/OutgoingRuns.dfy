/** What goes out over every interleaving of requests. */
module OutgoingRuns {
  import opened Wrappers
  import Lists
  import Indexes
  import Pipeline
  import opened Requests
  import Outgoing

  /** The thing is what this request posts to its candidate `j`. */
  ghost predicate PostedTo(p: Proc, j: int, x: Pipeline.Sent) {
    && 0 <= j < |p.cands| && Pipeline.RouteOf(p.e, p.cands[j]).Some?
    && var route := Pipeline.RouteOf(p.e, p.cands[j]).value;
       Pipeline.Outbound(p.e, route).Some? && x == Pipeline.Posted(route, Pipeline.Outbound(p.e, route).value)
  }

  lemma PostedIsSent(p: Proc, x: Pipeline.Sent)
    requires PostedBy(p, x) > 0
    ensures x in SentBy(p)
  {
    var sent := SentBy(p);
    assert x in multiset(sent);
  }

  lemma SenderOf(procs: seq<Proc>, x: Pipeline.Sent) returns (i: nat)
    requires Postings(procs, x) > 0
    ensures i < |procs| && PostedBy(procs[i], x) > 0
  {
    i := Lists.TallyPositive((p: Proc) => PostedBy(p, x), procs);
  }

  lemma VerdictPosts(p: Proc, j: nat, v: Pipeline.Verdict, x: Pipeline.Sent)
    requires j < |p.cands| == |p.ws| && Possible(p, j, v) && x in Pipeline.SentOf(p.e, v)
    ensures PostedTo(p, j, x)
  {
    var inFlight :| v == Pipeline.JudgeRoute(p.e, inFlight, "", p.cands[j], p.ws[j]);
    Outgoing.AttemptPosts(p.e, inFlight, "", p.cands[j], p.ws[j], v);
  }

  lemma {:induction false} TrailPosts(p: Proc, n: nat, x: Pipeline.Sent) returns (j: nat)
    requires n <= |p.trail| <= |p.cands| == |p.ws| && TrailOf(p)
    requires x in Pipeline.SentAll(p.e, p.trail[..n])
    ensures PostedTo(p, j, x)
  {
    var front := p.trail[..n];
    assert front[..n - 1] == p.trail[..n - 1] && front[n - 1] == p.trail[n - 1];
    if x in Pipeline.SentOf(p.e, p.trail[n - 1]) {
      j := n - 1;
      assert Possible(p, j, p.trail[j]);
      VerdictPosts(p, j, p.trail[j], x);
    } else {
      j := TrailPosts(p, n - 1, x);
    }
  }

  /** A request sends to its own candidates. */
  lemma RequestPosts(p: Proc, x: Pipeline.Sent) returns (j: nat)
    requires ProcInv(p) && x in SentBy(p)
    ensures PostedTo(p, j, x)
  {
    if InCall(p) && AtRoute(p) && x == SentNow(p) {
      j := |p.trail|;
    } else {
      assert p.trail[..|p.trail|] == p.trail;
      j := TrailPosts(p, |p.trail|, x);
    }
  }

  /** Over every interleaving of requests with any snapshots: whatever goes out is sent for a candidate of some request,
      to that model's provider, made from that request's own body, and asking for that candidate's upstream model. */
  lemma EverythingSentAsksForItsModel(
      actions: seq<Action>, r: Outgoing.Reader, rulesOf: Pipeline.Env -> Outgoing.Rules, x: Pipeline.Sent)
    returns (i: nat, j: nat)
    requires Happens(INITIAL, actions) && x in Run(INITIAL, actions).sent
    requires forall p :: p in Run(INITIAL, actions).procs ==> Outgoing.Setting(p.e, r, rulesOf(p.e))
    ensures
      var procs := Run(INITIAL, actions).procs;
      && i < |procs| && j < |procs[i].cands|
      && Outgoing.SentFor(procs[i].e, r, rulesOf(procs[i].e), procs[i].cands[j], x)
  {
    var s := Run(INITIAL, actions);
    RunKeepsInv(INITIAL, actions);
    SentIsEveryAttempt(actions);
    assert multiset(s.sent)[x] > 0;
    i := SenderOf(s.procs, x);
    PostedIsSent(s.procs[i], x);
    var p := s.procs[i];
    assert ProcInv(p) && p in s.procs;
    j := RequestPosts(p, x);
    Outgoing.RouteSends(p.e, r, rulesOf(p.e), p.cands[j]);
  }
}
