/**
 * What a cluster can still do: the states that further events of some chosen nodes reach. A
 * state is named by itself here, not by the events before it.
 */
module RaftPlay {
  import opened RaftTypes
  import opened RaftSystem
  import opened RaftInvariant
  import opened RaftSafety

  /** The state after events, from s on. */
  function Play(s: System, events: seq<Event>): System {
    if events == [] then s else Step(Play(s, events[..|events| - 1]), events[|events| - 1])
  }

  lemma {:induction false} PlayMore(s: System, a: seq<Event>, b: seq<Event>)
    ensures Play(s, a + b) == Play(Play(s, a), b)
    decreases |b|
  {
    if b == [] {
      assert a + b == a;
    } else {
      var init := b[..|b| - 1];
      assert (a + b)[..|a + b| - 1] == a + init;
      PlayMore(s, a, init);
    }
  }

  lemma {:induction false} RunPlays(peers: nat, a: seq<Event>, b: seq<Event>)
    ensures Run(peers, a + b) == Play(Run(peers, a), b)
    decreases |b|
  {
    if b == [] {
      assert a + b == a;
    } else {
      var init := b[..|b| - 1];
      assert (a + b)[..|a + b| - 1] == a + init;
      RunPlays(peers, a, init);
    }
  }

  /** Only the members take part. */
  ghost predicate By(events: seq<Event>, members: set<nat>) {
    forall i :: 0 <= i < |events| ==> events[i].n in members
  }

  ghost predicate Reaches(s: System, members: set<nat>, s2: System) {
    exists events :: By(events, members) && Play(s, events) == s2
  }

  lemma ReachesSelf(s: System, members: set<nat>)
    ensures Reaches(s, members, s)
  {
    assert By([], members) && Play(s, []) == s;
  }

  lemma ReachesTrans(s: System, members: set<nat>, s1: System, s2: System)
    requires Reaches(s, members, s1) && Reaches(s1, members, s2)
    ensures Reaches(s, members, s2)
  {
    var a :| By(a, members) && Play(s, a) == s1;
    var b :| By(b, members) && Play(s1, b) == s2;
    PlayMore(s, a, b);
    assert By(a + b, members);
  }

  lemma StepReaches(s: System, members: set<nat>, e: Event)
    requires e.n in members
    ensures Reaches(s, members, Step(s, e))
  {
    assert [e][..0] == [];
    assert Play(s, [e]) == Step(s, e) && By([e], members);
  }

  /** s is a state of some run over that many nodes. */
  ghost predicate Reachable(peers: nat, s: System) {
    |s.nodes| == peers && exists events :: Run(peers, events) == s
  }

  lemma ReachableOn(peers: nat, s: System, members: set<nat>, s2: System)
    requires Reachable(peers, s) && Reaches(s, members, s2)
    ensures Reachable(peers, s2)
  {
    var a :| Run(peers, a) == s;
    var b :| By(b, members) && Play(s, b) == s2;
    RunPlays(peers, a, b);
    NodeCountFixed(peers, a + b);
  }

  /** The nodes of a run keep their names and their shape. */
  ghost predicate Formed(peers: nat, s: System) {
    |s.nodes| == peers && forall i: nat :: i < peers ==> FormedAt(peers, i, s.nodes[i])
  }

  ghost predicate FormedAt(peers: nat, i: nat, nd: Node) {
    nd.me == i && nd.peers == peers && Shaped(nd) && nd.snapshot <= nd.applied <= nd.commit <= |nd.log|
    && nd.delivered == nd.log[..nd.applied] && nd.nextCtx >= 1
  }

  lemma ReachableFormed(peers: nat, s: System)
    requires Reachable(peers, s)
    ensures Formed(peers, s)
  {
    var events :| Run(peers, events) == s;
    var h := RunInv(peers, events);
    forall i: nat | i < peers ensures FormedAt(peers, i, s.nodes[i]) {
      assert NodeOK(h, i, s.nodes[i], peers);
    }
  }

  lemma NodeIs(peers: nat, s: System, i: nat)
    requires Reachable(peers, s) && i < peers
    ensures FormedAt(peers, i, s.nodes[i])
  {
    ReachableFormed(peers, s);
  }

  /** What a continuation keeps: it was made by the members, and is part of a run. */
  ghost predicate Goes(peers: nat, s: System, members: set<nat>, s2: System) {
    Reachable(peers, s2) && Reaches(s, members, s2)
  }

  lemma GoesTrans(peers: nat, s: System, members: set<nat>, s1: System, s2: System)
    requires Goes(peers, s, members, s1) && Goes(peers, s1, members, s2)
    ensures Goes(peers, s, members, s2)
  {
    ReachesTrans(s, members, s1, s2);
  }

  lemma GoesSelf(peers: nat, s: System, members: set<nat>)
    requires Reachable(peers, s)
    ensures Goes(peers, s, members, s)
  {
    ReachesSelf(s, members);
  }

  /** One event of a member. */
  lemma Act(peers: nat, s: System, members: set<nat>, e: Event) returns (s2: System)
    requires Reachable(peers, s) && e.n in members && e.n < peers && (e.Deliver? ==> e.m in s.net)
    ensures FormedAt(peers, e.n, s.nodes[e.n]) && Goes(peers, s, members, s2)
    ensures s2.nodes == s.nodes[e.n := NodeStep(s.nodes[e.n], e).0]
    ensures s2.net == s.net + NodeStep(s.nodes[e.n], e).1
  {
    NodeIs(peers, s, e.n);
    s2 := Step(s, e);
    StepReaches(s, members, e);
    ReachableOn(peers, s, members, s2);
  }

  /** A request is delivered, and then its answer. */
  lemma Ask(peers: nat, s: System, members: set<nat>, c: nat, v: nat, req: Msg, resp: Msg) returns (s2: System)
    requires Reachable(peers, s) && c in members && v in members && c != v && c < peers && v < peers
    requires FormedAt(peers, c, s.nodes[c]) && FormedAt(peers, v, s.nodes[v])
    requires req in s.net && req.dst == v && resp.dst == c && Receive(s.nodes[v], req).1 == {resp}
    ensures Goes(peers, s, members, s2)
    ensures s2.nodes == s.nodes[v := Receive(s.nodes[v], req).0][c := Receive(s.nodes[c], resp).0]
    ensures s2.net >= s.net && resp in s2.net
  {
    var s1 := Act(peers, s, members, Deliver(v, req));
    NodeIs(peers, s1, c);
    s2 := Act(peers, s1, members, Deliver(c, resp));
    GoesTrans(peers, s, members, s1, s2);
  }

  /** One element goes from those to come to those done. */
  lemma MovedOver(done: set<nat>, todo: set<nat>, v: nat)
    requires v in todo
    ensures (done + {v}) + (todo - {v}) == done + todo && |todo - {v}| < |todo|
  {
  }
}
