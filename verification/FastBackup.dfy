/**
 * The leader finding where a follower's log matches its own: rejections of one
 * outstanding AppendEntries after another, while the follower's log stays as it is.
 */
module FastBackup {
  import opened RaftTypes
  import opened RaftRules
  import opened RaftSystem
  import opened RaftInvariant
  import opened RaftSafety
  import opened OrderStatistics
  import opened RaftSteps

  /** The follower's log, compacted up to snap, would reject a message sent from next. */
  predicate Rejects(log: Log, own: Log, snap: nat, next: nat)
    requires 1 <= next <= |own| + 1
  {
    next - 1 > |log| || (next - 1 >= snap && TermAt(log, next - 1) != TermAt(own, next - 1))
  }

  /** The hint of the rejection, and where the leader sends from next. */
  function NextSend(log: Log, own: Log, snap: nat, matched: nat, next: nat): (r: nat)
    requires 1 <= next <= |own| + 1 && Rejects(log, own, snap, next)
  {
    var prev := next - 1;
    var hint := if prev > |log| then |log| + 1
                else Max(ConflictStart(log, prev, TermAt(log, prev)), snap + 1);
    Max(hint, matched + 1)
  }

  /** What the two logs are known to share: what the follower confirmed, and the compacted prefix. */
  ghost predicate Aligned(log: Log, own: Log, snap: nat, matched: nat) {
    Has(log, own, matched) && Has(log, own, snap) && TermsOrdered(log)
  }

  ghost predicate TermsOrdered(log: Log) {
    forall i, j :: 0 <= i <= j < |log| ==> log[i].term <= log[j].term
  }

  lemma {:induction false} ConflictRun(log: Log, f: nat, term: nat)
    requires 1 <= f <= |log| && TermAt(log, f) == term
    ensures var g := ConflictStart(log, f, term);
      1 <= g <= f && TermAt(log, g) == term && (g == 1 || TermAt(log, g - 1) != term)
    decreases f
  {
    if f > 1 && TermAt(log, f - 1) == term { ConflictRun(log, f - 1, term); }
  }

  lemma SharedTerm(log: Log, own: Log, n: nat, i: nat)
    requires Has(log, own, n) && i <= n
    ensures TermAt(log, i) == TermAt(own, i)
  {
    assert i > 0 ==> log[..n][i - 1] == own[..n][i - 1];
  }

  /** Every rejection strictly lowers the point the leader sends from. */
  lemma LowersNext(log: Log, own: Log, snap: nat, matched: nat, next: nat)
    requires Aligned(log, own, snap, matched) && 1 <= next <= |own| + 1 && Rejects(log, own, snap, next)
    ensures matched + 1 <= NextSend(log, own, snap, matched, next) < next
    ensures snap + 1 <= NextSend(log, own, snap, matched, next)
  {
    var prev := next - 1;
    if prev <= |log| {
      if prev <= snap { SharedTerm(log, own, snap, prev); }
      if prev <= matched { SharedTerm(log, own, matched, prev); }
      ConflictRun(log, prev, TermAt(log, prev));
    }
  }

  ghost function DistinctTerms(log: Log): set<nat> {
    set i | 0 <= i < |log| :: log[i].term
  }

  /** The rejections until acceptance. */
  ghost function Rejections(log: Log, own: Log, snap: nat, matched: nat, next: nat): nat
    requires Aligned(log, own, snap, matched) && 1 <= next <= |own| + 1
    decreases next
  {
    if Rejects(log, own, snap, next) then
      LowersNext(log, own, snap, matched, next);
      1 + Rejections(log, own, snap, matched, NextSend(log, own, snap, matched, next))
    else 0
  }

  /** Once the sent point is inside the follower's log, each rejection skips a whole term. */
  lemma {:induction false} RejectionsInside(log: Log, own: Log, snap: nat, matched: nat, next: nat)
    requires Aligned(log, own, snap, matched) && 1 <= next <= |own| + 1 && next - 1 <= |log|
    ensures Rejections(log, own, snap, matched, next) <= |DistinctTerms(log[..next - 1])|
    decreases next
  {
    if Rejects(log, own, snap, next) {
      var prev := next - 1;
      LowersNext(log, own, snap, matched, next);
      var next2 := NextSend(log, own, snap, matched, next);
      RejectionsInside(log, own, snap, matched, next2);
      ConflictRun(log, prev, TermAt(log, prev));
      var g := ConflictStart(log, prev, TermAt(log, prev));
      if next2 == g {
        TermLeftBehind(log, prev, g);
      } else if next2 == matched + 1 {
        SharedTerm(log, own, matched, matched);
        OneTermLeft(log, prev);
      } else {
        SharedTerm(log, own, snap, snap);
        OneTermLeft(log, prev);
      }
    }
  }

  lemma OneTermLeft(log: Log, prev: nat)
    requires 0 < prev <= |log|
    ensures |DistinctTerms(log[..prev])| >= 1
  {
    assert log[..prev][0].term in DistinctTerms(log[..prev]);
  }

  lemma TermLeftBehind(log: Log, prev: nat, g: nat)
    requires TermsOrdered(log) && 1 <= g <= prev <= |log| && TermAt(log, g) == TermAt(log, prev)
    requires g == 1 || TermAt(log, g - 1) != TermAt(log, prev)
    ensures |DistinctTerms(log[..g - 1])| + 1 <= |DistinctTerms(log[..prev])|
  {
    var small, big, t := DistinctTerms(log[..g - 1]), DistinctTerms(log[..prev]), TermAt(log, prev);
    assert log[..prev][prev - 1].term == t;
    forall x | x in small ensures x in big && x != t {
      var i :| 0 <= i < g - 1 && log[..g - 1][i].term == x;
      assert log[..prev][i].term == x;
      assert log[i].term <= log[g - 2].term <= log[prev - 1].term;
    }
    SubsetSize(small + {t}, big);
    assert |small + {t}| == |small| + 1;
  }

  /** At most one rejection for a log that is too short, and one per distinct term in it. */
  lemma BoundedByTerms(log: Log, own: Log, snap: nat, matched: nat, next: nat)
    requires Aligned(log, own, snap, matched) && 1 <= next <= |own| + 1
    ensures Rejections(log, own, snap, matched, next) <= |DistinctTerms(log)| + 1
  {
    if next - 1 > |log| {
      LowersNext(log, own, snap, matched, next);
      RejectionsInside(log, own, snap, matched, |log| + 1);
      assert log[..|log|] == log;
    } else {
      RejectionsInside(log, own, snap, matched, next);
      DistinctInPrefix(log, next - 1);
    }
  }

  lemma DistinctInPrefix(log: Log, n: nat)
    requires n <= |log|
    ensures |DistinctTerms(log[..n])| <= |DistinctTerms(log)|
  {
    forall x | x in DistinctTerms(log[..n]) ensures x in DistinctTerms(log) {
      var i :| 0 <= i < n && log[..n][i].term == x;
      assert log[i].term == x;
    }
    SubsetSize(DistinctTerms(log[..n]), DistinctTerms(log));
  }

  /**
   * Rejects and NextSend are the follower's handler and the leader's reply handling: the
   * follower (at most in the leader's term) rejects exactly then, and the leader, on that
   * reply, moves next to exactly there and nothing else.
   */
  lemma BackupIsTheHandlers(fol: Node, lead: Node, next: nat, entries: Log)
    requires lead.role == Leader && fol.me < lead.peers && |lead.next| == |lead.matched| == lead.peers
    requires fol.term <= lead.term && 1 <= next <= |lead.log| + 1 && fol.snapshot <= |fol.log|
    ensures var reply := HandleAppend(fol, lead.term, next - 1, TermAt(lead.log, next - 1), entries, lead.commit, 0).1;
      reply.success == !Rejects(fol.log, lead.log, fol.snapshot, next)
      && (!reply.success ==>
            OnAppendReply(lead, fol.me, lead.term, next - 1, |entries|, reply.term, false, reply.nextIndex, 0)
            == lead.(next := lead.next[fol.me :=
                                       NextSend(fol.log, lead.log, fol.snapshot, lead.matched[fol.me], next)]))
  {
  }

  // -------------------------------------------------------------- every run

  /** Node a leads, and node b is in no later term. */
  ghost predicate Faces(s: System, a: nat, b: nat) {
    a < |s.nodes| && b < |s.nodes| && s.nodes[a].role == Leader && s.nodes[b].term <= s.nodes[a].term
    && |s.nodes[a].matched| == |s.nodes|
  }

  lemma HasLess(log: Log, own: Log, n: nat, m: nat)
    requires Has(log, own, n) && m <= n
    ensures Has(log, own, m)
  {
    assert log[..m] == log[..n][..m] && own[..m] == own[..n][..m];
  }

  lemma MatchedIsShared(h: History, a: nat, b: nat, na: Node, nb: Node, peers: nat)
    requires NodeOK(h, a, na, peers) && NodeOK(h, b, nb, peers) && b < peers
    requires na.role == Leader && nb.term <= na.term
    ensures Has(nb.log, na.log, na.matched[b])
  {
    if nb.term == na.term {
      HasLess(nb.log, na.log, Acked(h, b, na.term), na.matched[b]);
    } else {
      assert (b, na.term) !in h.acked;
      assert na.matched[b] == 0;
    }
  }

  /** In every run the logs share what the follower confirmed and what it compacted. */
  lemma AlignedInRun(peers: nat, events: seq<Event>, a: nat, b: nat)
    requires Faces(Run(peers, events), a, b)
    ensures var fol, lead := Run(peers, events).nodes[b], Run(peers, events).nodes[a];
      Aligned(fol.log, lead.log, fol.snapshot, lead.matched[b])
  {
    var s := Run(peers, events);
    var h := RunInv(peers, events);
    var na, nb := s.nodes[a], s.nodes[b];
    assert NodeOK(h, a, na, peers) && NodeOK(h, b, nb, peers);
    MatchedIsShared(h, a, b, na, nb, peers);
    SnapshotShared(h, Terms(s.nodes), nb, na.term);
  }

  /**
   * For any leader and any follower of any run: every rejection strictly lowers the point the
   * leader sends from, and never below what is known to match.
   */
  lemma RejectionLowersNext(peers: nat, events: seq<Event>, a: nat, b: nat, next: nat)
    requires Faces(Run(peers, events), a, b) && 1 <= next <= |Run(peers, events).nodes[a].log| + 1
    requires var fol, lead := Run(peers, events).nodes[b], Run(peers, events).nodes[a];
      Rejects(fol.log, lead.log, fol.snapshot, next)
    ensures var fol, lead := Run(peers, events).nodes[b], Run(peers, events).nodes[a];
      Max(fol.snapshot, lead.matched[b]) < NextSend(fol.log, lead.log, fol.snapshot, lead.matched[b], next) < next
  {
    var fol, lead := Run(peers, events).nodes[b], Run(peers, events).nodes[a];
    AlignedInRun(peers, events, a, b);
    LowersNext(fol.log, lead.log, fol.snapshot, lead.matched[b], next);
  }

  /**
   * And while the follower's log stays as it is, the rejections before the leader's entries are
   * accepted, or the leader comes to its own snapshot, number at most the distinct terms in the
   * follower's log, and one.
   */
  lemma RejectionsBounded(peers: nat, events: seq<Event>, a: nat, b: nat, next: nat)
    requires Faces(Run(peers, events), a, b) && 1 <= next <= |Run(peers, events).nodes[a].log| + 1
    ensures var fol, lead := Run(peers, events).nodes[b], Run(peers, events).nodes[a];
      && Aligned(fol.log, lead.log, fol.snapshot, lead.matched[b])
      && Rejections(fol.log, lead.log, fol.snapshot, lead.matched[b], next) <= |DistinctTerms(fol.log)| + 1
  {
    var fol, lead := Run(peers, events).nodes[b], Run(peers, events).nodes[a];
    AlignedInRun(peers, events, a, b);
    BoundedByTerms(fol.log, lead.log, fol.snapshot, lead.matched[b], next);
  }
}
