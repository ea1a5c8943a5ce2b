/**
 * Group commit of the raft state: callers register a version and wait; one flusher writes the
 * newest registered version with the lock released, and then lets everyone go whose version
 * it covered.
 */
module GroupCommit {
  import opened Wrappers

  /** The flusher waits, or writes a version, or has written one it has not announced yet. */
  datatype Flusher<B> = Waiting | Writing(blob: B, version: nat) | Written(version: nat)

  /**
   * history[v] is the state registered as version v, and history[0] what was on disk at first;
   * onDisk is the version the file holds.
   */
  datatype Node<B> = Node(version: nat, synced: nat, dirty: bool, pending: Option<B>, flusher: Flusher<B>, killed: bool,
                          file: B, waiters: set<nat>, history: seq<B>, onDisk: nat)

  datatype Step<B> = Persist(blob: B) | Take | Write | Announce | Return(version: nat) | Kill

  ghost predicate Enabled<B(!new)>(n: Node<B>, step: Step<B>) {
    match step
    case Persist(_) => true
    case Take => n.flusher.Waiting? && n.dirty && !n.killed && n.pending.Some?
    case Write => n.flusher.Writing?
    case Announce => n.flusher.Written?
    case Return(v) => v in n.waiters && (n.killed || n.synced >= v)
    case Kill => true
  }

  ghost function Next<B(!new)>(n: Node<B>, step: Step<B>): Node<B>
    requires Enabled(n, step)
  {
    match step
    case Persist(blob) =>
      n.(pending := Some(blob), version := n.version + 1, dirty := true,
         waiters := n.waiters + {n.version + 1}, history := n.history + [blob])
    case Take => n.(pending := None, flusher := Writing(n.pending.value, n.version), dirty := false)
    case Write => n.(file := n.flusher.blob, onDisk := n.flusher.version, flusher := Written(n.flusher.version))
    case Announce =>
      n.(synced := if n.flusher.version > n.synced then n.flusher.version else n.synced, flusher := Waiting)
    case Return(v) => n.(waiters := n.waiters - {v})
    case Kill => n.(killed := true)
  }

  // ---------------------------------------------------------- the invariant

  ghost predicate Inv<B(!new)>(n: Node<B>) {
    && |n.history| == n.version + 1
    && n.synced <= n.onDisk <= n.version
    && n.file == n.history[n.onDisk]
    && (n.dirty ==> n.pending == Some(n.history[n.version]))
    && (forall v :: v in n.waiters ==> 1 <= v <= n.version)
    && FlusherFits(n)
  }

  /** What the flusher holds is between the disk and the newest version; without it, all is written. */
  ghost predicate FlusherFits<B(!new)>(n: Node<B>) {
    match n.flusher
    case Waiting => n.synced == n.onDisk && (!n.dirty ==> n.onDisk == n.version)
    case Writing(blob, v) =>
      n.onDisk <= v <= n.version && v < |n.history| && blob == n.history[v] && (!n.dirty ==> v == n.version)
    case Written(v) => v == n.onDisk && (!n.dirty ==> v == n.version)
  }

  ghost predicate Fresh<B(!new)>(n: Node<B>) {
    n == Node(0, 0, false, None, Waiting, false, n.file, {}, [n.file], 0)
  }

  lemma StepKeeps<B(!new)>(n: Node<B>, step: Step<B>)
    requires Inv(n) && Enabled(n, step)
    ensures Inv(Next(n, step)) && n.onDisk <= Next(n, step).onDisk && n.history <= Next(n, step).history
  {
  }

  // ------------------------------------------------------------- every run

  ghost predicate RunAt<B(!new)>(run: seq<Node<B>>, steps: seq<Step<B>>, i: nat) {
    i < |steps| && i + 1 < |run| ==> Enabled(run[i], steps[i]) && run[i + 1] == Next(run[i], steps[i])
  }

  ghost predicate IsRun<B(!new)>(run: seq<Node<B>>, steps: seq<Step<B>>) {
    |run| == |steps| + 1 && Fresh(run[0]) && forall i: nat :: RunAt(run, steps, i)
  }

  lemma {:induction false} RunKeeps<B(!new)>(run: seq<Node<B>>, steps: seq<Step<B>>, n: nat)
    requires IsRun(run, steps) && n < |run|
    ensures Inv(run[n])
  {
    if n > 0 {
      RunKeeps(run, steps, n - 1);
      assert RunAt(run, steps, n - 1);
      StepKeeps(run[n - 1], steps[n - 1]);
    }
  }

  /** What a version on disk stands for never changes, and the disk never goes back to an older one. */
  lemma {:induction false} DiskGoesForward<B(!new)>(run: seq<Node<B>>, steps: seq<Step<B>>, m: nat, n: nat)
    requires IsRun(run, steps) && m <= n < |run|
    ensures run[m].onDisk <= run[n].onDisk && run[m].history <= run[n].history
    decreases n
  {
    if m < n {
      DiskGoesForward(run, steps, m, n - 1);
      RunKeeps(run, steps, n - 1);
      assert RunAt(run, steps, n - 1);
      StepKeeps(run[n - 1], steps[n - 1]);
    }
  }

  /**
   * A caller whose version v came back, in a node that was not killed, finds a version on disk
   * that is v or newer, from that moment on.
   */
  lemma ReturnedIsDurable<B(!new)>(run: seq<Node<B>>, steps: seq<Step<B>>, at: nat, v: nat, later: nat)
    requires IsRun(run, steps) && at < |steps| && steps[at] == Return(v) && !run[at].killed
    requires at <= later < |run|
    ensures v <= run[later].onDisk < |run[later].history| && run[later].file == run[later].history[run[later].onDisk]
    ensures v < |run[at].history| && run[later].history[v] == run[at].history[v]
  {
    RunKeeps(run, steps, at);
    RunKeeps(run, steps, later);
    assert RunAt(run, steps, at);
    DiskGoesForward(run, steps, at, later);
  }

  /** The version a caller waits for is the state it registered. */
  lemma RegisteredIsWaitedFor<B(!new)>(run: seq<Node<B>>, steps: seq<Step<B>>, at: nat, blob: B, later: nat)
    requires IsRun(run, steps) && at < |steps| && steps[at] == Persist(blob) && at < later < |run|
    ensures var v := run[at].version + 1;
      v in run[at + 1].waiters && v < |run[later].history| && run[later].history[v] == blob
  {
    RunKeeps(run, steps, at);
    assert RunAt(run, steps, at);
    DiskGoesForward(run, steps, at + 1, later);
  }

  /** No one is left waiting for nothing: who may not return yet has the flusher at work, or called. */
  lemma NobodyIsForgotten<B(!new)>(run: seq<Node<B>>, steps: seq<Step<B>>, n: nat, v: nat)
    requires IsRun(run, steps) && n < |run| && v in run[n].waiters && !Enabled(run[n], Return(v))
    ensures Enabled(run[n], Take) || Enabled(run[n], Write) || Enabled(run[n], Announce)
  {
    RunKeeps(run, steps, n);
  }

  /** The flusher alone takes these steps, from n to m. */
  ghost predicate Flushes<B(!new)>(n: Node<B>, steps: seq<Step<B>>, m: Node<B>)
    decreases |steps|
  {
    if steps == [] then m == n
    else
      (steps[0] == Take || steps[0] == Write || steps[0] == Announce)
      && Enabled(n, steps[0]) && Flushes(Next(n, steps[0]), steps[1..], m)
  }

  lemma {:induction false} FlushesOn<B(!new)>(n: Node<B>, a: seq<Step<B>>, m: Node<B>, b: seq<Step<B>>, p: Node<B>)
    requires Flushes(n, a, m) && Flushes(m, b, p)
    ensures Flushes(n, a + b, p)
    decreases |a|
  {
    if a == [] {
      assert a + b == b;
    } else {
      assert (a + b)[1..] == a[1..] + b;
      FlushesOn(Next(n, a[0]), a[1..], m, b, p);
    }
  }

  lemma OneFlush<B(!new)>(n: Node<B>, step: Step<B>)
    requires Inv(n) && Enabled(n, step) && (step == Take || step == Write || step == Announce)
    ensures Flushes(n, [step], Next(n, step)) && Inv(Next(n, step))
  {
    StepKeeps(n, step);
    assert [step][1..] == [];
  }

  /** The flusher finishes what it is at, in at most two steps. */
  lemma Finish<B(!new)>(n: Node<B>) returns (steps: seq<Step<B>>, m: Node<B>)
    requires Inv(n) && !n.killed
    ensures Flushes(n, steps, m) && |steps| <= 2
    ensures Inv(m) && m.flusher.Waiting? && !m.killed && m.waiters == n.waiters && m.history == n.history
  {
    steps, m := [], n;
    if m.flusher.Writing? {
      OneFlush(m, Write);
      steps, m := [Write], Next(m, Write);
    }
    if m.flusher.Written? {
      OneFlush(m, Announce);
      FlushesOn(n, steps, m, [Announce], Next(m, Announce));
      steps, m := steps + [Announce], Next(m, Announce);
    }
  }

  /** One write of the newest version. */
  lemma Flush<B(!new)>(n: Node<B>) returns (steps: seq<Step<B>>, m: Node<B>)
    requires Inv(n) && n.flusher.Waiting? && n.dirty && !n.killed
    ensures Flushes(n, steps, m) && |steps| == 3
    ensures Inv(m) && m.synced == m.onDisk == m.version && m.waiters == n.waiters && m.history == n.history
  {
    var n1, n2 := Next(n, Take), Next(Next(n, Take), Write);
    m := Next(n2, Announce);
    OneFlush(n, Take);
    OneFlush(n1, Write);
    OneFlush(n2, Announce);
    FlushesOn(n1, [Write], n2, [Announce], m);
    FlushesOn(n, [Take], n1, [Write] + [Announce], m);
    steps := [Take] + ([Write] + [Announce]);
  }

  /**
   * And soon everybody is let go: from every state of a run that was not killed, at most five steps
   * of the flusher alone let every waiting caller return, with what was registered last on disk.
   */
  lemma EverybodyIsServed<B(!new)>(run: seq<Node<B>>, steps: seq<Step<B>>, n: nat)
    returns (more: seq<Step<B>>, m: Node<B>)
    requires IsRun(run, steps) && n < |run| && !run[n].killed
    ensures |more| <= 5 && Flushes(run[n], more, m)
    ensures m.waiters == run[n].waiters && forall v :: v in m.waiters ==> Enabled(m, Return(v))
    ensures m.history == run[n].history && |m.history| > 0 && m.file == m.history[|m.history| - 1]
  {
    RunKeeps(run, steps, n);
    more, m := Finish(run[n]);
    if m.dirty {
      var last, served := Flush(m);
      FlushesOn(run[n], more, m, last, served);
      more, m := more + last, served;
    }
  }
}
