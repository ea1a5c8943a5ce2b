/**
 * The order in which one node's state machine is fed: commands collected by the apply loop,
 * and snapshots that arrive while they are. An install lets the lock go while it persists, so
 * installs overlap one another and everything else; applying a configuration change does the
 * same in the middle of a batch.
 */
module ApplyOrder {
  import opened Wrappers

  datatype Msg = Command(index: nat) | Snapshot(index: nat)

  /** Where the apply loop is: outside its lock, or persisting the configuration change at `at`. */
  datatype Loop = Idle | Persisting(at: nat, stop: nat)

  datatype Node = Node(snapshotIndex: nat, logEnd: nat, commit: nat, lastApplied: nat,
                       gate: nat, installs: multiset<nat>, pending: Option<nat>,
                       loop: Loop, batch: seq<Msg>, channel: seq<Msg>, lastCmd: nat, fatal: bool)

  datatype Step =
    | Replicate(logEnd: nat, commit: nat)
    | InstallBegin(index: nat)
    | InstallEnd(index: nat)
    | Compact(index: nat)
    | CollectSnapshot
    | CollectCommands(upto: nat, conf: bool)
    | Resume(upto: nat, conf: bool)
    | Push
    | Deliver

  const MAX_APPLY_BATCH: nat := 128

  function Least(a: nat, b: nat): nat {
    if a < b then a else b
  }

  function Most(a: nat, b: nat): nat {
    if a > b then a else b
  }

  /** As far as one round of the loop may go. */
  function StopOf(s: Node): nat {
    Least(Least(s.commit, s.logEnd), s.lastApplied + MAX_APPLY_BATCH)
  }

  /** The commands behind a, up to b. */
  function Commands(a: nat, b: nat): seq<Msg> {
    if b <= a then [] else seq(b - a, k requires 0 <= k => Command(a + 1 + k))
  }

  /** A round ends at its stop, or pauses at a configuration change before it. */
  predicate RoundEnds(from: nat, stop: nat, upto: nat, conf: bool) {
    if conf then from < upto <= stop else upto == stop
  }

  predicate Enabled(s: Node, step: Step) {
    match step
    case Replicate(logEnd, commit) => s.commit <= commit <= logEnd
    case InstallBegin(index) => true
    case InstallEnd(index) => index in s.installs && s.gate > 0
    case Compact(index) => index <= s.lastCmd
    case CollectSnapshot => s.loop.Idle? && s.batch == [] && s.gate == 0 && s.pending.Some?
    case CollectCommands(upto, conf) =>
      s.loop.Idle? && s.batch == [] && s.gate == 0 && s.pending.None? && s.lastApplied < s.commit
      && RoundEnds(s.lastApplied, StopOf(s), upto, conf)
    case Resume(upto, conf) =>
      s.loop.Persisting? && RoundEnds(Most(s.loop.at, s.snapshotIndex), Least(s.loop.stop, s.logEnd), upto, conf)
    case Push => s.loop.Idle? && s.batch != []
    case Deliver => s.channel != []
  }

  /** What the state machine's applier does with one message. */
  function Taken(s: Node, m: Msg): Node {
    match m
    case Command(i) => s.(lastCmd := Most(s.lastCmd, i))
    case Snapshot(i) => if i >= s.lastCmd then s.(lastCmd := i) else s.(fatal := true)
  }

  function Next(s: Node, step: Step): Node
    requires Enabled(s, step)
  {
    match step
    case Replicate(logEnd, commit) => s.(logEnd := logEnd, commit := commit)
    case InstallBegin(i) =>
      if i <= s.lastApplied then s
      else s.(gate := s.gate + 1, installs := s.installs + multiset{i}, snapshotIndex := i, logEnd := Most(s.logEnd, i),
              commit := Most(s.commit, i), lastApplied := i)
    case InstallEnd(i) =>
      s.(gate := s.gate - 1, installs := s.installs - multiset{i},
         pending := if s.pending.None? || s.pending.value < i then Some(i) else s.pending)
    case Compact(i) => if i > s.commit || i <= s.snapshotIndex || i > s.logEnd then s else s.(snapshotIndex := i)
    case CollectSnapshot => s.(batch := [Snapshot(s.pending.value)], pending := None)
    case CollectCommands(upto, conf) =>
      s.(batch := Commands(Most(s.lastApplied, s.snapshotIndex), upto), lastApplied := Most(s.lastApplied, upto),
         loop := if conf then Persisting(upto, StopOf(s)) else Idle)
    case Resume(upto, conf) =>
      if s.gate > 0 then s.(loop := Idle)
      else s.(batch := s.batch + Commands(Most(s.loop.at, s.snapshotIndex), upto),
              lastApplied := Most(s.lastApplied, upto),
              loop := if conf then Persisting(upto, s.loop.stop) else Idle)
    case Push => s.(channel := s.channel + [s.batch[0]], batch := s.batch[1..])
    case Deliver => Taken(s.(channel := s.channel[1..]), s.channel[0])
  }

  // ------------------------------------------------------------ in order

  predicate InOrder(m: Msg, at: nat) {
    match m
    case Command(i) => i == at + 1
    case Snapshot(i) => i >= at
  }

  /** Where the state machine is after n messages, when it starts at from. */
  function Reach(feed: seq<Msg>, from: nat, n: nat): nat
    requires n <= |feed|
  {
    if n == 0 then from else feed[n - 1].index
  }

  ghost predicate FitsAt(feed: seq<Msg>, from: nat, j: nat) {
    j < |feed| ==> InOrder(feed[j], Reach(feed, from, j))
  }

  /** Every message is the next one for a state machine that starts at from. */
  ghost predicate Ordered(feed: seq<Msg>, from: nat) {
    forall j: nat :: FitsAt(feed, from, j)
  }

  lemma OrderedHead(feed: seq<Msg>, from: nat)
    requires Ordered(feed, from) && feed != []
    ensures InOrder(feed[0], from) && Ordered(feed[1..], feed[0].index)
    ensures Reach(feed[1..], feed[0].index, |feed| - 1) == Reach(feed, from, |feed|)
  {
    assert FitsAt(feed, from, 0);
    forall j: nat ensures FitsAt(feed[1..], feed[0].index, j) {
      assert FitsAt(feed, from, j + 1);
    }
  }

  lemma OrderedMore(feed: seq<Msg>, from: nat, more: seq<Msg>)
    requires Ordered(feed, from) && Ordered(more, Reach(feed, from, |feed|))
    ensures Ordered(feed + more, from)
    ensures Reach(feed + more, from, |feed + more|) == Reach(more, Reach(feed, from, |feed|), |more|)
  {
    forall j: nat ensures FitsAt(feed + more, from, j) {
      if j < |feed| {
        assert FitsAt(feed, from, j);
      } else {
        assert FitsAt(more, Reach(feed, from, |feed|), j - |feed|);
      }
    }
  }

  lemma CommandsOrdered(a: nat, b: nat)
    ensures Ordered(Commands(a, b), a) && Reach(Commands(a, b), a, |Commands(a, b)|) == Most(a, b)
  {
    forall j: nat ensures FitsAt(Commands(a, b), a, j) {}
  }

  lemma {:induction false} ReachGrows(feed: seq<Msg>, from: nat, n: nat)
    requires Ordered(feed, from) && n <= |feed|
    ensures from <= Reach(feed, from, n)
  {
    if n > 0 {
      ReachGrows(feed, from, n - 1);
      assert FitsAt(feed, from, n - 1);
    }
  }

  // ---------------------------------------------------------- the invariant

  /** What is on its way to the state machine. */
  function Feed(s: Node): seq<Msg> {
    s.channel + s.batch
  }

  /** Where the state machine will be when it has everything. */
  function Goal(s: Node): nat {
    Reach(Feed(s), s.lastCmd, |Feed(s)|)
  }

  ghost predicate Bounds(s: Node) {
    s.snapshotIndex <= s.lastApplied <= s.commit <= s.logEnd && s.gate == |s.installs| && Goal(s) <= s.lastApplied
  }

  predicate Quiet(s: Node) {
    s.gate == 0 && s.pending.None?
  }

  /** A snapshot not handed over yet is what the node counts as applied. */
  ghost predicate Owed(s: Node) {
    && (Quiet(s) ==> Goal(s) == s.lastApplied)
    && (!Quiet(s) ==>
          s.snapshotIndex == s.lastApplied && (s.lastApplied in s.installs || s.pending == Some(s.lastApplied)))
    && (forall i :: i in s.installs ==> i <= s.lastApplied)
    && (s.pending.Some? ==> s.pending.value <= s.lastApplied)
  }

  ghost predicate Paused(s: Node) {
    s.loop.Persisting? ==> Goal(s) == s.loop.at && s.loop.stop <= s.commit && (!Quiet(s) ==> s.loop.at < s.lastApplied)
  }

  ghost predicate Inv(s: Node) {
    Ordered(Feed(s), s.lastCmd) && Bounds(s) && Owed(s) && Paused(s) && !s.fatal
  }

  /** A node that starts from its snapshot at index. */
  ghost predicate Fresh(s: Node) {
    s == Node(s.snapshotIndex, s.logEnd, s.snapshotIndex, s.snapshotIndex, 0, multiset{}, None, Idle, [], [],
              s.snapshotIndex, false)
    && s.snapshotIndex <= s.logEnd
  }

  /** Going on with a paused round must not overtake a snapshot that came in the meantime. */
  predicate Safe(s: Node, step: Step) {
    step.Resume? && s.gate == 0 && s.pending.Some? ==> step.upto <= s.pending.value
  }

  lemma FreshInv(s: Node)
    requires Fresh(s)
    ensures Inv(s)
  {
    forall j: nat ensures FitsAt(Feed(s), s.lastCmd, j) {}
  }

  lemma NoInstalls(s: Node)
    requires s.gate == |s.installs| && s.gate == 0
    ensures forall i :: i !in s.installs
  {
  }

  lemma SameFeed(s: Node, t: Node)
    requires Feed(t) == Feed(s) && t.lastCmd == s.lastCmd && Ordered(Feed(s), s.lastCmd)
    ensures Ordered(Feed(t), t.lastCmd) && Goal(t) == Goal(s)
  {
  }

  lemma CollectKeeps(s: Node, step: Step)
    requires Inv(s) && Enabled(s, step) && (step.CollectCommands? || step.CollectSnapshot?)
    ensures Inv(Next(s, step))
  {
    var t := Next(s, step);
    assert Feed(s) == s.channel;
    NoInstalls(s);
    if step.CollectSnapshot? {
      forall j: nat ensures FitsAt(t.batch, Goal(s), j) {}
      OrderedMore(s.channel, s.lastCmd, t.batch);
    } else {
      CommandsOrdered(s.lastApplied, step.upto);
      OrderedMore(s.channel, s.lastCmd, t.batch);
    }
  }

  lemma ResumeKeeps(s: Node, step: Step)
    requires Inv(s) && Enabled(s, step) && step.Resume? && Safe(s, step)
    ensures Inv(Next(s, step))
  {
    var t := Next(s, step);
    if s.gate > 0 {
      SameFeed(s, t);
    } else {
      var from := Most(s.loop.at, s.snapshotIndex);
      NoInstalls(s);
      assert Feed(t) == Feed(s) + Commands(from, step.upto);
      if step.upto <= from {
        assert Feed(t) == Feed(s);
      } else {
        CommandsOrdered(from, step.upto);
        OrderedMore(Feed(s), s.lastCmd, Commands(from, step.upto));
      }
    }
  }

  lemma DeliverKeeps(s: Node)
    requires Inv(s) && s.channel != []
    ensures Inv(Next(s, Deliver)) && InOrder(s.channel[0], s.lastCmd)
  {
    var t := Next(s, Deliver);
    assert Feed(s)[0] == s.channel[0] && Feed(s)[1..] == s.channel[1..] + s.batch;
    OrderedHead(Feed(s), s.lastCmd);
    assert t.lastCmd == s.channel[0].index;
  }

  lemma InstallKeeps(s: Node, step: Step)
    requires Inv(s) && Enabled(s, step) && (step.InstallBegin? || step.InstallEnd?)
    ensures Inv(Next(s, step))
  {
    SameFeed(s, Next(s, step));
  }

  lemma OtherKeeps(s: Node, step: Step)
    requires Inv(s) && Enabled(s, step) && (step.Replicate? || step.Compact? || step.Push?)
    ensures Inv(Next(s, step))
  {
    assert Feed(Next(s, step)) == Feed(s);
    SameFeed(s, Next(s, step));
    ReachGrows(Feed(s), s.lastCmd, |Feed(s)|);
  }

  lemma StepKeeps(s: Node, step: Step)
    requires Inv(s) && Enabled(s, step) && Safe(s, step)
    ensures Inv(Next(s, step))
  {
    match step {
      case CollectSnapshot => CollectKeeps(s, step);
      case CollectCommands(_, _) => CollectKeeps(s, step);
      case Resume(_, _) => ResumeKeeps(s, step);
      case Deliver => DeliverKeeps(s);
      case InstallBegin(_) => InstallKeeps(s, step);
      case InstallEnd(_) => InstallKeeps(s, step);
      case _ => OtherKeeps(s, step);
    }
  }

  // ---------------------------------------------------------- every run

  /** The states a run of these steps goes through. */
  ghost predicate RunAt(run: seq<Node>, steps: seq<Step>, i: nat) {
    i < |steps| && i + 1 < |run| ==> Enabled(run[i], steps[i]) && run[i + 1] == Next(run[i], steps[i])
  }

  ghost predicate IsRun(run: seq<Node>, steps: seq<Step>) {
    |run| == |steps| + 1 && Fresh(run[0]) && forall i: nat :: RunAt(run, steps, i)
  }

  ghost predicate SafeAt(run: seq<Node>, steps: seq<Step>, i: nat) {
    i < |steps| && i < |run| ==> Safe(run[i], steps[i])
  }

  lemma {:induction false} RunKeeps(run: seq<Node>, steps: seq<Step>, n: nat)
    requires IsRun(run, steps) && n < |run| && forall i: nat :: i < n ==> SafeAt(run, steps, i)
    ensures Inv(run[n])
  {
    if n == 0 {
      FreshInv(run[0]);
    } else {
      RunKeeps(run, steps, n - 1);
      assert RunAt(run, steps, n - 1) && SafeAt(run, steps, n - 1);
      StepKeeps(run[n - 1], steps[n - 1]);
    }
  }

  /**
   * In every run, as long as no paused round overtook a snapshot, the state machine takes
   * exactly the next command or a snapshot that is not older, and never gives up.
   */
  lemma EveryDeliveryInOrder(run: seq<Node>, steps: seq<Step>, n: nat)
    requires IsRun(run, steps) && n < |steps| && steps[n] == Deliver
    requires forall i: nat :: i < n ==> SafeAt(run, steps, i)
    ensures run[n].channel != [] && InOrder(run[n].channel[0], run[n].lastCmd) && !run[n + 1].fatal
    ensures run[n + 1].lastCmd == run[n].channel[0].index
  {
    RunKeeps(run, steps, n);
    assert RunAt(run, steps, n);
    DeliverKeeps(run[n]);
  }

  /** Going on with a paused round keeps what is fed in order exactly when it is safe. */
  lemma ResumeInOrderOnlyIfSafe(s: Node, step: Step)
    requires Inv(s) && Enabled(s, step) && step.Resume?
    ensures Ordered(Feed(Next(s, step)), s.lastCmd) <==> Safe(s, step)
  {
    if Safe(s, step) {
      ResumeKeeps(s, step);
    } else {
      var t, n := Next(s, step), |Feed(s)|;
      NoInstalls(s);
      assert Feed(t) == Feed(s) + Commands(s.snapshotIndex, step.upto);
      assert Feed(t)[n] == Command(s.snapshotIndex + 1);
      assert Reach(Feed(t), s.lastCmd, n) == Goal(s) by { if n > 0 { assert Feed(t)[n - 1] == Feed(s)[n - 1]; } }
      assert !FitsAt(Feed(t), s.lastCmd, n);
    }
  }

  ghost predicate Reachable(s: Node) {
    exists run: seq<Node>, steps: seq<Step> :: IsRun(run, steps) && run[|steps|] == s
  }

  lemma StartReachable(s: Node)
    requires Fresh(s)
    ensures Reachable(s)
  {
    var none: seq<Step> := [];
    assert IsRun([s], none) && [s][|none|] == s;
  }

  lemma OneMore(s: Node, step: Step, t: Node)
    requires Reachable(s) && Enabled(s, step) && Next(s, step) == t
    ensures Reachable(t)
  {
    var run: seq<Node>, steps: seq<Step> :| IsRun(run, steps) && run[|steps|] == s;
    var longer, more := run + [t], steps + [step];
    forall i: nat ensures RunAt(longer, more, i) {
      assert RunAt(run, steps, i);
    }
    assert IsRun(longer, more) && longer[|more|] == t;
  }

  lemma OvertakingCommands()
    ensures Commands(0, 1) == [Command(1)] && Commands(3, 5) == [Command(4), Command(5)]
  {
  }

  /** A round up to 5 pauses at the configuration change at 1, and a snapshot of 3 is installed. */
  lemma InstalledWhilePaused()
    ensures Reachable(Node(3, 5, 5, 3, 0, multiset{}, Some(3), Persisting(1, 5), [Command(1)], [], 0, false))
  {
    OvertakingCommands();
    var s0 := Node(0, 0, 0, 0, 0, multiset{}, None, Idle, [], [], 0, false);
    StartReachable(s0);
    var s1 := Node(0, 5, 5, 0, 0, multiset{}, None, Idle, [], [], 0, false);
    OneMore(s0, Replicate(5, 5), s1);
    var s2 := Node(0, 5, 5, 1, 0, multiset{}, None, Persisting(1, 5), [Command(1)], [], 0, false);
    OneMore(s1, CollectCommands(1, true), s2);
    var s3 := Node(3, 5, 5, 3, 1, multiset{3}, None, Persisting(1, 5), [Command(1)], [], 0, false);
    OneMore(s2, InstallBegin(3), s3);
    OneMore(s3, InstallEnd(3), Node(3, 5, 5, 3, 0, multiset{}, Some(3), Persisting(1, 5), [Command(1)], [], 0, false));
  }

  /** A round paused at entry 1 while a snapshot up to 3 was installed, and resumed at 4. */
  function Overtaken(): Node {
    Node(3, 5, 5, 5, 0, multiset{}, Some(3), Idle, [Command(1), Command(4), Command(5)], [], 0, false)
  }

  lemma RoundGoesOn()
    ensures Reachable(Overtaken())
  {
    InstalledWhilePaused();
    OvertakingCommands();
    var s := Node(3, 5, 5, 3, 0, multiset{}, Some(3), Persisting(1, 5), [Command(1)], [], 0, false);
    assert s.batch + Commands(3, 5) == [Command(1), Command(4), Command(5)];
    OneMore(s, Resume(5, false), Overtaken());
  }

  /** It is not always safe: behind the snapshot, command 4 comes to a state machine that is at 1. */
  lemma PausedRoundOvertakes() returns (s: Node)
    ensures Reachable(s) && s.channel != [] && s.channel[0] == Command(4) && s.lastCmd == 1
  {
    RoundGoesOn();
    var s1 := Node(3, 5, 5, 5, 0, multiset{}, Some(3), Idle, [Command(4), Command(5)], [Command(1)], 0, false);
    OneMore(Overtaken(), Push, s1);
    var s2 := Node(3, 5, 5, 5, 0, multiset{}, Some(3), Idle, [Command(5)], [Command(1), Command(4)], 0, false);
    OneMore(s1, Push, s2);
    s := Node(3, 5, 5, 5, 0, multiset{}, Some(3), Idle, [Command(5)], [Command(4)], 1, false);
    OneMore(s2, Deliver, s);
  }

  // ------------------------------------------------------------------ progress

  /** Installs under way end, what waits is collected, and what is collected is handed over and taken. */
  predicate Feeds(step: Step) {
    step.InstallEnd? || step.CollectSnapshot? || (step.CollectCommands? && !step.conf) || step.Push? || step.Deliver?
  }

  ghost predicate Fed(s: Node, steps: seq<Step>, t: Node)
    decreases |steps|
  {
    if steps == [] then t == s
    else Feeds(steps[0]) && Enabled(s, steps[0]) && Fed(Next(s, steps[0]), steps[1..], t)
  }

  lemma FedMore(s: Node, step: Step, steps: seq<Step>, t: Node)
    requires Feeds(step) && Enabled(s, step) && Fed(Next(s, step), steps, t)
    ensures Fed(s, [step] + steps, t)
  {
    assert ([step] + steps)[1..] == steps;
  }

  /** What to do next, and that it brings the end nearer. */
  lemma NextFeed(s: Node) returns (step: Step)
    requires Inv(s) && s.loop.Idle?
    requires s.channel != [] || s.batch != [] || !Quiet(s) || s.lastApplied < s.commit
    ensures Feeds(step) && Enabled(s, step) && Inv(Next(s, step)) && Next(s, step).loop.Idle?
    ensures Next(s, step).commit == s.commit && Next(s, step).logEnd == s.logEnd
    ensures var t := Next(s, step);
      |t.installs| < |s.installs|
      || (|t.installs| == |s.installs| && Waits(t) < Waits(s))
      || (|t.installs| == |s.installs| && Waits(t) == Waits(s) && t.commit - t.lastApplied < s.commit - s.lastApplied)
      || (|t.installs| == |s.installs| && Waits(t) == Waits(s) && t.lastApplied == s.lastApplied
          && 2 * |t.batch| + |t.channel| < 2 * |s.batch| + |s.channel|)
  {
    if s.channel != [] {
      step := Deliver;
    } else if s.batch != [] {
      step := Push;
    } else if s.gate > 0 {
      var i :| i in s.installs;
      step := InstallEnd(i);
    } else if s.pending.Some? {
      step := CollectSnapshot;
    } else {
      step := CollectCommands(StopOf(s), false);
    }
    StepKeeps(s, step);
  }

  function Waits(s: Node): nat {
    if s.pending.Some? then 1 else 0
  }

  /** With nothing on its way and nothing owed, the state machine has everything. */
  lemma AllTaken(s: Node)
    requires Inv(s) && s.channel == s.batch == [] && Quiet(s) && s.lastApplied >= s.commit
    ensures s.lastCmd == s.commit
  {
    assert Feed(s) == [];
  }

  /**
   * Nothing committed is ever stuck: from every state of a safe run in which no round is paused,
   * the installs under way, the apply loop and the state machine alone get to a state in which
   * the state machine has taken everything that was committed.
   */
  lemma {:induction false} EverythingArrives(s: Node) returns (steps: seq<Step>, t: Node)
    requires Inv(s) && s.loop.Idle?
    ensures Fed(s, steps, t) && Inv(t) && t.commit == s.commit && t.lastCmd == t.commit
    decreases |s.installs|, Waits(s), s.commit - s.lastApplied, 2 * |s.batch| + |s.channel|
  {
    if s.channel == [] && s.batch == [] && Quiet(s) && s.lastApplied >= s.commit {
      AllTaken(s);
      steps, t := [], s;
    } else {
      var step := NextFeed(s);
      var more;
      more, t := EverythingArrives(Next(s, step));
      FedMore(s, step, more, t);
      steps := [step] + more;
    }
  }

  lemma EverythingArrivesInRun(run: seq<Node>, steps: seq<Step>, n: nat) returns (more: seq<Step>, t: Node)
    requires IsRun(run, steps) && n < |run| && (forall i: nat :: i < n ==> SafeAt(run, steps, i)) && run[n].loop.Idle?
    ensures Fed(run[n], more, t) && t.commit == run[n].commit && t.lastCmd == t.commit && !t.fatal
  {
    RunKeeps(run, steps, n);
    more, t := EverythingArrives(run[n]);
  }
}
