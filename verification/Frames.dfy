/**
 * Frames on a byte stream: a body behind its length in four bytes, most significant first.
 * A reader takes the stream in pieces of any size and gives back the bodies.
 */
module Frames {
  import opened Wrappers
  import opened Codec
  import opened Bytes
  import opened Pieces

  function Frame(body: bytes): (f: bytes)
    ensures |f| == 4 + |body|
  {
    Big(Cut32(|body|), 4) + body
  }

  /** The length stands in front, its digits in base 256 from the highest to the lowest. */
  lemma FrameLayout(body: bytes, i: nat)
    requires |body| < TWO_32 && i < 4
    ensures Frame(body)[3 - i] as nat == |body| / Radix(i) % 256 && Frame(body)[4..] == body
  {
    BigDigit(|body|, 4, i);
  }

  function FramesOf(bodies: seq<bytes>): (fs: seq<bytes>)
    ensures |fs| == |bodies|
  {
    seq(|bodies|, i requires 0 <= i < |bodies| => Frame(bodies[i]))
  }

  // ---------------------------------------------------------- one look

  datatype Look = Taken(body: bytes, rest: bytes) | Wait | TooLarge

  /** What can be cut off the front of what has arrived; no cap is 0. */
  function NextFrame(pending: bytes, cap: nat): Look {
    if |pending| < 4 then Wait else
    var len := BigAt(pending, 0, 4);
    if cap > 0 && len > cap then TooLarge
    else if |pending| < 4 + len then Wait
    else Taken(pending[4..4 + len], pending[4 + len..])
  }

  class FrameReader {
    var buf: bytes
    var off: nat
    var maxBody: nat
    var broken: bool

    ghost predicate Valid()
      reads this
    {
      off <= |buf|
    }

    /** What has arrived and is not taken yet. */
    ghost function Pending(): bytes
      reads this
      requires Valid()
    {
      buf[off..]
    }

    constructor (maxBody: nat)
      ensures Valid() && Pending() == [] && !broken && this.maxBody == maxBody
    {
      this.maxBody := maxBody;
      buf, off, broken := [], 0, false;
    }

    method Append(data: bytes)
      requires Valid()
      modifies this`buf
      ensures Valid() && Pending() == old(Pending()) + data
    {
      if |data| > 0 { buf := buf + data; }
    }

    method SetMaxBody(n: nat)
      requires Valid()
      modifies this`maxBody
      ensures maxBody == n
    {
      maxBody := n;
    }

    /** Moves what is left to the front when most of a large buffer is taken. */
    method CompactIfNeeded()
      requires Valid()
      modifies this`buf, this`off
      ensures Valid() && Pending() == old(Pending())
    {
      if off < 64 * 1024 { return; }
      if off * 2 < |buf| { return; }
      buf := buf[off..];
      off := 0;
    }

    method Next() returns (ok: bool, body: bytes)
      requires Valid()
      modifies this`buf, this`off, this`broken
      ensures Valid()
      ensures match NextFrame(old(Pending()), maxBody)
        case Taken(b, rest) => ok && body == b && Pending() == rest && broken == old(broken)
        case Wait => !ok && Pending() == old(Pending()) && broken == old(broken)
        case TooLarge => !ok && Pending() == old(Pending()) && broken
    {
      var avail := |buf| - off;
      if avail < 4 { return false, []; }
      var len := BigAt(buf, off, 4);
      BigSame(buf, off, Pending(), 0, 4);
      if maxBody > 0 && len > maxBody {
        broken := true;
        return false, [];
      }
      if avail < 4 + len { return false, []; }
      body := buf[off + 4..off + 4 + len];
      off := off + 4 + len;
      CompactIfNeeded();
      ok := true;
    }
  }

  // ---------------------------------------------------------- whole runs

  /** What happens at a reader: bytes arrive, someone asks for a body, the cap is changed. */
  datatype Event = Arrive(data: bytes) | Poll | SetMax(n: nat)

  datatype State = State(pending: bytes, cap: nat, broken: bool, out: seq<bytes>)

  /** The reader's methods, seen from outside. */
  function After(s: State, ev: Event): State {
    match ev
    case Arrive(data) => s.(pending := s.pending + data)
    case SetMax(n) => s.(cap := n)
    case Poll =>
      match NextFrame(s.pending, s.cap)
      case Taken(body, rest) => s.(pending := rest, out := s.out + [body])
      case Wait => s
      case TooLarge => s.(broken := true)
  }

  /** The first n events, starting empty. */
  function Play(events: seq<Event>, cap: nat, n: nat): State
    requires n <= |events|
  {
    if n == 0 then State([], cap, false, []) else After(Play(events, cap, n - 1), events[n - 1])
  }

  function Arrived(events: seq<Event>, n: nat): bytes
    requires n <= |events|
  {
    if n == 0 then [] else Arrived(events, n - 1) + if events[n - 1].Arrive? then events[n - 1].data else []
  }

  ghost predicate Roomy(bodies: seq<bytes>, cap: nat) {
    cap == 0 || forall i :: 0 <= i < |bodies| ==> |bodies[i]| <= cap
  }

  /** Every length can be written down. */
  ghost predicate Frameable(bodies: seq<bytes>) {
    forall i :: 0 <= i < |bodies| ==> |bodies[i]| < TWO_32
  }

  /** No cap in force ever is too small. */
  ghost predicate Allowed(bodies: seq<bytes>, events: seq<Event>, cap: nat) {
    Frameable(bodies) && Roomy(bodies, cap)
    && forall i :: 0 <= i < |events| && events[i].SetMax? ==> Roomy(bodies, events[i].n)
  }

  /** k bodies are out, and what is pending is the rest of what arrived. */
  ghost predicate InStep(bodies: seq<bytes>, fs: seq<bytes>, s: State, arrived: bytes) {
    s.out <= bodies && |s.out| <= |fs| && Cat(fs, |s.out|) + s.pending == arrived
  }

  /** The next body's length has arrived, and it is over the cap in force. */
  predicate MeetsTooLarge(bodies: seq<bytes>, s: State) {
    |s.out| < |bodies| && |s.pending| >= 4 && s.cap > 0 && |bodies[|s.out|]| > s.cap
  }

  lemma ArrivedGrows(events: seq<Event>, n: nat)
    requires 0 < n <= |events|
    ensures Arrived(events, n - 1) <= Arrived(events, n)
  {
  }

  /** A frame's two parts. */
  lemma FrameParts(whole: bytes, at: nat, head: bytes, body: bytes)
    requires Holds(whole, at, head + body) && |head| == 4
    ensures Holds(whole, at, head) && Holds(whole, at + 4, body)
  {
    HoldsParts(whole, at, head, body);
  }

  lemma HeadReads(whole: bytes, at: nat, len: nat, pending: bytes)
    requires Holds(whole, at, Big(len, 4)) && len < Radix(4)
    requires 4 <= |pending| && at + |pending| <= |whole| && pending == whole[at..at + |pending|]
    ensures BigAt(pending, 0, 4) == len
  {
    BigBack(whole, at, len, 4);
    BigSame(pending, 0, whole, at, 4);
  }

  lemma BodyReads(whole: bytes, at: nat, body: bytes, pending: bytes)
    requires Holds(whole, at + 4, body)
    requires 4 + |body| <= |pending| && at + |pending| <= |whole| && pending == whole[at..at + |pending|]
    ensures pending[4..4 + |body|] == body
  {
    forall i | 0 <= i < |body| ensures pending[4 + i] == body[i] {
      assert whole[at + 4..at + 4 + |body|][i] == whole[at + (4 + i)] == pending[4 + i];
    }
  }

  /** What a look at the frame of body should give: over the cap it is refused as soon as its length is there. */
  function Answer(body: bytes, pending: bytes, cap: nat): Look {
    if |pending| >= 4 && cap > 0 && |body| > cap then TooLarge
    else if |pending| >= 4 + |body| then Taken(body, pending[4 + |body|..])
    else Wait
  }

  lemma NextFrameIs(pending: bytes, cap: nat, body: bytes)
    requires |pending| >= 4 ==> BigAt(pending, 0, 4) == |body|
    requires |pending| >= 4 + |body| ==> pending[4..4 + |body|] == body
    ensures NextFrame(pending, cap) == Answer(body, pending, cap)
  {
  }

  /** What is pending is what stands behind the first k frames. */
  lemma PendingStands(fs: seq<bytes>, k: nat, pending: bytes, arrived: bytes)
    requires k <= |fs| && Cat(fs, k) + pending == arrived && arrived <= Cat(fs, |fs|)
    ensures var whole, at := Cat(fs, |fs|), End(fs, k);
      |Cat(fs, k)| == at && at + |pending| == |arrived| <= |whole| && pending == whole[at..at + |pending|]
  {
    EndIsLength(fs, k);
    assert arrived[|Cat(fs, k)|..] == pending;
  }

  lemma FrameIs(body: bytes)
    requires |body| < TWO_32
    ensures Frame(body) == Big(|body|, 4) + body
  {
  }

  lemma OneFrame(bodies: seq<bytes>, k: nat)
    requires k < |bodies| && |bodies[k]| < TWO_32
    ensures var fs := FramesOf(bodies);
      Holds(Cat(fs, |fs|), End(fs, k), Big(|bodies[k]|, 4)) && Holds(Cat(fs, |fs|), End(fs, k) + 4, bodies[k])
  {
    var fs := FramesOf(bodies);
    PieceStands(fs, k, |fs|);
    FrameIs(bodies[k]);
    FrameParts(Cat(fs, |fs|), End(fs, k), Big(|bodies[k]|, 4), bodies[k]);
  }

  lemma NextAt(whole: bytes, at: nat, body: bytes, pending: bytes, cap: nat)
    requires Holds(whole, at, Big(|body|, 4)) && Holds(whole, at + 4, body)
    requires |body| < TWO_32
    requires at + |pending| <= |whole| && pending == whole[at..at + |pending|]
    ensures NextFrame(pending, cap) == Answer(body, pending, cap)
  {
    RadixIs();
    if |pending| >= 4 { HeadReads(whole, at, |body|, pending); }
    if |pending| >= 4 + |body| { BodyReads(whole, at, body, pending); }
    NextFrameIs(pending, cap, body);
  }

  lemma Located(bodies: seq<bytes>, k: nat, pending: bytes, arrived: bytes) returns (whole: bytes, at: nat)
    requires k < |bodies| && |bodies[k]| < TWO_32
    requires Cat(FramesOf(bodies), k) + pending == arrived && arrived <= Cat(FramesOf(bodies), |bodies|)
    ensures Holds(whole, at, Big(|bodies[k]|, 4)) && Holds(whole, at + 4, bodies[k])
    ensures at + |pending| <= |whole| && pending == whole[at..at + |pending|]
  {
    var fs := FramesOf(bodies);
    PendingStands(fs, k, pending, arrived);
    OneFrame(bodies, k);
    whole, at := Cat(fs, |fs|), End(fs, k);
  }

  /** A body over the cap is refused; another is taken as it was once it is whole, and waited for until then. */
  lemma NextIs(bodies: seq<bytes>, k: nat, pending: bytes, arrived: bytes, cap: nat)
    requires k < |bodies| && |bodies[k]| < TWO_32
    requires Cat(FramesOf(bodies), k) + pending == arrived && arrived <= Cat(FramesOf(bodies), |bodies|)
    ensures NextFrame(pending, cap) == Answer(bodies[k], pending, cap)
  {
    var body := bodies[k];
    var whole, at := Located(bodies, k, pending, arrived);
    NextAt(whole, at, body, pending, cap);
  }

  // ------------------------------------------------------- every chunking

  lemma FrontIs(fs: seq<bytes>, k: nat, pending: bytes, arrived: bytes)
    requires k < |fs| && |fs[k]| <= |pending| && Cat(fs, k) + pending == arrived && arrived <= Cat(fs, |fs|)
    ensures pending[..|fs[k]|] == fs[k]
  {
    PendingStands(fs, k, pending, arrived);
    PieceStands(fs, k, |fs|);
    SliceFront(Cat(fs, |fs|), End(fs, k), pending, fs[k]);
  }

  lemma SliceFront(whole: bytes, at: nat, pending: bytes, part: bytes)
    requires at + |pending| <= |whole| && pending == whole[at..at + |pending|]
    requires |part| <= |pending| && Holds(whole, at, part)
    ensures pending[..|part|] == part
  {
  }

  /** Taking the front piece moves it over to the pieces that are gone. */
  lemma TakeOne(fs: seq<bytes>, k: nat, pending: bytes, arrived: bytes, rest: bytes)
    requires k < |fs| && pending == fs[k] + rest && Cat(fs, k) + pending == arrived
    ensures Cat(fs, k + 1) + rest == arrived
  {
    assert Cat(fs, k) + fs[k] + rest == Cat(fs, k) + (fs[k] + rest);
  }

  lemma TakenKeeps(bodies: seq<bytes>, fs: seq<bytes>, s: State, arrived: bytes)
    requires InStep(bodies, fs, s, arrived) && |s.out| < |bodies| == |fs|
    requires arrived <= Cat(fs, |fs|) && |fs[|s.out|]| <= |s.pending|
    ensures var k := |s.out|;
      InStep(bodies, fs, s.(pending := s.pending[|fs[k]|..], out := s.out + [bodies[k]]), arrived)
  {
    var k := |s.out|;
    FrontIs(fs, k, s.pending, arrived);
    assert s.pending == fs[k] + s.pending[|fs[k]|..];
    TakeOne(fs, k, s.pending, arrived, s.pending[|fs[k]|..]);
  }

  lemma AfterPoll(bodies: seq<bytes>, s: State, arrived: bytes)
    requires InStep(bodies, FramesOf(bodies), s, arrived) && |s.out| < |bodies| && |bodies[|s.out|]| < TWO_32
    requires arrived <= Cat(FramesOf(bodies), |bodies|)
    ensures var next := bodies[|s.out|];
      After(s, Poll)
      == if MeetsTooLarge(bodies, s) then s.(broken := true)
         else if |s.pending| >= 4 + |next| then s.(pending := s.pending[4 + |next|..], out := s.out + [next])
         else s
  {
    NextIs(bodies, |s.out|, s.pending, arrived, s.cap);
  }

  /** Nothing has arrived that was not taken. */
  lemma AllTaken(bodies: seq<bytes>, fs: seq<bytes>, s: State, arrived: bytes)
    requires InStep(bodies, fs, s, arrived) && |s.out| == |bodies| == |fs| && arrived <= Cat(fs, |fs|)
    ensures s.pending == [] && After(s, Poll) == s
  {
    assert |s.pending| == 0;
  }

  lemma StillWaits(bodies: seq<bytes>, fs: seq<bytes>, s: State, arrived: bytes)
    requires InStep(bodies, fs, s, arrived) && |s.out| < |fs| && |s.pending| < |fs[|s.out|]|
    ensures |arrived| < End(fs, |s.out| + 1)
  {
    EndIsLength(fs, |s.out|);
  }

  lemma PollKeepsStep(bodies: seq<bytes>, fs: seq<bytes>, s: State, arrived: bytes)
    requires fs == FramesOf(bodies) && InStep(bodies, fs, s, arrived) && arrived <= Cat(fs, |fs|)
    requires Frameable(bodies)
    ensures InStep(bodies, fs, After(s, Poll), arrived)
    ensures After(s, Poll).broken == (s.broken || MeetsTooLarge(bodies, s))
    ensures After(s, Poll).out == s.out && !MeetsTooLarge(bodies, s)
      ==> |s.out| == |bodies| || |arrived| < End(fs, |s.out| + 1)
  {
    if |s.out| == |bodies| {
      AllTaken(bodies, fs, s, arrived);
    } else {
      AfterPoll(bodies, s, arrived);
      if |s.pending| >= |fs[|s.out|]| {
        TakenKeeps(bodies, fs, s, arrived);
      } else {
        StillWaits(bodies, fs, s, arrived);
      }
    }
  }

  lemma ArriveKeepsStep(bodies: seq<bytes>, fs: seq<bytes>, s: State, data: bytes, arrived: bytes)
    requires InStep(bodies, fs, s, arrived) && |fs| == |bodies|
    ensures InStep(bodies, fs, s.(pending := s.pending + data), arrived + data)
  {
    assert Cat(fs, |s.out|) + (s.pending + data) == Cat(fs, |s.out|) + s.pending + data;
  }

  lemma EventKeepsStep(bodies: seq<bytes>, fs: seq<bytes>, s: State, ev: Event, arrived: bytes, now: bytes)
    requires fs == FramesOf(bodies) && InStep(bodies, fs, s, arrived) && now <= Cat(fs, |fs|)
    requires now == arrived + (if ev.Arrive? then ev.data else []) && Frameable(bodies)
    ensures InStep(bodies, fs, After(s, ev), now)
    ensures After(s, ev).broken == (s.broken || (ev == Poll && MeetsTooLarge(bodies, s)))
  {
    match ev {
      case Arrive(data) => ArriveKeepsStep(bodies, fs, s, data, arrived);
      case SetMax(n) =>
      case Poll => PollKeepsStep(bodies, fs, s, arrived);
    }
  }

  /** Some poll met a body over the cap in force. */
  ghost predicate MetTooLarge(bodies: seq<bytes>, events: seq<Event>, cap: nat, n: nat)
    requires n <= |events|
  {
    exists j :: 0 <= j < n && events[j] == Poll && MeetsTooLarge(bodies, Play(events, cap, j))
  }

  /**
   * At every moment, whatever the caps, the bodies given out are the first ones sent and nothing
   * arrived is lost; and the reader is marked broken exactly when a poll met a body over the cap.
   */
  lemma {:induction false} AnyChunking(bodies: seq<bytes>, events: seq<Event>, cap: nat, n: nat)
    requires Frameable(bodies) && n <= |events| && Arrived(events, n) <= Cat(FramesOf(bodies), |bodies|)
    ensures InStep(bodies, FramesOf(bodies), Play(events, cap, n), Arrived(events, n))
    ensures Play(events, cap, n).broken <==> MetTooLarge(bodies, events, cap, n)
  {
    if n > 0 {
      ArrivedGrows(events, n);
      AnyChunking(bodies, events, cap, n - 1);
      EventKeepsStep(bodies, FramesOf(bodies), Play(events, cap, n - 1), events[n - 1],
                     Arrived(events, n - 1), Arrived(events, n));
    }
  }

  lemma {:induction false} CapsStay(bodies: seq<bytes>, events: seq<Event>, cap: nat, n: nat)
    requires Allowed(bodies, events, cap) && n <= |events|
    ensures Roomy(bodies, Play(events, cap, n).cap)
  {
    if n > 0 { CapsStay(bodies, events, cap, n - 1); }
  }

  /** With room for every body the reader never is broken. */
  lemma NeverBroken(bodies: seq<bytes>, events: seq<Event>, cap: nat, n: nat)
    requires Allowed(bodies, events, cap) && n <= |events| && Arrived(events, n) <= Cat(FramesOf(bodies), |bodies|)
    ensures !Play(events, cap, n).broken
  {
    AnyChunking(bodies, events, cap, n);
    forall j | 0 <= j < n ensures !MeetsTooLarge(bodies, Play(events, cap, j)) { CapsStay(bodies, events, cap, j); }
  }

  /**
   * When the reader has nothing to give, every body whose frame has arrived is out, up to one
   * that is over the cap in force.
   */
  lemma NothingHeldBack(bodies: seq<bytes>, events: seq<Event>, cap: nat, n: nat)
    requires Frameable(bodies) && 0 < n <= |events| && Arrived(events, n) <= Cat(FramesOf(bodies), |bodies|)
    requires events[n - 1] == Poll && Play(events, cap, n).out == Play(events, cap, n - 1).out
    ensures var out := Play(events, cap, n).out;
      out <= bodies
      && (out == bodies || |Arrived(events, n)| < End(FramesOf(bodies), |out| + 1)
          || MeetsTooLarge(bodies, Play(events, cap, n)))
  {
    ArrivedGrows(events, n);
    AnyChunking(bodies, events, cap, n - 1);
    PollGivesNothing(bodies, Play(events, cap, n - 1), Arrived(events, n - 1));
  }

  lemma PollGivesNothing(bodies: seq<bytes>, s: State, arrived: bytes)
    requires InStep(bodies, FramesOf(bodies), s, arrived) && arrived <= Cat(FramesOf(bodies), |bodies|)
    requires Frameable(bodies) && After(s, Poll).out == s.out
    ensures s.out <= bodies
    ensures s.out == bodies || |arrived| < End(FramesOf(bodies), |s.out| + 1) || MeetsTooLarge(bodies, After(s, Poll))
  {
    PollKeepsStep(bodies, FramesOf(bodies), s, arrived);
    RefusedStays(bodies, s, arrived);
  }

  /** A refusal takes nothing. */
  lemma RefusedStays(bodies: seq<bytes>, s: State, arrived: bytes)
    requires InStep(bodies, FramesOf(bodies), s, arrived) && arrived <= Cat(FramesOf(bodies), |bodies|)
    requires Frameable(bodies)
    ensures MeetsTooLarge(bodies, s) ==> MeetsTooLarge(bodies, After(s, Poll))
  {
    if MeetsTooLarge(bodies, s) { AfterPoll(bodies, s, arrived); }
  }

  /** Once all bytes are there and the reader has nothing to give, exactly the bodies sent are out. */
  lemma AllDelivered(bodies: seq<bytes>, events: seq<Event>, cap: nat, n: nat)
    requires Allowed(bodies, events, cap) && 0 < n <= |events| && Arrived(events, n) == Cat(FramesOf(bodies), |bodies|)
    requires events[n - 1] == Poll && Play(events, cap, n).out == Play(events, cap, n - 1).out
    ensures Play(events, cap, n).out == bodies
  {
    NothingHeldBack(bodies, events, cap, n);
    CapsStay(bodies, events, cap, n);
    var fs, k := FramesOf(bodies), |Play(events, cap, n).out|;
    EndIsLength(fs, |fs|);
    if k < |bodies| { EndGrows(fs, k + 1, |fs|); }
  }
}
