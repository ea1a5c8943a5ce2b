/** What a frame carries: a request or a reply, under a correlation number. */
module RpcBodies {
  import opened Wrappers
  import opened Codec
  import opened Bytes
  import opened Pieces

  datatype Request = Request(corr: uint64, service: bytes, args: bytes)
  datatype Reply = Reply(corr: uint64, ok: bool, payload: bytes)

  function RequestBody(r: Request): bytes {
    Cat(RequestParts(r), 5)
  }

  function RequestParts(r: Request): (ps: seq<bytes>)
    ensures |ps| == 5
  {
    [Big(r.corr, 8), Big(Cut32(|r.service|), 4), r.service, Big(Cut32(|r.args|), 4), r.args]
  }

  function ReplyBody(r: Reply): bytes {
    Cat(ReplyParts(r), 4)
  }

  function ReplyParts(r: Reply): (ps: seq<bytes>)
    ensures |ps| == 4
  {
    [Big(r.corr, 8), [if r.ok then 1 else 0], Big(Cut32(|r.payload|), 4), r.payload]
  }

  /** A byte string behind its length. */
  function TakeSized(body: bytes, pos: nat): (r: Parse<bytes>)
    ensures r.Got? ==> r.next <= |body|
  {
    if pos + 4 > |body| then Bad else
    var n := BigAt(body, pos, 4);
    if pos + 4 + n > |body| then Bad else Got(body[pos + 4..pos + 4 + n], pos + 4 + n)
  }

  function DecodeRequest(body: bytes): Option<Request> {
    if |body| < 16 then None else
    var service := TakeSized(body, 8);
    if service.Bad? then None else
    var args := TakeSized(body, service.next);
    if args.Bad? then None else
    BigBelow(body, 0, 8);
    Some(Request(BigAt(body, 0, 8), service.value, args.value))
  }

  function DecodeReply(body: bytes): Option<Reply> {
    if |body| < 13 then None else
    var payload := TakeSized(body, 9);
    if payload.Bad? then None else
    BigBelow(body, 0, 8);
    Some(Reply(BigAt(body, 0, 8), body[8] != 0, payload.value))
  }

  lemma {:induction false} BigBelow(s: bytes, pos: nat, n: nat)
    requires pos + n <= |s|
    ensures BigAt(s, pos, n) < Radix(n) && Radix(8) == TWO_64
    decreases n
  {
    RadixIs();
    if n > 0 { BigBelow(s, pos, n - 1); }
  }

  lemma TakeSizedIs(body: bytes, pos: nat, s: bytes)
    requires pos + 4 <= |body| && BigAt(body, pos, 4) == |s| && Holds(body, pos + 4, s)
    ensures TakeSized(body, pos) == Got(s, pos + 4 + |s|)
  {
  }

  lemma SizedBack(body: bytes, pos: nat, s: bytes)
    requires |s| < TWO_32 && Holds(body, pos, Big(|s|, 4)) && Holds(body, pos + 4, s)
    ensures TakeSized(body, pos) == Got(s, pos + 4 + |s|)
  {
    RadixIs();
    BigBack(body, pos, |s|, 4);
    TakeSizedIs(body, pos, s);
  }

  lemma CorrBack(body: bytes, corr: uint64)
    requires Holds(body, 0, Big(corr, 8))
    ensures BigAt(body, 0, 8) == corr
  {
    RadixIs();
    BigBack(body, 0, corr, 8);
  }

  lemma DecodeRequestIs(body: bytes, r: Request, next: nat)
    requires |body| >= 16 && BigAt(body, 0, 8) == r.corr
    requires TakeSized(body, 8) == Got(r.service, next) && TakeSized(body, next) == Got(r.args, |body|)
    ensures DecodeRequest(body) == Some(r)
  {
  }

  lemma PartStands(ps: seq<bytes>, i: nat, body: bytes)
    requires i < |ps| && body == Cat(ps, |ps|)
    ensures Holds(body, End(ps, i), ps[i]) && |body| == End(ps, |ps|)
  {
    PieceStands(ps, i, |ps|);
    EndIsLength(ps, |ps|);
  }

  /** Where the parts of a request stand. */
  lemma RequestLayout(r: Request, body: bytes)
    requires |r.service| < TWO_32 && |r.args| < TWO_32 && body == RequestBody(r)
    ensures |body| == 16 + |r.service| + |r.args|
    ensures Holds(body, 0, Big(r.corr, 8)) && Holds(body, 8, Big(|r.service|, 4)) && Holds(body, 12, r.service)
    ensures Holds(body, 12 + |r.service|, Big(|r.args|, 4)) && Holds(body, 16 + |r.service|, r.args)
  {
    var ps := RequestParts(r);
    FiveEnds(ps);
    PartStands(ps, 0, body);
    PartStands(ps, 1, body);
    PartStands(ps, 2, body);
    PartStands(ps, 3, body);
    PartStands(ps, 4, body);
  }

  /** A request that fits its length fields is read back as it was sent. */
  lemma RequestRoundTrip(r: Request)
    requires |r.service| < TWO_32 && |r.args| < TWO_32
    ensures DecodeRequest(RequestBody(r)) == Some(r)
  {
    RequestLayout(r, RequestBody(r));
    RequestReads(r, RequestBody(r));
  }

  lemma FiveEnds(ps: seq<bytes>)
    requires |ps| >= 4
    ensures End(ps, 0) == 0 && End(ps, 1) == |ps[0]| && End(ps, 2) == End(ps, 1) + |ps[1]|
    ensures End(ps, 3) == End(ps, 2) + |ps[2]|
    ensures End(ps, 4) == End(ps, 3) + |ps[3]| && (|ps| > 4 ==> End(ps, 5) == End(ps, 4) + |ps[4]|)
  {
  }

  lemma RequestReads(r: Request, body: bytes)
    requires |r.service| < TWO_32 && |r.args| < TWO_32 && |body| == 16 + |r.service| + |r.args|
    requires Holds(body, 0, Big(r.corr, 8)) && Holds(body, 8, Big(|r.service|, 4)) && Holds(body, 12, r.service)
    requires Holds(body, 12 + |r.service|, Big(|r.args|, 4)) && Holds(body, 16 + |r.service|, r.args)
    ensures DecodeRequest(body) == Some(r)
  {
    CorrBack(body, r.corr);
    SizedBack(body, 8, r.service);
    SizedBack(body, 12 + |r.service|, r.args);
    DecodeRequestIs(body, r, 12 + |r.service|);
  }

  lemma ReplyReads(r: Reply, body: bytes)
    requires |r.payload| < TWO_32 && |body| == 13 + |r.payload|
    requires Holds(body, 0, Big(r.corr, 8)) && Holds(body, 8, [if r.ok then 1 else 0])
    requires Holds(body, 9, Big(|r.payload|, 4)) && Holds(body, 13, r.payload)
    ensures DecodeReply(body) == Some(r)
  {
    CorrBack(body, r.corr);
    SizedBack(body, 9, r.payload);
    assert body[8] == body[8..9][0];
  }

  lemma ReplyRoundTrip(r: Reply)
    requires |r.payload| < TWO_32
    ensures DecodeReply(ReplyBody(r)) == Some(r)
  {
    var ps, body := ReplyParts(r), ReplyBody(r);
    FiveEnds(ps);
    PartStands(ps, 0, body);
    PartStands(ps, 1, body);
    PartStands(ps, 2, body);
    PartStands(ps, 3, body);
    ReplyReads(r, body);
  }
}
