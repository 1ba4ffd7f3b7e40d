/** The HTTP mode of the TCP servers: one response for every CRLF CRLF (the empty line that ends a header
section, section 2.1 of RFC 9112) in a stream that arrives in pieces of any size.

`Requests` and `Residue` say what a whole stream contains; `Serve` is the server's loop over one buffer
that it shifts in place. */
module HttpFraming {

  import opened Octets

  const TERMINATOR: seq<byte> := [13, 10, 13, 10]

  // ---------- a whole stream ----------

  predicate MatchAt(s: seq<byte>, i: nat) {
    i + 4 <= |s| && s[i..i + 4] == TERMINATOR
  }

  /** CR LF CR LF, the empty line that ends a header section. */
  ghost predicate CrlfCrlf(s: seq<byte>, i: nat) {
    i + 4 <= |s| && s[i] == 13 && s[i + 1] == 10 && s[i + 2] == 13 && s[i + 3] == 10
  }

  lemma MatchIsCrlfCrlf(s: seq<byte>, i: nat)
    ensures MatchAt(s, i) <==> CrlfCrlf(s, i)
  {
    if i + 4 <= |s| {
      var w := s[i..i + 4];
      assert w[0] == s[i] && w[1] == s[i + 1] && w[2] == s[i + 2] && w[3] == s[i + 3];
    }
  }

  ghost predicate NoCrlfCrlf(s: seq<byte>, end: nat) {
    forall j: nat :: j < end ==> !CrlfCrlf(s, j)
  }

  /** The first position of the terminator from `i` on, or the length of the stream. */
  function FirstFrom(s: seq<byte>, i: nat): (r: nat)
    requires i <= |s|
    ensures i <= r <= |s| && (r < |s| ==> r + 4 <= |s|)
    decreases |s| - i
  {
    if i == |s| || MatchAt(s, i) then i else FirstFrom(s, i + 1)
  }

  function First(s: seq<byte>): nat {
    FirstFrom(s, 0)
  }

  /** The stream cut behind each terminator that is found from the left, and what remains. */
  function Requests(s: seq<byte>): seq<seq<byte>>
    decreases |s|
  {
    var i := First(s);
    if i == |s| then [] else [s[..i + 4]] + Requests(s[i + 4..])
  }

  function Residue(s: seq<byte>): seq<byte>
    decreases |s|
  {
    var i := First(s);
    if i == |s| then s else Residue(s[i + 4..])
  }

  function Count(s: seq<byte>): nat {
    |Requests(s)|
  }

  ghost predicate NoMatchBelow(s: seq<byte>, i: nat) {
    forall j: nat :: j < i ==> !MatchAt(s, j)
  }

  lemma {:induction false} FirstFromIs(s: seq<byte>, from: nat, i: nat)
    requires from <= i <= |s| && (i < |s| ==> MatchAt(s, i)) && NoMatchBelow(s, i)
    ensures FirstFrom(s, from) == i
    decreases i - from
  {
    if from < i {
      assert !MatchAt(s, from);
      FirstFromIs(s, from + 1, i);
    }
  }

  lemma FirstIs(s: seq<byte>, i: nat)
    requires i <= |s| && (i < |s| ==> MatchAt(s, i)) && NoMatchBelow(s, i)
    ensures First(s) == i
  {
    FirstFromIs(s, 0, i);
  }

  lemma {:induction false} FirstFromMatches(s: seq<byte>, from: nat)
    requires from <= |s| && NoMatchBelow(s, from)
    ensures var r := FirstFrom(s, from); (r < |s| ==> MatchAt(s, r)) && NoMatchBelow(s, r)
    decreases |s| - from
  {
    if from < |s| && !MatchAt(s, from) {
      FirstFromMatches(s, from + 1);
    }
  }

  /** `First` finds a terminator, the first one, whenever there is one. */
  lemma FirstMatches(s: seq<byte>)
    ensures First(s) < |s| ==> MatchAt(s, First(s))
    ensures NoMatchBelow(s, First(s))
  {
    FirstFromMatches(s, 0);
  }

  /** The first terminator is the first one in any longer stream. */
  lemma FirstIsStable(a: seq<byte>, b: seq<byte>)
    requires First(a) < |a|
    ensures First(a + b) == First(a)
    ensures (a + b)[..First(a) + 4] == a[..First(a) + 4]
    ensures (a + b)[First(a) + 4..] == a[First(a) + 4..] + b
  {
    var i := First(a);
    FirstMatches(a);
    assert (a + b)[i..i + 4] == a[i..i + 4];
    forall j: nat | j < i ensures !MatchAt(a + b, j) {
      assert !MatchAt(a, j) && (a + b)[j..j + 4] == a[j..j + 4];
    }
    FirstIs(a + b, i);
  }

  lemma Unfold(s: seq<byte>)
    requires First(s) < |s|
    ensures Requests(s) == [s[..First(s) + 4]] + Requests(s[First(s) + 4..])
    ensures Residue(s) == Residue(s[First(s) + 4..])
  {
  }

  // ---------- what the cut means ----------

  ghost function Flatten(rs: seq<seq<byte>>): seq<byte> {
    if rs == [] then [] else rs[0] + Flatten(rs[1..])
  }

  ghost predicate NoMatch(s: seq<byte>) {
    forall j: nat :: !MatchAt(s, j)
  }

  /** A request ends with a terminator and holds no other. */
  ghost predicate IsRequest(r: seq<byte>) {
    |r| >= 4 && MatchAt(r, |r| - 4) && NoMatchBelow(r, |r| - 4)
  }

  ghost predicate Frames(s: seq<byte>, rs: seq<seq<byte>>, rest: seq<byte>) {
    && s == Flatten(rs) + rest && NoMatch(rest)
    && forall k :: 0 <= k < |rs| ==> IsRequest(rs[k])
  }

  lemma FirstIsRequest(s: seq<byte>)
    requires First(s) < |s|
    ensures IsRequest(s[..First(s) + 4])
  {
    var i := First(s);
    var r := s[..i + 4];
    FirstMatches(s);
    assert r[i..i + 4] == s[i..i + 4];
    forall j: nat | j < i ensures !MatchAt(r, j) {
      assert !MatchAt(s, j) && r[j..j + 4] == s[j..j + 4];
    }
  }

  lemma FramesPrepend(r: seq<byte>, s: seq<byte>, rs: seq<seq<byte>>, rest: seq<byte>)
    requires IsRequest(r) && Frames(s, rs, rest)
    ensures Frames(r + s, [r] + rs, rest)
  {
    assert ([r] + rs)[1..] == rs;
    assert r + (Flatten(rs) + rest) == (r + Flatten(rs)) + rest;
  }

  /** Every stream can be cut. */
  lemma {:induction false} CanBeFramed(s: seq<byte>) returns (rs: seq<seq<byte>>, rest: seq<byte>)
    ensures Frames(s, rs, rest)
    decreases |s|
  {
    if First(s) == |s| {
      NothingFound(s);
      rs, rest := [], s;
    } else {
      var r, t := s[..First(s) + 4], s[First(s) + 4..];
      rs, rest := CanBeFramed(t);
      FirstIsRequest(s);
      FramesPrepend(r, t, rs, rest);
      assert s == r + t;
      rs := [r] + rs;
    }
  }

  lemma NothingFound(s: seq<byte>)
    requires First(s) == |s|
    ensures Requests(s) == [] && Residue(s) == s && NoMatch(s)
  {
    FirstMatches(s);
  }

  lemma StartsWithRequest(r: seq<byte>, t: seq<byte>)
    requires IsRequest(r)
    ensures Requests(r + t) == [r] + Requests(t) && Residue(r + t) == Residue(t)
  {
    FirstIs(r, |r| - 4);
    FirstIsStable(r, t);
    Unfold(r + t);
    assert r[|r|..] + t == t;
  }

  /** There is no other way to cut a stream into requests and a rest. */
  lemma {:induction false} FramesAreUnique(s: seq<byte>, rs: seq<seq<byte>>, rest: seq<byte>)
    requires Frames(s, rs, rest)
    ensures rs == Requests(s) && rest == Residue(s)
    decreases |rs|
  {
    if rs == [] {
      assert s == rest;
      FirstIs(s, |s|);
      NothingFound(s);
    } else {
      var r, t := rs[0], Flatten(rs[1..]) + rest;
      assert s == r + t;
      StartsWithRequest(r, t);
      FramesAreUnique(t, rs[1..], rest);
    }
  }

  /** `Requests` and `Residue` are that way. */
  lemma RequestsFrame(s: seq<byte>)
    ensures Frames(s, Requests(s), Residue(s))
    ensures forall k :: 0 <= k < |Requests(s)| ==> IsHeader(Requests(s)[k])
    ensures NoCrlfCrlf(Residue(s), |Residue(s)|)
  {
    var rs, rest := CanBeFramed(s);
    FramesAreUnique(s, rs, rest);
    forall k | 0 <= k < |rs| ensures IsHeader(rs[k]) {
      RequestIsHeader(rs[k]);
    }
    NoMatchIsNoCrlfCrlf(rest, |rest|);
  }

  lemma NoMatchIsNoCrlfCrlf(s: seq<byte>, end: nat)
    ensures NoMatchBelow(s, end) <==> NoCrlfCrlf(s, end)
  {
    forall j: nat ensures MatchAt(s, j) <==> CrlfCrlf(s, j) {
      MatchIsCrlfCrlf(s, j);
    }
  }

  /** A header section and the empty line that ends it; nothing in it looks like one before that. */
  ghost predicate IsHeader(r: seq<byte>) {
    |r| >= 4 && CrlfCrlf(r, |r| - 4) && NoCrlfCrlf(r, |r| - 4)
  }

  lemma RequestIsHeader(r: seq<byte>)
    ensures IsRequest(r) <==> IsHeader(r)
  {
    if |r| >= 4 {
      MatchIsCrlfCrlf(r, |r| - 4);
      NoMatchIsNoCrlfCrlf(r, |r| - 4);
    }
  }

  /** What a client sends: texts that are each followed by CR LF CR LF, and a rest. */
  ghost function Sent(texts: seq<seq<byte>>, rest: seq<byte>): seq<byte> {
    if texts == [] then rest else (texts[0] + [13, 10, 13, 10]) + Sent(texts[1..], rest)
  }

  /** A text in which, with the four bytes behind it, no CR LF CR LF begins before its end. */
  ghost predicate IsText(t: seq<byte>) {
    NoCrlfCrlf(t + [13, 10, 13, 10], |t|)
  }

  ghost predicate Sends(s: seq<byte>, texts: seq<seq<byte>>, rest: seq<byte>) {
    && s == Sent(texts, rest) && NoCrlfCrlf(rest, |rest|)
    && forall k :: 0 <= k < |texts| ==> IsText(texts[k])
  }

  lemma TextIsRequest(t: seq<byte>)
    requires IsText(t)
    ensures IsRequest(t + [13, 10, 13, 10])
  {
    var r := t + [13, 10, 13, 10];
    assert CrlfCrlf(r, |t|) && |r| - 4 == |t|;
    RequestIsHeader(r);
  }

  /** As many requests are found as texts were sent, whatever the texts, and the rest remains. */
  lemma {:induction false} SentIsCounted(texts: seq<seq<byte>>, rest: seq<byte>)
    requires Sends(Sent(texts, rest), texts, rest)
    ensures Count(Sent(texts, rest)) == |texts| && Residue(Sent(texts, rest)) == rest
    decreases |texts|
  {
    if texts == [] {
      NoMatchIsNoCrlfCrlf(rest, |rest|);
      FirstIs(rest, |rest|);
      NothingFound(rest);
    } else {
      TextIsRequest(texts[0]);
      StartsWithRequest(texts[0] + [13, 10, 13, 10], Sent(texts[1..], rest));
      SentIsCounted(texts[1..], rest);
    }
  }

  lemma SendsIsCounted(s: seq<byte>)
    ensures forall texts, rest {:trigger Sends(s, texts, rest)} ::
              Sends(s, texts, rest) ==> Count(s) == |texts| && Residue(s) == rest
  {
    forall texts, rest | Sends(s, texts, rest) ensures Count(s) == |texts| && Residue(s) == rest {
      SentIsCounted(texts, rest);
    }
  }

  lemma HeaderIsText(r: seq<byte>)
    requires IsHeader(r)
    ensures r == r[..|r| - 4] + [13, 10, 13, 10] && IsText(r[..|r| - 4])
  {
    assert r[|r| - 4..] == [13, 10, 13, 10];
    assert r == r[..|r| - 4] + r[|r| - 4..];
  }

  /** Every stream can be said to have been sent like that. */
  lemma {:induction false} SomethingWasSent(rs: seq<seq<byte>>, rest: seq<byte>)
    returns (texts: seq<seq<byte>>)
    requires Frames(Flatten(rs) + rest, rs, rest)
    ensures |texts| == |rs| && Sends(Flatten(rs) + rest, texts, rest)
    decreases |rs|
  {
    if rs == [] {
      NoMatchIsNoCrlfCrlf(rest, |rest|);
      assert Flatten(rs) + rest == rest;
      texts := [];
    } else {
      RequestIsHeader(rs[0]);
      HeaderIsText(rs[0]);
      var more := SomethingWasSent(rs[1..], rest);
      texts := [rs[0][..|rs[0]| - 4]] + more;
      assert texts[1..] == more;
      assert Flatten(rs) + rest == rs[0] + (Flatten(rs[1..]) + rest);
    }
  }

  lemma EveryStreamIsSent(s: seq<byte>) returns (texts: seq<seq<byte>>)
    ensures |texts| == Count(s) && Sends(s, texts, Residue(s))
  {
    RequestsFrame(s);
    texts := SomethingWasSent(Requests(s), Residue(s));
  }

  lemma {:induction false} FlattenConcat(rs: seq<seq<byte>>, qs: seq<seq<byte>>)
    ensures Flatten(rs + qs) == Flatten(rs) + Flatten(qs)
    decreases |rs|
  {
    if rs == [] {
      assert rs + qs == qs;
    } else {
      assert (rs + qs)[1..] == rs[1..] + qs;
      FlattenConcat(rs[1..], qs);
    }
  }

  /** Bytes may be looked at as they come: only the residue of the earlier ones matters. */
  lemma Incremental(a: seq<byte>, b: seq<byte>)
    ensures Requests(a + b) == Requests(a) + Requests(Residue(a) + b)
    ensures Residue(a + b) == Residue(Residue(a) + b)
  {
    var c := Residue(a) + b;
    RequestsFrame(a);
    RequestsFrame(c);
    Join(a, Requests(a), Residue(a), b, Requests(c), Residue(c));
    FramesAreUnique(a + b, Requests(a) + Requests(c), Residue(c));
  }

  lemma Join(a: seq<byte>, rs: seq<seq<byte>>, rest: seq<byte>, b: seq<byte>, qs: seq<seq<byte>>, end: seq<byte>)
    requires Frames(a, rs, rest) && Frames(rest + b, qs, end)
    ensures Frames(a + b, rs + qs, end)
  {
    FlattenConcat(rs, qs);
    assert a + b == Flatten(rs) + (rest + b);
    assert Flatten(rs) + (Flatten(qs) + end) == (Flatten(rs) + Flatten(qs)) + end;
  }

  /** Terminators that do not overlap, from left to right. */
  ghost predicate Disjoint(s: seq<byte>, ps: seq<nat>) {
    && (forall k :: 0 <= k < |ps| ==> MatchAt(s, ps[k]))
    && (forall j, k :: 0 <= j < k < |ps| ==> ps[j] + 4 <= ps[k])
  }

  ghost function Shift(ps: seq<nat>, d: nat): seq<nat>
    requires forall k :: 0 <= k < |ps| ==> ps[k] >= d
  {
    seq(|ps|, k requires 0 <= k < |ps| => ps[k] - d)
  }

  /** Taking the first terminator each time finds as many as there can be without overlaps. */
  lemma {:induction false} GreedyIsMost(s: seq<byte>, ps: seq<nat>)
    requires Disjoint(s, ps)
    ensures |ps| <= Count(s)
    decreases |ps|
  {
    if ps != [] {
      var i := First(s);
      FirstMatches(s);
      assert MatchAt(s, ps[0]) && i <= ps[0];
      var d, t := i + 4, s[i + 4..];
      var qs := Shift(ps[1..], d);
      forall k | 0 <= k < |qs| ensures MatchAt(t, qs[k]) {
        assert MatchAt(s, ps[k + 1]);
        assert t[qs[k]..qs[k] + 4] == s[ps[k + 1]..ps[k + 1] + 4];
      }
      GreedyIsMost(t, qs);
    }
  }

  // ---------- the server ----------

  /** The pieces in which a stream arrives. */
  ghost function Joined(pieces: seq<seq<byte>>): seq<byte> {
    if pieces == [] then [] else pieces[0] + Joined(pieces[1..])
  }

  ghost predicate Pieces(pieces: seq<seq<byte>>) {
    forall k :: 0 <= k < |pieces| ==> pieces[k] != []
  }

  /** What is still to arrive when `n` bytes of the first piece have been read. */
  function Rest(pieces: seq<seq<byte>>, n: nat): seq<seq<byte>>
    requires pieces != [] && n <= |pieces[0]|
  {
    if n == |pieces[0]| then pieces[1..] else [pieces[0][n..]] + pieces[1..]
  }

  /** A connection: the pieces still to arrive, and how many responses the peer will still take before
  it goes away. `received` is everything read so far and `responses` the responses written. */
  class Connection {
    var arriving: seq<seq<byte>>
    var patience: nat
    var responses: nat
    ghost var received: seq<byte>

    constructor (pieces: seq<seq<byte>>, patience: nat)
      requires Pieces(pieces)
      ensures arriving == pieces && this.patience == patience && responses == 0 && received == []
    {
      arriving, this.patience, responses, received := pieces, patience, 0, [];
    }

    /** The stream that the peer sends. */
    ghost function Whole(): seq<byte>
      reads this
    {
      received + Joined(arriving)
    }

    /** Reads what there is and what fits; zero bytes mean the end of the stream, or no room. */
    method Read(buf: array<byte>, start: nat) returns (n: nat)
      requires start <= buf.Length && Pieces(arriving)
      modifies buf, `arriving, `received
      ensures Pieces(arriving) && start + n <= buf.Length
      ensures buf[..start] == old(buf[..start])
      ensures received == old(received) + buf[start..start + n]
      ensures Whole() == old(Whole())
      ensures n == 0 <==> start == buf.Length || old(arriving) == []
      ensures n == 0 ==> arriving == old(arriving) && received == old(received)
      ensures old(arriving) != [] ==>
                n == if |old(arriving)[0]| < buf.Length - start then |old(arriving)[0]| else buf.Length - start
      ensures n > 0 ==> |Joined(arriving)| < |old(Joined(arriving))|
    {
      if arriving == [] || start == buf.Length {
        return 0;
      }
      var piece := arriving[0];
      n := if |piece| <= buf.Length - start then |piece| else buf.Length - start;
      CopyIn(buf, start, piece, n);
      TakePiece(received, arriving, n);
      received := received + piece[..n];
      arriving := Rest(arriving, n);
    }

    method Respond() returns (ok: bool)
      modifies `patience, `responses
      ensures ok <==> old(patience) > 0
      ensures responses == old(responses) + if ok then 1 else 0
      ensures patience == old(patience) - if ok then 1 else 0
    {
      ok := patience > 0;
      if ok {
        patience, responses := patience - 1, responses + 1;
      }
    }
  }

  method CopyIn(buf: array<byte>, start: nat, piece: seq<byte>, n: nat)
    requires n <= |piece| && start + n <= buf.Length
    modifies buf
    ensures buf[..start] == old(buf[..start]) && buf[start..start + n] == piece[..n]
  {
    for k := 0 to n
      invariant buf[..start] == old(buf[..start])
      invariant buf[start..start + k] == piece[..k]
    {
      buf[start + k] := piece[k];
    }
  }

  lemma TakePiece(received: seq<byte>, pieces: seq<seq<byte>>, n: nat)
    requires Pieces(pieces) && pieces != [] && 0 < n <= |pieces[0]|
    ensures Pieces(Rest(pieces, n)) && |Joined(Rest(pieces, n))| < |Joined(pieces)|
    ensures (received + pieces[0][..n]) + Joined(Rest(pieces, n)) == received + Joined(pieces)
  {
    var p, tail := pieces[0], Joined(pieces[1..]);
    if n < |p| {
      assert Rest(pieces, n)[1..] == pieces[1..];
      assert Joined(Rest(pieces, n)) == p[n..] + tail;
    } else {
      assert Joined(Rest(pieces, n)) == p[n..] + tail;
    }
    Splice(received, p, n, tail);
  }

  lemma Splice(a: seq<byte>, p: seq<byte>, n: nat, tail: seq<byte>)
    requires n <= |p|
    ensures (a + p[..n]) + (p[n..] + tail) == a + (p + tail)
  {
  }

  /** The search for the terminator in the filled part of the buffer. */
  method IndexOf(buf: array<byte>, end: nat) returns (i: nat)
    requires end <= buf.Length
    ensures i == First(buf[..end]) <= end
    ensures i < end ==> CrlfCrlf(buf[..end], i)
    ensures NoCrlfCrlf(buf[..end], i)
  {
    i := 0;
    ghost var s := buf[..end];
    while i < end && !(i + 4 <= end && buf[i..i + 4] == TERMINATOR)
      invariant i <= end
      invariant forall j: nat :: j < i ==> !MatchAt(s, j)
    {
      assert i + 4 <= end ==> s[i..i + 4] == buf[i..i + 4];
      i := i + 1;
    }
    if i < end {
      assert s[i..i + 4] == buf[i..i + 4];
    }
    FirstIs(s, i);
    MatchIsCrlfCrlf(s, i);
    NoMatchIsNoCrlfCrlf(s, i);
  }

  /** Moves the bytes behind `consumed` to the front; source and target may overlap. */
  method CopyForwards(buf: array<byte>, consumed: nat, end: nat)
    requires consumed <= end <= buf.Length
    modifies buf
    ensures buf[..end - consumed] == old(buf[consumed..end])
  {
    for k := 0 to end - consumed
      invariant buf[..k] == old(buf[consumed..consumed + k])
      invariant buf[k..] == old(buf[k..])
    {
      assert buf[consumed + k] == buf[k..][consumed] == old(buf[k..])[consumed];
      buf[k] := buf[consumed + k];
    }
  }

  /** The server's loop invariant: what has been answered and what is in the buffer are what has been
  received. */
  ghost predicate InStep(responses: nat, held: seq<byte>, received: seq<byte>) {
    Count(received) == responses + Count(held) && Residue(received) == Residue(held)
  }

  /** After a request has been shifted out. */
  lemma ShiftedOut(responses: nat, held: seq<byte>, received: seq<byte>)
    requires InStep(responses, held, received) && First(held) < |held|
    ensures InStep(responses + 1, held[First(held) + 4..], received)
  {
  }

  /** After more bytes have been read behind a terminator-free buffer. */
  lemma MoreBytes(responses: nat, held: seq<byte>, received: seq<byte>, more: seq<byte>)
    requires InStep(responses, held, received) && First(held) == |held|
    ensures Residue(received) == held && Count(received) == responses
    ensures InStep(responses, held + more, received + more)
  {
    Incremental(received, more);
  }

  /** The buffer never fills up without a terminator, however the stream arrives. */
  ghost predicate Fits(stream: seq<byte>, size: nat) {
    forall k :: 0 <= k <= |stream| ==> |Residue(stream[..k])| < size
  }

  /** A handler that stopped where `Serve` may stop has seen the whole of a stream that fits. */
  lemma StopsAtTheEnd(received: seq<byte>, left: seq<seq<byte>>, size: nat, patience: nat)
    requires left == [] || |Residue(received)| == size || Count(received) > patience
    ensures var stream := received + Joined(left);
            Fits(stream, size) && Count(stream) <= patience ==> received == stream
  {
    var stream := received + Joined(left);
    Incremental(received, Joined(left));
    assert stream[..|received|] == received;
    if left == [] {
      assert stream == received;
    }
  }

  /** Answers every request in the buffer, as long as the peer takes the answers. */
  method Drain(c: Connection, buf: array<byte>, filled: nat) returns (end: nat, ok: bool)
    requires filled <= buf.Length && InStep(c.responses, buf[..filled], c.received)
    modifies buf, c`patience, c`responses
    ensures end <= filled && InStep(c.responses + if ok then 0 else 1, buf[..end], c.received)
    ensures c.responses + c.patience == old(c.responses + c.patience)
    ensures if ok then First(buf[..end]) == end else c.patience == 0
    ensures ok ==> NoCrlfCrlf(buf[..end], end)
  {
    end, ok := filled, true;
    while true
      invariant end <= filled && ok && InStep(c.responses, buf[..end], c.received)
      invariant c.responses + c.patience == old(c.responses + c.patience)
      decreases end
    {
      var i := IndexOf(buf, end);
      if i == end {
        return;
      }
      var consumed := i + 4;
      ShiftedOut(c.responses, buf[..end], c.received);
      assert buf[..end][consumed..] == buf[consumed..end];
      CopyForwards(buf, consumed, end);
      end := end - consumed;
      ok := c.Respond();
      if !ok {
        return;
      }
    }
  }

  /** Reads more bytes behind a buffer without a terminator. */
  method Refill(c: Connection, buf: array<byte>, filled: nat) returns (n: nat)
    requires filled <= buf.Length && Pieces(c.arriving)
    requires InStep(c.responses, buf[..filled], c.received) && First(buf[..filled]) == filled
    modifies buf, c`arriving, c`received
    ensures filled + n <= buf.Length && Pieces(c.arriving) && c.Whole() == old(c.Whole())
    ensures InStep(c.responses, buf[..filled + n], c.received)
    ensures n > 0 ==> |Joined(c.arriving)| < |old(Joined(c.arriving))|
    ensures n == 0 ==> c.arriving == [] || filled == buf.Length
    ensures n == 0 ==> Count(c.received) == c.responses && Residue(c.received) == buf[..filled]
  {
    ghost var held, received := buf[..filled], c.received;
    n := c.Read(buf, filled);
    MoreBytes(c.responses, held, received, buf[filled..filled + n]);
    assert buf[..filled + n] == held + buf[filled..filled + n];
  }

  /** The handler: at its end every request received has been answered, unless the peer went away, and
  the buffer holds what follows the last one; it ends at the end of the stream, or when the buffer is
  full without a terminator, or when the peer goes away. So for a stream that fits, neither depends on
  the pieces in which it arrived. */
  method Serve(c: Connection, buf: array<byte>) returns (end: nat)
    requires Pieces(c.arriving) && c.received == [] && c.responses == 0
    modifies c, buf
    ensures end <= buf.Length
    ensures Count(c.received) <= old(c.patience) ==> buf[..end] == Residue(c.received)
    ensures c.Whole() == old(Joined(c.arriving))
    ensures c.responses == if Count(c.received) <= old(c.patience) then Count(c.received) else old(c.patience)
    ensures c.arriving == [] || |Residue(c.received)| == buf.Length || Count(c.received) > old(c.patience)
    ensures var stream := old(Joined(c.arriving));
            Fits(stream, buf.Length) && Count(stream) <= old(c.patience) ==>
              c.responses == Count(stream) && buf[..end] == Residue(stream)
    ensures var stream := old(Joined(c.arriving));
            forall texts, rest {:trigger Sends(stream, texts, rest)} ::
              Sends(stream, texts, rest) && Fits(stream, buf.Length) && |texts| <= old(c.patience) ==>
                c.responses == |texts| && buf[..end] == rest
  {
    SendsIsCounted(Joined(c.arriving));
    end := 0;
    assert buf[..0] == [];
    while true
      invariant end <= buf.Length && Pieces(c.arriving)
      invariant InStep(c.responses, buf[..end], c.received)
      invariant c.Whole() == old(c.Whole())
      invariant c.responses + c.patience == old(c.patience)
      decreases |Joined(c.arriving)|
    {
      var ok;
      end, ok := Drain(c, buf, end);
      if !ok {
        StopsAtTheEnd(c.received, c.arriving, buf.Length, old(c.patience));
        return;
      }
      var n := Refill(c, buf, end);
      if n == 0 {
        StopsAtTheEnd(c.received, c.arriving, buf.Length, old(c.patience));
        return;
      }
      end := end + n;
    }
  }
}
