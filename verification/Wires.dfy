/** A two-way byte connection, and `read_http_head` (src/proxy_bridge.rs). */
module Wires {
  import opened Wrappers

  type Byte = b: int | 0 <= b < 256

  /** The bytes of an ASCII text. */
  function Ascii(s: string): (b: seq<Byte>)
    ensures |b| == |s|
  {
    seq(|s|, i requires 0 <= i < |s| => (s[i] as int) % 256)
  }

  /**
   One end of a connection. `incoming` is everything the peer has still to say before it closes, `sent`
   everything written so far. Reads return the incoming bytes in order, cut wherever the network likes.
   */
  class Wire {
    var incoming: seq<Byte>
    var sent: seq<Byte>

    constructor (incoming: seq<Byte>)
      ensures this.incoming == incoming && sent == []
    {
      this.incoming := incoming;
      sent := [];
    }

    method Read(max: nat) returns (bytes: seq<Byte>)
      requires max > 0
      modifies this`incoming
      ensures old(incoming) == bytes + incoming && |bytes| <= max
      ensures bytes == [] <==> old(incoming) == []
    {
      var n := 0;
      if incoming != [] {
        n :| 1 <= n <= |incoming| && n <= max;
      }
      bytes := incoming[..n];
      incoming := incoming[n..];
    }

    /** `read_exact`: all of the bytes, or an early end of the connection. */
    method ReadExact(n: nat) returns (bytes: Option<seq<Byte>>)
      modifies this`incoming
      ensures |old(incoming)| >= n ==> bytes == Some(old(incoming)[..n]) && incoming == old(incoming)[n..]
      ensures |old(incoming)| < n ==> bytes.None?
    {
      if |incoming| < n {
        incoming := [];
        return None;
      }
      bytes := Some(incoming[..n]);
      incoming := incoming[n..];
    }

    method WriteAll(bytes: seq<Byte>)
      modifies this`sent
      ensures sent == old(sent) + bytes
    {
      sent := sent + bytes;
    }
  }

  // ---- HTTP heads ---------------------------------------------------------------------------------

  const MAX_HEADER_SIZE: nat := 65536
  const READ_SIZE: nat := 4096

  predicate BlankLineAt(s: seq<Byte>, i: nat) {
    i + 4 <= |s| && s[i] == 13 && s[i + 1] == 10 && s[i + 2] == 13 && s[i + 3] == 10
  }

  /** Where the head ends: just after the first CR LF CR LF at or after `from`. */
  function HeadEnd(s: seq<Byte>, from: nat := 0): (e: Option<nat>)
    requires from <= |s|
    ensures e.Some? ==> from + 4 <= e.value <= |s| && BlankLineAt(s, e.value - 4)
                        && forall i :: from <= i < e.value - 4 ==> !BlankLineAt(s, i)
    ensures e.None? ==> forall i :: from <= i ==> !BlankLineAt(s, i)
    decreases |s| - from
  {
    if from == |s| then None else if BlankLineAt(s, from) then Some(from + 4) else HeadEnd(s, from + 1)
  }

  /** The head ends with the first blank line, CR LF CR LF. */
  lemma HeadEndsAtBlankLine(head: seq<Byte>, more: seq<Byte>)
    requires forall i :: 0 <= i < |head| ==> !BlankLineAt(head + Ascii("\r\n\r\n"), i)
    ensures HeadEnd(head + Ascii("\r\n\r\n") + more) == Some(|head| + 4)
  {
    var read, blank := head + Ascii("\r\n\r\n"), Ascii("\r\n\r\n");
    assert read[|head|] == blank[0] && read[|head| + 1] == blank[1] && read[|head| + 2] == blank[2]
           && read[|head| + 3] == blank[3];
    HeadEndIs(read, |head| + 4);
    HeadEndOfPrefix(read, more);
  }

  /** A head found in what was read so far is the head of the whole stream, and none is missed. */
  lemma HeadEndOfPrefix(read: seq<Byte>, more: seq<Byte>)
    ensures HeadEnd(read).Some? ==> HeadEnd(read + more) == HeadEnd(read)
    ensures HeadEnd(read).None? ==> HeadEnd(read + more).None? || HeadEnd(read + more).value > |read|
  {
    var s := read + more;
    assert forall i: nat :: i + 4 <= |read| ==> (BlankLineAt(s, i) <==> BlankLineAt(read, i));
    if HeadEnd(read).Some? {
      HeadEndIs(s, HeadEnd(read).value);
    } else {
      assert forall i: nat :: i + 4 <= |read| ==> !BlankLineAt(s, i);
      assert HeadEnd(s).Some? ==> BlankLineAt(s, HeadEnd(s).value - 4);
    }
  }

  lemma HeadEndIs(s: seq<Byte>, e: nat)
    requires e >= 4 && BlankLineAt(s, e - 4) && forall i: nat :: i < e - 4 ==> !BlankLineAt(s, i)
    ensures HeadEnd(s) == Some(e)
  {
  }

  datatype HeadError = UnexpectedEof | TooLarge

  /** What reading a head from the stream `s` comes to, however the reads cut it. */
  ghost predicate HeadOutcome(s: seq<Byte>, left: seq<Byte>, r: Result<(seq<Byte>, seq<Byte>), HeadError>) {
    match r
    case Success((head, trailing)) =>
      HeadEnd(s).Some? && HeadEnd(s).value <= 65536
      && head == s[..HeadEnd(s).value] && s == head + trailing + left
    case Failure(TooLarge) => if HeadEnd(s).Some? then HeadEnd(s).value > 65536 else |s| > 65536
    case Failure(UnexpectedEof) => HeadEnd(s).None? && |s| <= 65536
  }

  /** Whether the read succeeds, and how it fails, depends on the stream alone; so does the head. */
  lemma OutcomeIgnoresCuts(s: seq<Byte>, left: seq<Byte>, left': seq<Byte>,
                           r: Result<(seq<Byte>, seq<Byte>), HeadError>,
                           r': Result<(seq<Byte>, seq<Byte>), HeadError>)
    requires HeadOutcome(s, left, r) && HeadOutcome(s, left', r')
    ensures r.Failure? ==> r' == r
    ensures r.Success? ==> r'.Success? && r'.value.0 == r.value.0
                           && r'.value.1 + left' == r.value.1 + left == s[|r.value.0|..]
  {
    if r.Success? {
      assert s[|r.value.0|..] == r.value.1 + left;
      assert s[|r.value.0|..] == r'.value.1 + left';
    }
  }

  lemma HeadFound(data: seq<Byte>, left: seq<Byte>)
    requires HeadEnd(data).Some?
    ensures var e := HeadEnd(data).value;
            HeadOutcome(data + left, left,
                        if e > MAX_HEADER_SIZE then Failure(TooLarge) else Success((data[..e], data[e..])))
  {
    HeadEndOfPrefix(data, left);
    var e := HeadEnd(data).value;
    assert (data + left)[..e] == data[..e];
    assert data[..e] + data[e..] + left == data + left;
  }

  lemma HeadTooLong(data: seq<Byte>, left: seq<Byte>)
    requires HeadEnd(data).None? && |data| > MAX_HEADER_SIZE
    ensures HeadOutcome(data + left, left, Failure(TooLarge))
  {
    HeadEndOfPrefix(data, left);
  }

  /** The incremental reader. What it holds is what it has read: never more than 69632 bytes. */
  method ReadHttpHead(stream: Wire) returns (r: Result<(seq<Byte>, seq<Byte>), HeadError>)
    modifies stream`incoming
    ensures HeadOutcome(old(stream.incoming), stream.incoming, r)
    ensures |stream.incoming| <= |old(stream.incoming)| <= |stream.incoming| + 69632
  {
    var data: seq<Byte> := [];
    ghost var all := stream.incoming;
    while true
      invariant all == data + stream.incoming
      invariant |data| <= MAX_HEADER_SIZE && HeadEnd(data).None?
      decreases |stream.incoming|
    {
      var bytes := stream.Read(READ_SIZE);
      if bytes == [] {
        assert all == data;
        return Failure(UnexpectedEof);
      }
      Reassociate(data, bytes, stream.incoming);
      data := data + bytes;
      if HeadEnd(data).Some? {
        var end := HeadEnd(data).value;
        HeadFound(data, stream.incoming);
        if end > MAX_HEADER_SIZE {
          return Failure(TooLarge);
        }
        return Success((data[..end], data[end..]));
      }
      if |data| > MAX_HEADER_SIZE {
        HeadTooLong(data, stream.incoming);
        return Failure(TooLarge);
      }
    }
  }

  lemma Reassociate<T>(a: seq<T>, b: seq<T>, c: seq<T>)
    ensures a + (b + c) == a + b + c
  {
  }
}
