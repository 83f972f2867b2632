/** `tun_to_raw_loop`: TUN packets leave as outer segments whose sequence number advances
    by a tenth of the octets sent. Client and proxy run the same loop; the flow and the
    bases they pass in differ. */
module RawSend {
  import opened Bytes
  import opened OuterPacket
  import Stream

  const TWO64: nat := 0x1_0000_0000_0000_0000

  type u64 = x: int | 0 <= x < TWO64

  class RawSendState {
    var realBytesSent: u64
    var fakeSeqOffset: u64

    constructor ()
      ensures realBytesSent == 0 && InStep()
    {
      realBytesSent, fakeSeqOffset := 0, 0;
    }

    predicate InStep()
      reads this
    {
      fakeSeqOffset == realBytesSent / 10
    }
  }

  /** The raw socket: what was sent, and which of the coming `sendto` calls take the whole
      packet; one that fails or takes a part ends the loop. */
  class RawSocket {
    var sent: seq<Octets>
    var outcomes: seq<bool>

    constructor (outcomes: seq<bool>)
      ensures sent == [] && this.outcomes == outcomes
    {
      sent, this.outcomes := [], outcomes;
    }

    method SendTo(packet: Octets) returns (whole: bool)
      modifies this
      ensures whole == Stream.Accepts(old(outcomes)) && outcomes == Stream.Later(old(outcomes))
      ensures sent == if whole then old(sent) + [packet] else old(sent)
    {
      whole := Stream.Accepts(outcomes);
      outcomes := Stream.Later(outcomes);
      if whole {
        sent := sent + [packet];
      }
    }
  }

  /** What the 64-bit counter shows after `octets` octets. */
  function Counted(octets: nat): u64 {
    octets % TWO64
  }

  /** Sequence number of a segment sent after `octets` inner octets. */
  function SeqAfter(base: u32, octets: nat): u32 {
    Add32(base, Counted(octets) / 10)
  }

  predicate AllBuildable(packets: seq<Octets>) {
    forall p :: p in packets ==> Buildable(p)
  }

  /** The sequence numbers of `packets`, sent one after the other after `octets` octets. */
  function Numbers(base: u32, octets: nat, packets: seq<Octets>): (r: seq<u32>)
    ensures |r| == |packets|
    decreases |packets|
  {
    if packets == [] then []
    else [SeqAfter(base, octets)] + Numbers(base, octets + |packets[0]|, packets[1..])
  }

  /** No drift: the k-th number is the base plus a tenth of all the octets counted before it,
      rounded down once, not a sum of rounded steps. */
  lemma {:induction false} KthNumber(base: u32, octets: nat, packets: seq<Octets>, k: nat)
    requires k < |packets|
    ensures Numbers(base, octets, packets)[k] == (base + (octets + |Flatten(packets[..k])|) % TWO64 / 10) % TWO32
    decreases |packets|
  {
    if k == 0 {
      assert packets[..0] == [];
    } else {
      KthNumber(base, octets + |packets[0]|, packets[1..], k - 1);
      assert packets[1..][..k - 1] == packets[..k][1..];
      assert packets[..k][0] == packets[0];
    }
  }

  lemma {:induction false} NumbersSnoc(base: u32, octets: nat, packets: seq<Octets>, p: Octets)
    ensures Numbers(base, octets, packets + [p])
         == Numbers(base, octets, packets) + [SeqAfter(base, octets + |Flatten(packets)|)]
    decreases |packets|
  {
    if packets == [] {
      assert [p][1..] == [];
    } else {
      assert (packets + [p])[1..] == packets[1..] + [p];
      NumbersSnoc(base, octets + |packets[0]|, packets[1..], p);
    }
  }

  /** The outer packets with the given sequence numbers. */
  function Wire(f: Flow, ackNum: u32, numbers: seq<u32>, packets: seq<Octets>): (w: seq<Octets>)
    requires |numbers| == |packets| && AllBuildable(packets)
    ensures |w| == |packets|
  {
    seq(|packets|, k requires 0 <= k < |packets| => Build(f, numbers[k], ackNum, packets[k]))
  }

  lemma WireSnoc(f: Flow, ackNum: u32, numbers: seq<u32>, packets: seq<Octets>, n: u32, p: Octets)
    requires |numbers| == |packets| && AllBuildable(packets) && Buildable(p)
    ensures AllBuildable(packets + [p])
    ensures Wire(f, ackNum, numbers + [n], packets + [p]) == Wire(f, ackNum, numbers, packets) + [Build(f, n, ackNum, p)]
  {
  }

  /** Across the programs: the far parser reads the k-th outer packet as the k-th inner
      packet under the k-th number. */
  lemma KthSegment(f: Flow, ackNum: u32, numbers: seq<u32>, packets: seq<Octets>, k: nat)
    requires |numbers| == |packets| && AllBuildable(packets)
    requires k < |packets|
    ensures Parse(Wire(f, ackNum, numbers, packets)[k], f) == Some(Segment(f, numbers[k], ackNum, FLAGS_PSH_ACK, packets[k]))
  {
    ParseBuild(f, numbers[k], ackNum, packets[k]);
  }

  /** The first segment of a fresh state carries the base itself. */
  lemma FirstSegment(f: Flow, base: u32, ackNum: u32, numbers: seq<u32>, packets: seq<Octets>)
    requires packets != [] && AllBuildable(packets) && numbers == Numbers(base, 0, packets)
    ensures Parse(Wire(f, ackNum, numbers, packets)[0], f) == Some(Segment(f, base, ackNum, FLAGS_PSH_ACK, packets[0]))
  {
    FirstNumber(base, packets);
    KthSegment(f, ackNum, numbers, packets, 0);
  }

  lemma FirstNumber(base: u32, packets: seq<Octets>)
    requires packets != []
    ensures Numbers(base, 0, packets)[0] == base
  {
    KthNumber(base, 0, packets, 0);
    assert packets[..0] == [];
  }

  /** Each segment moves the sequence number by a tenth of its length, rounded down or up,
      also across the wrap of the sequence number, exactly as long as the 64-bit counter does
      not wrap. */
  lemma StepRoundsDownOrUp(base: u32, octets: nat, p: Octets)
    requires Buildable(p)
    ensures var step := (SeqAfter(base, octets + |p|) - SeqAfter(base, octets)) % TWO32;
      (step == |p| / 10 || step == (|p| + 9) / 10) <==> Counted(octets) + |p| < TWO64
  {
    var before, after := Counted(octets), Counted(octets + |p|);
    CountedStep(octets, |p|);
    if before + |p| < TWO64 {
      WrapDifference(base + before / 10, base + after / 10);
    } else {
      WrapJump(base, before, after);
    }
  }

  lemma CountedStep(octets: nat, n: nat)
    requires n < TWO64
    ensures Counted(octets + n) == if Counted(octets) + n < TWO64 then Counted(octets) + n else Counted(octets) + n - TWO64
  {
  }

  lemma CountedSnoc(octets: nat, sent: seq<Octets>, p: Octets)
    ensures Counted(octets + |Flatten(sent + [p])|) == (Counted(octets + |Flatten(sent)|) + |p|) % TWO64
  {
    FlattenSnoc(sent, p);
  }

  /** When the counter wraps, the sequence number jumps by more than 0x6666_6666. */
  lemma WrapJump(base: u32, before: u64, after: u64)
    requires TWO64 - 1400 <= before && after < 1400
    ensures (Add32(base, after / 10) - Add32(base, before / 10)) % TWO32 > 0x6666_6666
  {
    var low := before / 10 - 0x1999_9999 * TWO32;
    assert 0x9999_9900 <= low <= 0x9999_9999;
    TruncationCommutes(base, before / 10);
    assert before / 10 % TWO32 == low;
    var x, y := Add32(base, low), Add32(base, after / 10);
    assert x == base + low || x == base + low - TWO32;
    assert y == base + after / 10 || y == base + after / 10 - TWO32;
  }

  lemma WrapDifference(x: nat, y: nat)
    requires x <= y < x + TWO32
    ensures (y % TWO32 - x % TWO32) % TWO32 == y - x
  {
    assert x == x / TWO32 * TWO32 + x % TWO32;
    assert y == y / TWO32 * TWO32 + y % TWO32;
  }

  /** Cutting the 64-bit offset to 32 bits first gives the same number. */
  lemma TruncationCommutes(base: u32, offset: nat)
    ensures Add32(base, offset % TWO32) == Add32(base, offset)
  {
    assert base + offset == base + offset % TWO32 + offset / TWO32 * TWO32;
  }

  /** Where a loop stands that started with the socket at `start` and `octets` octets
      counted: the wire holds the segments of `sent`, and the counters agree. */
  predicate Accounted(state: RawSendState, socket: RawSocket, start: seq<Octets>, octets: nat,
                      f: Flow, base: u32, ackNum: u32, sent: seq<Octets>)
    reads state, socket
  {
    && state.InStep()
    && state.realBytesSent == Counted(octets + |Flatten(sent)|)
    && AllBuildable(sent)
    && socket.sent == start + Wire(f, ackNum, Numbers(base, octets, sent), sent)
  }

  /** Builds one packet and hands it to the kernel. */
  method BuildAndSend(inner: Octets, f: Flow, seqNum: u32, ackNum: u32, socket: RawSocket,
                      ghost start: seq<Octets>, ghost numbers: seq<u32>, ghost sent: seq<Octets>)
    returns (built: bool, whole: bool)
    requires |numbers| == |sent| && AllBuildable(sent)
    requires socket.sent == start + Wire(f, ackNum, numbers, sent)
    modifies socket
    ensures built == Buildable(inner)
    ensures built && whole ==>
      && AllBuildable(sent + [inner])
      && socket.sent == start + Wire(f, ackNum, numbers + [seqNum], sent + [inner])
    ensures !(built && whole) ==> socket.sent == old(socket.sent)
    ensures built ==> whole == Stream.Accepts(old(socket.outcomes)) && socket.outcomes == Stream.Later(old(socket.outcomes))
  {
    var outer;
    built, outer := BuildOuterPacket(inner, f, seqNum, ackNum);
    whole := built;
    if built {
      WireSnoc(f, ackNum, numbers, sent, seqNum, inner);
      whole := socket.SendTo(outer[..]);
    }
  }

  /** The body of the loop for one packet. */
  method SendInner(inner: Octets, f: Flow, base: u32, ackNum: u32, state: RawSendState, socket: RawSocket,
                   ghost start: seq<Octets>, ghost octets: nat, ghost sent: seq<Octets>)
    returns (built: bool, whole: bool)
    requires Accounted(state, socket, start, octets, f, base, ackNum, sent)
    modifies state, socket
    ensures built == Buildable(inner)
    ensures built ==> whole == Stream.Accepts(old(socket.outcomes)) && socket.outcomes == Stream.Later(old(socket.outcomes))
    ensures Accounted(state, socket, start, octets, f, base, ackNum, if built && whole then sent + [inner] else sent)
  {
    var seqNum := Add32(base, state.fakeSeqOffset % TWO32);
    TruncationCommutes(base, state.fakeSeqOffset);
    NumbersSnoc(base, octets, sent, inner);
    CountedSnoc(octets, sent, inner);
    built, whole := BuildAndSend(inner, f, seqNum, ackNum, socket, start, Numbers(base, octets, sent), sent);
    if built && whole {
      state.realBytesSent := (state.realBytesSent + |inner|) % TWO64;
      state.fakeSeqOffset := state.realBytesSent / 10;
    }
  }

  /** How many of the packets leave: those before the first that cannot be built or whose
      `sendto` does not take it whole. */
  function Leaving(packets: seq<Octets>, outcomes: seq<bool>): (k: nat)
    ensures k <= |packets|
  {
    if packets == [] || !Buildable(packets[0]) || !Stream.Accepts(outcomes) then 0
    else 1 + Leaving(packets[1..], Stream.Later(outcomes))
  }

  lemma {:induction false} AllLeave(packets: seq<Octets>, outcomes: seq<bool>)
    requires AllBuildable(packets) && forall ok | ok in outcomes :: ok
    ensures Leaving(packets, outcomes) == |packets|
  {
    if packets != [] {
      assert packets[0] in packets && forall p | p in packets[1..] :: p in packets;
      assert outcomes != [] ==> outcomes[0] in outcomes && forall ok | ok in outcomes[1..] :: ok in outcomes;
      AllLeave(packets[1..], Stream.Later(outcomes));
    }
  }

  /** `sent` has left, `todo` may follow, and of `all` together the first `end` leave. */
  predicate OnCourse(sent: seq<Octets>, outcomes: seq<bool>, todo: seq<Octets>, all: seq<Octets>, end: nat) {
    sent + todo == all && |sent| + Leaving(todo, outcomes) == end
  }

  lemma NextLeaves(sent: seq<Octets>, outcomes: seq<bool>, inner: Octets, todo: seq<Octets>, all: seq<Octets>, end: nat)
    requires OnCourse(sent, outcomes, [inner] + todo, all, end)
    ensures Buildable(inner) && Stream.Accepts(outcomes) ==> OnCourse(sent + [inner], Stream.Later(outcomes), todo, all, end)
    ensures !(Buildable(inner) && Stream.Accepts(outcomes)) ==> sent == all[..end] && sent != all
  {
    assert sent + [inner] + todo == sent + ([inner] + todo);
    assert ([inner] + todo)[1..] == todo;
  }

  /** The wire gets exactly the segments of the packets read, up to the first that cannot be
      built or sent. */
  method TunToRawLoop(got: seq<Stream.TunRead>, f: Flow, initialized: bool, base: u32, ackNum: u32,
                      state: RawSendState, socket: RawSocket, stop: Stream.StopFlag)
    returns (sent: seq<Octets>)
    requires state.InStep()
    modifies state, socket, stop
    ensures var all := Stream.PacketsRead(got);
      sent == if initialized then all[..Leaving(all, old(socket.outcomes))] else []
    ensures Accounted(state, socket, old(socket.sent), old(state.realBytesSent), f, base, ackNum, sent)
    ensures stop.raised == (old(stop.raised) || !initialized || sent != Stream.PacketsRead(got) || Stream.ReadingEnds(got))
  {
    sent := [];
    if !initialized {
      stop.raised := true;
      return;
    }
    var rest := got;
    ghost var all, start, octets := Stream.PacketsRead(got), socket.sent, state.realBytesSent;
    ghost var end := Leaving(all, socket.outcomes);
    assert [] + all == all;
    while rest != []
      invariant Accounted(state, socket, start, octets, f, base, ackNum, sent)
      invariant OnCourse(sent, socket.outcomes, Stream.PacketsRead(rest), all, end)
      invariant stop.raised == old(stop.raised) && Stream.ReadingEnds(got) == Stream.ReadingEnds(rest)
      decreases |rest|
    {
      match rest[0] {
        case Packet(p) =>
          if p == [] {
            assert sent == all;
            stop.raised := true;
            return;
          }
          var inner := p[..Stream.Min(|p|, Stream.TUN_READ_SIZE)];
          NextLeaves(sent, socket.outcomes, inner, Stream.PacketsRead(rest[1..]), all, end);
          var built, whole := SendInner(inner, f, base, ackNum, state, socket, start, octets, sent);
          if !(built && whole) {
            stop.raised := true;
            return;
          }
          sent := sent + [inner];
        case Retry =>
        case ReadFailed(stopping) =>
          assert sent == all;
          if !stopping {
            stop.raised := true;
          }
          return;
      }
      rest := rest[1..];
    }
    assert sent == all;
  }
}
