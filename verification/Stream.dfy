/** The plain TCP VPN pair as a pipeline: TUN packets are written into a TCP stream by
    partial sends, arrive in arbitrary chunks, and are cut out again on the far side.
    Both directions run the same code, so one receiver and one producer stand for all
    four loops. */
module Stream {
  import opened Bytes
  import opened Ipv4

  // ---------- What one pass of the inner `while(true)` loop delivers ----------

  /** Pops packets until none is left: the packets and the octets that remain. */
  function Drain(buffer: Octets): (r: (seq<Octets>, Octets))
    decreases |buffer|
  {
    match Pop(buffer)
    case None => ([], buffer)
    case Some((p, rest)) => ([p] + Drain(rest).0, Drain(rest).1)
  }

  /** The whole receiver loop: append a chunk, drain, repeat. */
  function Receive(buffer: Octets, chunks: seq<Octets>): (seq<Octets>, Octets)
    decreases |chunks|
  {
    if chunks == [] then ([], buffer)
    else
      var (now, rest) := Drain(buffer + chunks[0]);
      var (later, left) := Receive(rest, chunks[1..]);
      (now + later, left)
  }

  /** Nothing is lost, invented or reordered, whatever the octets; what is delivered is
      well formed, and what remains cannot be popped. */
  lemma {:induction false} DrainConserves(buffer: Octets)
    ensures Flatten(Drain(buffer).0) + Drain(buffer).1 == buffer
    ensures forall p :: p in Drain(buffer).0 ==> WellFormed(p)
    ensures Pop(Drain(buffer).1).None?
    decreases |buffer|
  {
    match Pop(buffer)
    case None =>
    case Some((p, rest)) =>
      DrainConserves(rest);
      var (ps, left) := Drain(rest);
      assert ([p] + ps)[1..] == ps;
      assert Flatten([p] + ps) + left == p + (Flatten(ps) + left);
  }

  /** Draining early or late makes no difference. */
  lemma {:induction false} DrainConfluent(buffer: Octets, more: Octets)
    ensures Drain(buffer + more).0 == Drain(buffer).0 + Drain(Drain(buffer).1 + more).0
    ensures Drain(buffer + more).1 == Drain(Drain(buffer).1 + more).1
    decreases |buffer|
  {
    match Pop(buffer)
    case None =>
    case Some((p, rest)) =>
      PopExtends(buffer, more);
      DrainConfluent(rest, more);
      assert Drain(buffer + more).0 == [p] + Drain(rest + more).0;
  }

  /** Chunking confluence, malformed octets included: deliveries and leftover depend only
      on the concatenation of the chunks. */
  lemma {:induction false} ChunkingIrrelevant(buffer: Octets, chunks: seq<Octets>)
    requires Pop(buffer).None?
    ensures Receive(buffer, chunks) == Drain(buffer + Flatten(chunks))
    decreases |chunks|
  {
    if chunks == [] {
      assert buffer + Flatten(chunks) == buffer;
    } else {
      var rest := Drain(buffer + chunks[0]).1;
      DrainConserves(buffer + chunks[0]);
      ChunkingIrrelevant(rest, chunks[1..]);
      DrainConfluent(buffer + chunks[0], Flatten(chunks[1..]));
      assert buffer + Flatten(chunks) == buffer + chunks[0] + Flatten(chunks[1..]);
    }
  }

  /** A malformed header is absorbing for the whole receiver: once the octets at the head
      of the buffer are doomed, no later chunk is ever delivered from, and if they are not,
      some later chunk is. */
  lemma MalformedHeadAbsorbs(buffer: Octets)
    requires Pop(buffer).None?
    ensures Doomed(buffer) <==>
      forall chunks: seq<Octets> :: Receive(buffer, chunks) == ([], buffer + Flatten(chunks))
  {
    DoomedIffNothingEverPops(buffer);
    if Doomed(buffer) {
      forall chunks: seq<Octets> ensures Receive(buffer, chunks) == ([], buffer + Flatten(chunks)) {
        ChunkingIrrelevant(buffer, chunks);
        assert Pop(buffer + Flatten(chunks)).None?;
      }
    } else {
      var more: Octets :| Pop(buffer + more).Some?;
      ChunkingIrrelevant(buffer, [more]);
      assert Flatten([more]) == more + Flatten([]) == more;
      assert Receive(buffer, [more]).0 != [];
    }
  }

  // ---------- The stream refines a FIFO of packets ----------

  predicate AllWellFormed(packets: seq<Octets>) {
    forall p :: p in packets ==> WellFormed(p)
  }

  lemma PastFirst(p: Octets, tail: Octets, received: Octets)
    requires received <= p + tail && |received| >= |p|
    ensures received == p + received[|p|..] && received[|p|..] <= tail
  {
    var rest := received[|p|..];
    assert received == (p + tail)[..|received|];
    assert rest == tail[..|rest|];
  }

  /** Of the octets of well-formed packets, any prefix delivers exactly those packets that
      are complete in it, in order, and keeps a proper prefix of the next one. */
  lemma {:induction false} FifoAtAllTimes(packets: seq<Octets>, received: Octets)
    requires AllWellFormed(packets)
    requires received <= Flatten(packets)
    ensures var (delivered, left) := Drain(received);
      && delivered <= packets
      && (received == Flatten(packets) ==> delivered == packets && left == [])
      && (received != Flatten(packets) ==> |delivered| < |packets| && left < packets[|delivered|])
    decreases |packets|
  {
    if packets == [] {
      assert received == [];
    } else {
      var p := packets[0];
      var tail := Flatten(packets[1..]);
      assert Flatten(packets) == p + tail;
      if |received| < |p| {
        assert received == (p + tail)[..|received|] == p[..|received|];
        ProperPrefixNotPopped(p, received);
      } else {
        var rest := received[|p|..];
        PastFirst(p, tail, received);
        PopWellFormed(p, rest);
        FifoAtAllTimes(packets[1..], rest);
        assert packets == [p] + packets[1..];
      }
    }
  }

  lemma ProperPrefixNotPopped(p: Octets, b: Octets)
    requires WellFormed(p) && b < p
    ensures Pop(b).None?
  {
    if |b| >= 4 {
      assert TotalLength(b) == TotalLength(p);
    }
  }

  function Min(a: int, b: int): int {
    if a < b then a else b
  }

  /** What one TUN `read` returns: a packet (none means end of file), a retry, an error.
      `stopping`: the stop or signal flag is already up, so the loop leaves without raising
      anything. */
  datatype TunRead = Packet(packet: Octets) | Retry | ReadFailed(stopping: bool)

  const TUN_READ_SIZE: nat := 2000

  /** The packets the producer reads, each cut to the read buffer, before it leaves. */
  function PacketsRead(got: seq<TunRead>): seq<Octets> {
    if got == [] then []
    else match got[0]
      case Packet(p) => if p == [] then [] else [p[..Min(|p|, TUN_READ_SIZE)]] + PacketsRead(got[1..])
      case Retry => PacketsRead(got[1..])
      case ReadFailed(_) => []
  }

  /** Reading ends with the end of the file or an error of its own. */
  predicate ReadingEnds(got: seq<TunRead>) {
    if got == [] then false
    else match got[0]
      case Packet(p) => p == [] || ReadingEnds(got[1..])
      case Retry => ReadingEnds(got[1..])
      case ReadFailed(stopping) => !stopping
  }

  /** A well-formed packet survives the read buffer exactly when it fits. */
  lemma CutKeepsWellFormed(p: Octets)
    requires WellFormed(p)
    ensures WellFormed(p[..Min(|p|, TUN_READ_SIZE)]) <==> |p| <= TUN_READ_SIZE
  {
    var q := p[..Min(|p|, TUN_READ_SIZE)];
    assert TotalLength(q) == TotalLength(p);
    if |p| <= TUN_READ_SIZE {
      assert q == p;
    }
  }

  predicate WholePackets(got: seq<TunRead>) {
    forall r :: r in got && r.Packet? ==> WellFormed(r.packet) && |r.packet| <= TUN_READ_SIZE
  }

  lemma {:induction false} ReadsWellFormed(got: seq<TunRead>)
    requires WholePackets(got)
    ensures AllWellFormed(PacketsRead(got))
  {
    if got != [] {
      ReadsWellFormed(got[1..]);
      if got[0].Packet? {
        CutKeepsWellFormed(got[0].packet);
      }
    }
  }

  /** End to end. The producer has read `got` from its TUN and put `stream` into the
      connection (a prefix, as `TunToStreamLoop` promises); `chunks` is how much of it has
      arrived, cut in any way. The packets the receiver has written to the far TUN are a
      prefix of the packets read, and all of them once everything has arrived. */
  lemma TunnelIsFifo(got: seq<TunRead>, stream: Octets, chunks: seq<Octets>)
    requires WholePackets(got)
    requires stream <= Flatten(PacketsRead(got))
    requires Flatten(chunks) <= stream
    ensures Receive([], chunks).0 <= PacketsRead(got)
    ensures Flatten(chunks) == Flatten(PacketsRead(got)) ==> Receive([], chunks) == (PacketsRead(got), [])
  {
    ReadsWellFormed(got);
    ChunkingIrrelevant([], chunks);
    assert [] + Flatten(chunks) == Flatten(chunks);
    FifoAtAllTimes(PacketsRead(got), Flatten(chunks));
  }

  // ---------- The receiver ----------

  /** A `std::vector<uint8_t>` that is passed by reference. */
  class ByteVector {
    var bytes: Octets

    constructor ()
      ensures bytes == []
    {
      bytes := [];
    }
  }

  /** Whether the next write succeeds, the outcomes after it, and how many of `n` writes
      succeed before the first that fails. Beyond the list all succeed. */
  predicate Accepts(outcomes: seq<bool>) {
    outcomes == [] || outcomes[0]
  }

  function Later(outcomes: seq<bool>): seq<bool> {
    if outcomes == [] then [] else outcomes[1..]
  }

  function Accepted(outcomes: seq<bool>, n: nat): (k: nat)
    ensures k <= n
  {
    if n == 0 || !Accepts(outcomes) then 0 else 1 + Accepted(Later(outcomes), n - 1)
  }

  /** All are accepted if and only if none of the first `n` outcomes is a failure. */
  lemma {:induction false} AllAccepted(outcomes: seq<bool>, n: nat)
    ensures Accepted(outcomes, n) == n <==> forall i | 0 <= i < n && i < |outcomes| :: outcomes[i]
    decreases n
  {
    if n > 0 && Accepts(outcomes) {
      AllAccepted(Later(outcomes), n - 1);
      if outcomes != [] {
        assert forall i | 0 <= i < |outcomes| - 1 :: Later(outcomes)[i] == outcomes[i + 1];
        assert (forall i | 0 <= i < n && i < |outcomes| :: outcomes[i])
          <==> (forall i | 0 <= i < n - 1 && i < |Later(outcomes)| :: Later(outcomes)[i]) by {
          if forall i | 0 <= i < n - 1 && i < |Later(outcomes)| :: Later(outcomes)[i] {
            forall i | 0 <= i < n && i < |outcomes| ensures outcomes[i] {
              assert i > 0 ==> Later(outcomes)[i - 1] == outcomes[i];
            }
          }
        }
      }
    }
  }

  /** The TUN device as `write_packet_to_tun` sees it: what was written, and which of the
      coming writes succeed. */
  class Tun {
    var written: seq<Octets>
    var outcomes: seq<bool>

    constructor (outcomes: seq<bool>)
      ensures written == [] && this.outcomes == outcomes
    {
      written, this.outcomes := [], outcomes;
    }

    method Write(packet: Octets) returns (ok: bool)
      modifies this
      ensures ok == Accepts(old(outcomes)) && outcomes == Later(old(outcomes))
      ensures written == if ok then old(written) + [packet] else old(written)
    {
      ok := Accepts(outcomes);
      outcomes := Later(outcomes);
      if ok {
        written := written + [packet];
      }
    }
  }

  class StopFlag {
    var raised: bool

    constructor ()
      ensures !raised
    {
      raised := false;
    }
  }

  method TryPopIpv4Packet(buffer: ByteVector) returns (ok: bool, packet: Octets)
    modifies buffer
    ensures ok == Pop(old(buffer.bytes)).Some?
    ensures !ok ==> buffer.bytes == old(buffer.bytes) && packet == []
    ensures ok ==> (packet, buffer.bytes) == Pop(old(buffer.bytes)).value
  {
    packet := [];
    if |buffer.bytes| < IPV4_HEADER_SIZE {
      return false, packet;
    }
    var version, ihl := buffer.bytes[0] / 16, buffer.bytes[0] % 16;
    if version != 4 {
      return false, packet;
    }
    if ihl < 5 {
      return false, packet;
    }
    var ipHeaderLen := ihl * 4;
    if |buffer.bytes| < ipHeaderLen {
      return false, packet;
    }
    var totalLen := Get16(buffer.bytes, 2);
    if totalLen < ipHeaderLen {
      return false, packet;
    }
    if |buffer.bytes| < totalLen {
      return false, packet;
    }
    packet := buffer.bytes[..totalLen];
    buffer.bytes := buffer.bytes[totalLen..];
    ok := true;
  }

  /** With `written` on the TUN and `todo` still to be written, `all` is what it holds when
      every write succeeds, and with these outcomes it ends at length `end`. */
  predicate OnCourse(written: seq<Octets>, outcomes: seq<bool>, todo: seq<Octets>, all: seq<Octets>, end: nat) {
    written + todo == all && |written| + Accepted(outcomes, |todo|) == end
  }

  /** The next write stays on course, or is the end of it. */
  lemma NextWrite(written: seq<Octets>, outcomes: seq<bool>, packet: Octets, todo: seq<Octets>, all: seq<Octets>, end: nat)
    requires OnCourse(written, outcomes, [packet] + todo, all, end)
    ensures Accepts(outcomes) ==> OnCourse(written + [packet], Later(outcomes), todo, all, end)
    ensures !Accepts(outcomes) ==> |written| == end < |all| && written == all[..end]
  {
    assert written + [packet] + todo == written + ([packet] + todo);
  }

  lemma DrainCons(buffer: Octets, later: seq<Octets>)
    requires Pop(buffer).Some?
    ensures var (packet, rest) := Pop(buffer).value;
      Drain(buffer).0 + later == [packet] + (Drain(rest).0 + later) && Drain(buffer).1 == Drain(rest).1
  {
  }

  /** The inner loop, with `later` to be delivered after it. It ends after at most one round
      per 20 octets in the buffer, and early exactly at the first write that fails. */
  method DrainToTun(buffer: ByteVector, tun: Tun, ghost later: seq<Octets>, ghost all: seq<Octets>, ghost end: nat)
    returns (ok: bool)
    requires OnCourse(tun.written, tun.outcomes, Drain(buffer.bytes).0 + later, all, end)
    modifies buffer, tun
    ensures ok ==> buffer.bytes == Drain(old(buffer.bytes)).1 && OnCourse(tun.written, tun.outcomes, later, all, end)
    ensures !ok ==> |tun.written| == end < |all| && tun.written == all[..end]
  {
    ghost var left := Drain(buffer.bytes).1;
    while true
      invariant Drain(buffer.bytes).1 == left
      invariant OnCourse(tun.written, tun.outcomes, Drain(buffer.bytes).0 + later, all, end)
      decreases |buffer.bytes|
    {
      ghost var before, written, outcomes := buffer.bytes, tun.written, tun.outcomes;
      var popped, packet := TryPopIpv4Packet(buffer);
      if !popped {
        assert Drain(buffer.bytes).0 + later == later;
        return true;
      }
      DrainCons(before, later);
      NextWrite(written, outcomes, packet, Drain(buffer.bytes).0 + later, all, end);
      ok := tun.Write(packet);
      if !ok {
        return;
      }
    }
  }

  /** What one `recv` returns: octets (none means the peer closed), an interrupted call,
      or an error; `stopping` as for `TunRead`. */
  datatype Recv = Data(bytes: Octets) | Interrupted | Failed(stopping: bool)

  /** The chunks the loop takes in before it leaves. */
  function Chunks(recvs: seq<Recv>): seq<Octets> {
    if recvs == [] then []
    else match recvs[0]
      case Data(b) => if b == [] then [] else [b] + Chunks(recvs[1..])
      case Interrupted => Chunks(recvs[1..])
      case Failed(_) => []
  }

  /** One chunk, when `todo` is still to come and `left` is what the buffer must end with. */
  method TakeChunk(buffer: ByteVector, tun: Tun, b: Octets, ghost todo: seq<Octets>, ghost all: seq<Octets>, ghost left: Octets,
                   ghost end: nat)
    returns (ok: bool)
    requires OnCourse(tun.written, tun.outcomes, Receive(buffer.bytes, [b] + todo).0, all, end) && Receive(buffer.bytes, [b] + todo).1 == left
    modifies buffer, tun
    ensures ok ==> OnCourse(tun.written, tun.outcomes, Receive(buffer.bytes, todo).0, all, end) && Receive(buffer.bytes, todo).1 == left
    ensures !ok ==> |tun.written| == end < |all| && tun.written == all[..end]
  {
    ghost var now := Drain(buffer.bytes + b);
    assert ([b] + todo)[1..] == todo;
    assert Receive(buffer.bytes, [b] + todo).0 == now.0 + Receive(now.1, todo).0;
    buffer.bytes := buffer.bytes + b;
    ok := DrainToTun(buffer, tun, Receive(now.1, todo).0, all, end);
  }

  /** Receiving ends with the peer's close or an error of its own. */
  predicate ReceivingEnds(recvs: seq<Recv>) {
    if recvs == [] then false
    else match recvs[0]
      case Data(b) => b == [] || ReceivingEnds(recvs[1..])
      case Interrupted => ReceivingEnds(recvs[1..])
      case Failed(stopping) => !stopping
  }

  /** `client_to_tun_loop` and `proxy_to_tun_loop` over the results of successive `recv`
      calls; when they run out, another thread has raised the stop flag. */
  method StreamToTunLoop(recvs: seq<Recv>, tun: Tun, stop: StopFlag) returns (tunOk: bool, streamBuffer: ByteVector)
    modifies tun, stop
    ensures fresh(streamBuffer)
    ensures var delivered := Receive([], Chunks(recvs)).0; var k := Accepted(old(tun.outcomes), |delivered|);
      && tun.written == old(tun.written) + delivered[..k]
      && (tunOk <==> k == |delivered|)
    ensures tunOk ==> streamBuffer.bytes == Receive([], Chunks(recvs)).1
    ensures stop.raised == (old(stop.raised) || !tunOk || ReceivingEnds(recvs))
  {
    streamBuffer := new ByteVector();
    ghost var start := tun.written;
    ghost var delivered, left := Receive([], Chunks(recvs)).0, Receive([], Chunks(recvs)).1;
    ghost var all, end := start + delivered, |start| + Accepted(tun.outcomes, |delivered|);
    assert all[..end] == start + delivered[..end - |start|];
    var i := 0;
    while i < |recvs|
      invariant 0 <= i <= |recvs|
      invariant OnCourse(tun.written, tun.outcomes, Receive(streamBuffer.bytes, Chunks(recvs[i..])).0, all, end)
      invariant Receive(streamBuffer.bytes, Chunks(recvs[i..])).1 == left
      invariant stop.raised == old(stop.raised)
      invariant ReceivingEnds(recvs) == ReceivingEnds(recvs[i..])
    {
      assert recvs[i..][1..] == recvs[i + 1..];
      match recvs[i] {
        case Data(b) =>
          if b == [] {
            stop.raised := true;
            assert tun.written == all;
            return true, streamBuffer;
          }
          assert Chunks(recvs[i..]) == [b] + Chunks(recvs[i + 1..]);
          tunOk := TakeChunk(streamBuffer, tun, b, Chunks(recvs[i + 1..]), all, left, end);
          if !tunOk {
            stop.raised := true;
            return;
          }
        case Interrupted =>
        case Failed(stopping) =>
          if !stopping {
            stop.raised := true;
          }
          assert tun.written == all;
          return true, streamBuffer;
      }
      i := i + 1;
    }
    assert recvs[i..] == [];
    assert tun.written == all;
    tunOk := true;
  }

  // ---------- The producer ----------

  /** What one `send` does: the kernel takes some of the octets offered (at least one, at
      most all), or the call is interrupted, or it fails. The proxy does not take up an
      interrupted call again when the signal flag is up (`stopping`). */
  datatype Send = Took(count: nat) | SendInterrupted(stopping: bool) | SendFailed

  /** `Blocked`: the results ran out before the call returned. */
  datatype SendOutcome = Done | Error | Blocked

  class Socket {
    var stream: Octets

    constructor ()
      ensures stream == []
    {
      stream := [];
    }
  }

  predicate SendRefused(result: Send) {
    result == SendFailed || result == Took(0) || result == SendInterrupted(true)
  }

  predicate NoneRefused(results: seq<Send>) {
    forall r | r in results :: !SendRefused(r)
  }

  /** How many octets were taken, and by how many calls that took any. */
  function Capacity(results: seq<Send>): nat {
    if results == [] then 0 else (if results[0].Took? then results[0].count else 0) + Capacity(results[1..])
  }

  function Takes(results: seq<Send>): nat {
    if results == [] then 0 else (if results[0].Took? && results[0].count > 0 then 1 else 0) + Takes(results[1..])
  }

  lemma {:induction false} CountAppend(a: seq<Send>, b: seq<Send>)
    ensures Capacity(a + b) == Capacity(a) + Capacity(b) && Takes(a + b) == Takes(a) + Takes(b)
  {
    if a == [] {
      assert a + b == b;
    } else {
      assert (a + b)[1..] == a[1..] + b;
      CountAppend(a[1..], b);
    }
  }

  /** A stretch of results behind those before it. */
  lemma Further(results: seq<Send>, used: nat, more: nat)
    requires used + more <= |results|
    ensures var before, next, both := results[..used], results[used..][..more], results[..used + more];
      && Capacity(both) == Capacity(before) + Capacity(next) && Takes(both) == Takes(before) + Takes(next)
      && (NoneRefused(both) <==> NoneRefused(before) && NoneRefused(next))
  {
    var before, next := results[..used], results[used..][..more];
    assert results[..used + more] == before + next;
    CountAppend(before, next);
  }

  /** One more result. */
  lemma OneMore(results: seq<Send>, used: nat)
    requires used < |results|
    ensures var r, before, after := results[used], results[..used], results[..used + 1];
      && Capacity(after) == Capacity(before) + (if r.Took? then r.count else 0)
      && Takes(after) == Takes(before) + (if r.Took? && r.count > 0 then 1 else 0)
      && (NoneRefused(after) <==> NoneRefused(before) && !SendRefused(r))
      && (SendRefused(r) ==> !NoneRefused(results))
  {
    Further(results, used, 1);
    assert results[used..][..1] == [results[used]] && results[used] in results;
    assert [results[used]][1..] == [];
  }

  /** `send_all`, from the results alone. It is done at the first result by which the kernel
      has taken as many octets as there are; it gives up at the first refusal before that;
      otherwise it is still waiting, and the stream holds what was taken. */
  method SendAll(socket: Socket, data: Octets, results: seq<Send>) returns (outcome: SendOutcome, used: nat)
    modifies socket
    ensures used <= |results|
    ensures outcome.Done? ==> socket.stream == old(socket.stream) + data
    ensures outcome.Done? ==> NoneRefused(results[..used]) && Capacity(results[..used]) >= |data|
    ensures outcome.Done? && used > 0 ==> Capacity(results[..used - 1]) < |data|
    ensures outcome.Done? && data == [] ==> used == 0
    ensures outcome.Error? ==> used > 0 && NoneRefused(results[..used - 1]) && SendRefused(results[used - 1])
    ensures outcome.Error? ==> var taken := Capacity(results[..used - 1]);
      taken < |data| && socket.stream == old(socket.stream) + data[..taken]
    ensures outcome.Blocked? ==> used == |results| && NoneRefused(results)
    ensures outcome.Blocked? ==> Capacity(results) < |data| && socket.stream == old(socket.stream) + data[..Capacity(results)]
    ensures NoneRefused(results) && Capacity(results) >= |data| ==> outcome.Done?
    ensures Takes(results[..used]) <= |socket.stream| - |old(socket.stream)|
  {
    var sent := 0;
    used := 0;
    while sent < |data|
      invariant 0 <= sent <= |data|
      invariant used <= |results|
      invariant socket.stream == old(socket.stream) + data[..sent]
      invariant NoneRefused(results[..used]) && sent == Min(Capacity(results[..used]), |data|)
      invariant used > 0 ==> Capacity(results[..used - 1]) < |data|
      invariant data == [] ==> used == 0
      invariant Takes(results[..used]) <= sent
      decreases |results| - used
    {
      if used == |results| {
        assert results[..used] == results;
        return Blocked, used;
      }
      OneMore(results, used);
      var result := results[used];
      used := used + 1;
      match result {
        case Took(count) =>
          if count == 0 {
            return Error, used;
          }
          var n := Min(count, |data| - sent);
          socket.stream := socket.stream + data[sent..sent + n];
          assert data[..sent] + data[sent..sent + n] == data[..sent + n];
          sent := sent + n;
        case SendInterrupted(stopping) =>
          if stopping {
            return Error, used;
          }
        case SendFailed =>
          return Error, used;
      }
    }
    assert data[..sent] == data;
    outcome := Done;
  }

  /** `todo` is still to be sent, and `whole` is what the stream holds then; of `results` the
      first `used` are used up, none a refusal, and each that took octets took at least one
      of those beyond length `base`. */
  predicate Sending(stream: Octets, todo: seq<Octets>, whole: Octets, results: seq<Send>, used: nat, base: nat) {
    && stream + Flatten(todo) == whole
    && used <= |results| && NoneRefused(results[..used]) && Takes(results[..used]) + base <= |stream|
  }

  /** The next packet of several. */
  method SendNext(socket: Socket, p: Octets, ghost todo: seq<Octets>, ghost whole: Octets, results: seq<Send>, from: nat, ghost base: nat)
    returns (outcome: SendOutcome, used: nat)
    requires Sending(socket.stream, [p] + todo, whole, results, from, base)
    modifies socket
    ensures old(socket.stream) <= socket.stream <= whole
    ensures outcome.Done? ==> Sending(socket.stream, todo, whole, results, used, base)
    ensures !outcome.Done? ==> |socket.stream| < |whole|
    ensures used <= |results| && Takes(results[..used]) + base <= |socket.stream|
    ensures outcome.Error? ==> used > 0 && NoneRefused(results[..used - 1]) && SendRefused(results[used - 1]) && !NoneRefused(results)
    ensures outcome.Blocked? ==> used == |results| && NoneRefused(results) && Takes(results) + base <= |socket.stream|
  {
    ghost var before := socket.stream;
    StreamNext(before, p, todo);
    var more;
    outcome, more := SendAll(socket, p, results[from..]);
    Further(results, from, more);
    used := from + more;
    if outcome.Error? {
      Further(results, from, more - 1);
      assert results[from..][more - 1] == results[used - 1] && results[used - 1] in results;
      SentPart(before, p, todo, whole, Capacity(results[from..][..more - 1]));
    } else if outcome.Blocked? {
      assert results[..used] == results && results[from..][..more] == results[from..];
      SentPart(before, p, todo, whole, Capacity(results[from..]));
    }
  }

  lemma StreamNext(stream: Octets, p: Octets, todo: seq<Octets>)
    ensures stream + Flatten([p] + todo) == (stream + p) + Flatten(todo)
  {
    assert ([p] + todo)[1..] == todo;
  }

  lemma SentPart(stream: Octets, p: Octets, todo: seq<Octets>, whole: Octets, n: nat)
    requires (stream + p) + Flatten(todo) == whole && n < |p|
    ensures stream <= stream + p[..n] <= whole && |stream + p[..n]| < |whole|
  {
  }

  /** `tun_to_proxy_loop` and `tun_to_client_loop`: the stream grows to a prefix of the
      packets read, laid end to end, and to all of them unless a send is refused or there are
      too few results. */
  method TunToStreamLoop(got: seq<TunRead>, results: seq<Send>, socket: Socket, stop: StopFlag)
    returns (outcome: SendOutcome, used: nat)
    modifies socket, stop
    ensures old(socket.stream) <= socket.stream <= old(socket.stream) + Flatten(PacketsRead(got))
    ensures used <= |results| && Takes(results[..used]) <= |socket.stream| - |old(socket.stream)|
    ensures outcome.Done? ==> socket.stream == old(socket.stream) + Flatten(PacketsRead(got))
    ensures outcome.Error? ==> stop.raised && 0 < used && NoneRefused(results[..used - 1]) && SendRefused(results[used - 1])
    ensures outcome.Blocked? ==> used == |results| && NoneRefused(results) && stop.raised == old(stop.raised)
    ensures outcome.Blocked? ==> |socket.stream| - |old(socket.stream)| < |Flatten(PacketsRead(got))|
    ensures NoneRefused(results) && Takes(results) >= |Flatten(PacketsRead(got))| ==> outcome.Done?
    ensures outcome.Done? ==> stop.raised == (old(stop.raised) || ReadingEnds(got))
  {
    var rest := got;
    used := 0;
    ghost var start, whole := socket.stream, socket.stream + Flatten(PacketsRead(got));
    assert results[..0] == [];
    while rest != []
      invariant start <= socket.stream && Sending(socket.stream, PacketsRead(rest), whole, results, used, |start|)
      invariant stop.raised == old(stop.raised) && ReadingEnds(got) == ReadingEnds(rest)
      decreases |rest|
    {
      match rest[0] {
        case Packet(p) =>
          if p == [] {
            stop.raised := true;
            return Done, used;
          }
          var n := Min(|p|, TUN_READ_SIZE);
          outcome, used := SendNext(socket, p[..n], PacketsRead(rest[1..]), whole, results, used, |start|);
          if !outcome.Done? {
            if outcome.Error? {
              stop.raised := true;
            }
            return;
          }
        case Retry =>
        case ReadFailed(stopping) =>
          if !stopping {
            stop.raised := true;
          }
          return Done, used;
      }
      rest := rest[1..];
    }
    outcome := Done;
  }

  // ---------- Both loops ----------

  /** The octets of `lengths`, counted. */
  function Total(lengths: seq<nat>): nat {
    if lengths == [] then 0 else lengths[0] + Total(lengths[1..])
  }

  /** The network: the stream arrives in chunks of the given lengths as far as it reaches; a
      length of nothing is an interrupted call. */
  method Arrive(stream: Octets, lengths: seq<nat>) returns (recvs: seq<Recv>, rest: Octets)
    ensures Flatten(Chunks(recvs)) + rest == stream
    ensures |Flatten(Chunks(recvs))| == Min(Total(lengths), |stream|)
  {
    recvs, rest := [], [];
    if lengths == [] {
      rest := stream;
      assert stream == [] ==> rest == [];
      return;
    }
    var n := Min(lengths[0], |stream|);
    var later;
    later, rest := Arrive(stream[n..], lengths[1..]);
    recvs := [if n == 0 then Interrupted else Data(stream[..n])] + later;
    assert recvs[1..] == later;
    if n > 0 {
      assert Chunks(recvs) == [stream[..n]] + Chunks(later);
      assert Flatten(Chunks(recvs)) == stream[..n] + Flatten(Chunks(later));
      assert stream == stream[..n] + stream[n..];
    }
  }

  /** The whole tunnel in one direction, for every schedule of partial sends and every way the
      stream is cut: the packets written to the far TUN are a prefix of those read from the
      near one; and all of them if no send is refused, there are as many sends as octets,
      the stream arrives and no write fails. */
  method Tunnel(got: seq<TunRead>, results: seq<Send>, lengths: seq<nat>, far: Tun)
    returns (outcome: SendOutcome, sent: nat, tunOk: bool)
    requires WholePackets(got)
    modifies far
    ensures old(far.written) <= far.written <= old(far.written) + PacketsRead(got)
    ensures outcome.Done? && Total(lengths) >= sent && tunOk ==> far.written == old(far.written) + PacketsRead(got)
    ensures sent <= |Flatten(PacketsRead(got))| && (outcome.Done? ==> sent == |Flatten(PacketsRead(got))|)
    ensures var octets := |Flatten(PacketsRead(got))|;
      NoneRefused(results) && Takes(results) >= octets && Total(lengths) >= octets && (forall ok | ok in old(far.outcomes) :: ok)
      ==> far.written == old(far.written) + PacketsRead(got)
  {
    var socket := new Socket();
    var here := new StopFlag();
    var there := new StopFlag();
    var used;
    outcome, used := TunToStreamLoop(got, results, socket, here);
    assert [] + Flatten(PacketsRead(got)) == Flatten(PacketsRead(got));
    sent := |socket.stream|;
    var recvs, rest := Arrive(socket.stream, lengths);
    TunnelIsFifo(got, socket.stream, Chunks(recvs));
    ghost var delivered := Receive([], Chunks(recvs)).0;
    AllAccepted(far.outcomes, |delivered|);
    assert forall i | 0 <= i < |far.outcomes| :: far.outcomes[i] in far.outcomes;
    var buffer;
    tunOk, buffer := StreamToTunLoop(recvs, far, there);
    assert tunOk ==> delivered[..|delivered|] == delivered;
  }
}
