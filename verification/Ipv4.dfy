/** The IPv4 header fields the programs look at, and the two functions that cut
    an inner packet out of a buffer: `try_pop_ipv4_packet` of the TCP VPN pair and
    `extract_inner_ipv4_packet` of the LTE pair. */
module Ipv4 {
  import opened Bytes

  const IPV4_HEADER_SIZE: nat := 20
  /** `TUN_MTU` of the LTE pair. */
  const TUN_MTU: nat := 1400

  function Version(b: Octets): u8
    requires |b| >= 1
  {
    b[0] / 16
  }

  function HeaderLen(b: Octets): u8
    requires |b| >= 1
  {
    b[0] % 16 * 4
  }

  function TotalLength(b: Octets): u16
    requires |b| >= 4
  {
    Get16(b, 2)
  }

  /** The whole of `b` is one IPv4 packet, as far as version and lengths say. */
  predicate WellFormed(b: Octets) {
    && |b| >= IPV4_HEADER_SIZE
    && Version(b) == 4
    && IPV4_HEADER_SIZE <= HeaderLen(b) <= |b|
    && TotalLength(b) == |b|
  }

  /** What `try_pop_ipv4_packet` takes from the front of `buffer`, and what it leaves. */
  function Pop(buffer: Octets): (r: Option<(Octets, Octets)>)
    ensures r.Some? ==> r.value.0 + r.value.1 == buffer && |r.value.0| >= IPV4_HEADER_SIZE && WellFormed(r.value.0)
  {
    if |buffer| < IPV4_HEADER_SIZE then None
    else if Version(buffer) != 4 then None
    else if HeaderLen(buffer) < IPV4_HEADER_SIZE then None
    else if |buffer| < HeaderLen(buffer) then None
    else if TotalLength(buffer) < HeaderLen(buffer) then None
    else if |buffer| < TotalLength(buffer) then None
    else Some((buffer[..TotalLength(buffer)], buffer[TotalLength(buffer)..]))
  }

  /** `extract_inner_ipv4_packet`: the payload itself, or nothing. */
  function ExtractInner(payload: Octets): Option<Octets> {
    if |payload| < IPV4_HEADER_SIZE then None
    else if Version(payload) != 4 then None
    else if HeaderLen(payload) < IPV4_HEADER_SIZE then None
    else if |payload| < HeaderLen(payload) then None
    else if TotalLength(payload) < HeaderLen(payload) then None
    else if TotalLength(payload) != |payload| then None
    else if TotalLength(payload) > TUN_MTU then None
    else Some(payload[..TotalLength(payload)])
  }

  /** The two cutters agree: the LTE pair accepts a payload exactly when the TCP pair
      would pop the whole of it, nothing left, and it is not longer than the MTU; both
      then yield the payload itself. Either way it is one well-formed packet. */
  lemma ParsersAgree(b: Octets)
    ensures ExtractInner(b) == Some(b) <==> Pop(b) == Some((b, [])) && |b| <= TUN_MTU
    ensures ExtractInner(b) == None <==> !(Pop(b) == Some((b, [])) && |b| <= TUN_MTU)
    ensures Pop(b) == Some((b, [])) <==> WellFormed(b)
  {
    if WellFormed(b) {
      assert b[..|b|] == b;
      assert b[|b|..] == [];
    }
  }

  /** More octets behind a packet never change which packet is popped. */
  lemma PopExtends(buffer: Octets, more: Octets)
    requires Pop(buffer).Some?
    ensures Pop(buffer + more) == Some((Pop(buffer).value.0, Pop(buffer).value.1 + more))
  {
    var n := TotalLength(buffer);
    assert TotalLength(buffer + more) == n;
    assert (buffer + more)[..n] == buffer[..n];
    assert (buffer + more)[n..] == buffer[n..] + more;
  }

  /** A well-formed packet at the front is popped whole, whatever follows. */
  lemma PopWellFormed(p: Octets, more: Octets)
    requires WellFormed(p)
    ensures Pop(p + more) == Some((p, more))
  {
    ParsersAgree(p);
    PopExtends(p, more);
    assert [] + more == more;
  }

  /** The octets read so far already rule out every later pop: a wrong version or header
      length in the first octet, or a total length below the header length. */
  predicate Doomed(b: Octets) {
    || (|b| >= 1 && (Version(b) != 4 || HeaderLen(b) < IPV4_HEADER_SIZE))
    || (|b| >= 4 && TotalLength(b) < HeaderLen(b))
  }

  /** `Doomed` is the exact condition, also on buffers too short to be looked at: nothing
      can be popped after any number of later octets if and only if it holds. */
  lemma DoomedIffNothingEverPops(b: Octets)
    ensures Doomed(b) <==> forall more: Octets :: Pop(b + more).None?
  {
    if Doomed(b) {
      forall more: Octets ensures Pop(b + more).None? {
        assert |b| >= 1 ==> (b + more)[0] == b[0];
        assert |b| >= 4 ==> TotalLength(b + more) == TotalLength(b);
      }
    } else {
      var p := Completion(b);
      assert Pop(b + p).Some?;
    }
  }

  /** Octets that turn a buffer that is not doomed into one with a packet at its front. */
  function Completion(b: Octets): (p: Octets)
    requires !Doomed(b)
    ensures Pop(b + p).Some?
  {
    var fill := seq<u8>(0x1_0000, i => 0xff);
    var p := if b == [] then [0x4f] + fill else fill;
    assert (b + p)[0] == if b == [] then 0x4f else b[0];
    assert Version(b + p) == 4;
    assert 20 <= HeaderLen(b + p) <= 60;
    assert TotalLength(b + p) >= HeaderLen(b + p) by {
      if |b| >= 4 {
        assert TotalLength(b + p) == TotalLength(b);
      } else {
        assert (b + p)[3] == 0xff;
      }
    }
    p
  }
}
