/** Octets and the fixed-width integers of the packet headers, with their
    network byte order (`htons`, `htonl`, `ntohs`, `ntohl`). */
module Bytes {

  type u8 = x: int | 0 <= x < 0x100
  type u16 = x: int | 0 <= x < 0x1_0000
  type u32 = x: int | 0 <= x < 0x1_0000_0000

  type Octets = seq<u8>

  const TWO32: nat := 0x1_0000_0000

  datatype Option<+T> = None | Some(value: T)

  /** `uint32_t` addition and subtraction, which wrap. */
  function Add32(x: int, y: int): u32 {
    (x + y) % TWO32
  }

  function Be16(v: u16): Octets {
    [v / 256, v % 256]
  }

  function Be32(v: u32): Octets {
    Be16(v / 0x1_0000) + Be16(v % 0x1_0000)
  }

  function Get16(b: Octets, i: nat): u16
    requires i + 2 <= |b|
  {
    b[i] as int * 256 + b[i + 1]
  }

  function Get32(b: Octets, i: nat): u32
    requires i + 4 <= |b|
  {
    Get16(b, i) as int * 0x1_0000 + Get16(b, i + 2)
  }

  /** Most significant octet first. */
  lemma NetworkOrder()
    ensures Be16(0x1234) == [0x12, 0x34] && Get16([0x12, 0x34], 0) == 0x1234
    ensures Be32(0x1234_5678) == [0x12, 0x34, 0x56, 0x78] && Get32([0x12, 0x34, 0x56, 0x78], 0) == 0x1234_5678
  {
  }

  /** All the octets of a list of packets or of received chunks, in order. */
  function Flatten(xs: seq<Octets>): Octets {
    if xs == [] then [] else xs[0] + Flatten(xs[1..])
  }

  lemma {:induction false} FlattenAppend(xs: seq<Octets>, ys: seq<Octets>)
    ensures Flatten(xs + ys) == Flatten(xs) + Flatten(ys)
  {
    if xs == [] {
      assert xs + ys == ys;
    } else {
      assert (xs + ys)[1..] == xs[1..] + ys;
      FlattenAppend(xs[1..], ys);
    }
  }

  lemma FlattenSnoc(xs: seq<Octets>, x: Octets)
    ensures Flatten(xs + [x]) == Flatten(xs) + x
  {
    FlattenAppend(xs, [x]);
    assert Flatten([x]) == x + Flatten([]);
  }
}
