/** The Internet checksum (section 1 of RFC 1071) as the builders compute it. */
module Checksum {
  import opened Bytes

  /** Sum of the big-endian 16-bit words, an odd last octet padded with zero. */
  function WordSum(data: Octets): nat
  {
    if |data| == 0 then 0
    else if |data| == 1 then data[0] as int * 256
    else Get16(data, 0) as int + WordSum(data[2..])
  }

  /** Folding the carries back in until 16 bits remain. */
  function Fold(sum: nat): (r: u16)
    ensures sum == 0 <==> r == 0
    decreases sum
  {
    if sum < 0x1_0000 then sum else Fold(sum % 0x1_0000 + sum / 0x1_0000)
  }

  /** The checksum put on the wire. */
  function Complement(data: Octets): (r: u16) {
    0xffff - Fold(WordSum(data))
  }

  /** The receiver's test: the folded sum over data that includes its checksum. */
  predicate Verifies(data: Octets) {
    Fold(WordSum(data)) == 0xffff
  }

  /** Sums add over a split at an even offset. */
  lemma {:induction false} WordSumAppend(a: Octets, b: Octets)
    requires |a| % 2 == 0
    ensures WordSum(a + b) == WordSum(a) + WordSum(b)
    decreases |a|
  {
    if a == [] {
      assert a + b == b;
    } else {
      assert (a + b)[2..] == a[2..] + b;
      assert Get16(a + b, 0) == Get16(a, 0);
      WordSumAppend(a[2..], b);
    }
  }

  lemma WordSumBe16(v: u16)
    ensures WordSum(Be16(v)) == v
  {
    assert Get16(Be16(v), 0) == v;
    assert Be16(v)[2..] == [];
  }

  /** Folding takes away a multiple of 65535. */
  lemma {:induction false} FoldQuotient(sum: nat) returns (k: nat)
    ensures sum == Fold(sum) + k * 0xffff
    decreases sum
  {
    if sum < 0x1_0000 {
      k := 0;
    } else {
      var j := FoldQuotient(sum % 0x1_0000 + sum / 0x1_0000);
      k := j + sum / 0x1_0000;
    }
  }

  /** `Fold` in closed form: the residue modulo 65535, with 65535 instead of 0 for every
      sum but zero. */
  lemma FoldClosedForm(sum: nat)
    ensures Fold(sum) == if sum == 0 then 0 else 1 + (sum - 1) % 0xffff
  {
    if sum > 0 {
      var k := FoldQuotient(sum);
      assert sum - 1 == k * 0xffff + (Fold(sum) - 1);
      ModOfMultiple(k, Fold(sum) - 1);
    }
  }

  lemma ModOfMultiple(k: nat, r: nat)
    requires r < 0xffff
    ensures (k * 0xffff + r) % 0xffff == r
  {
  }

  /** A sum, its complement added, folds to all ones. */
  lemma ComplementCompletes(sum: nat)
    ensures Fold(sum + (0xffff - Fold(sum) as int)) == 0xffff
  {
    var k := FoldQuotient(sum);
    var total := (k + 1) * 0xffff;
    assert total == sum + (0xffff - Fold(sum) as int);
    FoldClosedForm(total);
    ModOfMultiple(k, 0xfffe);
    assert total - 1 == k * 0xffff + 0xfffe;
  }

  /** Writing the checksum into a zeroed field at an even offset makes the data verify. */
  lemma ChecksumVerifies(front: Octets, back: Octets)
    requires |front| % 2 == 0
    ensures Verifies(front + Be16(Complement(front + Be16(0) + back)) + back)
  {
    var zeroed := front + Be16(0) + back;
    var check := Be16(Complement(zeroed));
    WordSumAppend(front + Be16(0), back);
    WordSumAppend(front, Be16(0));
    WordSumAppend(front + check, back);
    WordSumAppend(front, check);
    WordSumBe16(0);
    WordSumBe16(Complement(zeroed));
    ComplementCompletes(WordSum(zeroed));
  }

  /** No buffer of up to 131072 octets can overflow the 32-bit accumulator; the builders'
      largest (pseudo-header, TCP header, 1400 octets) has 1432. */
  lemma SumFits(data: Octets)
    requires |data| <= 131072
    ensures WordSum(data) < TWO32
  {
    WordSumBound(data);
  }

  lemma {:induction false} WordSumBound(data: Octets)
    ensures 2 * WordSum(data) <= (|data| + 1) * 0xffff
    decreases |data|
  {
    if |data| >= 2 {
      WordSumBound(data[2..]);
    }
  }

  lemma AddWraps(x: int, y: int, z: int)
    ensures (Add32(x, y) + z) % TWO32 == (x + y + z) % TWO32
  {
    assert (x + y) - Add32(x, y) == (x + y) / TWO32 * TWO32;
    ModShift(Add32(x, y) + z, (x + y) / TWO32);
  }

  lemma ModShift(x: int, k: int)
    ensures (x + k * TWO32) % TWO32 == x % TWO32
  {
  }

  /** One round of the accumulating loop. */
  lemma AccumulateWord(sum: u32, data: Octets, i: nat)
    requires i + 2 <= |data|
    ensures (Add32(sum, Get16(data, i)) + WordSum(data[i + 2..])) % TWO32 == (sum + WordSum(data[i..])) % TWO32
  {
    assert data[i..][2..] == data[i + 2..];
    assert WordSum(data[i..]) == Get16(data, i) as int + WordSum(data[i + 2..]);
    AddWraps(sum, Get16(data, i), WordSum(data[i + 2..]));
  }

  /** The odd last octet. */
  lemma AccumulateLast(sum: u32, data: Octets, i: nat)
    requires i + 1 == |data|
    ensures Add32(sum, data[i] as int * 256) == (sum + WordSum(data[i..])) % TWO32
  {
    assert data[i..] == [data[i]];
  }

  /** `checksum16`, with its `uint32_t` accumulator wrapping as it would. Below the bound
      of `SumFits` it is the Internet checksum. */
  method Checksum16(data: Octets) returns (r: u16)
    ensures r == 0xffff - Fold(WordSum(data) % TWO32)
    ensures |data| <= 131072 ==> r == Complement(data)
  {
    var sum: u32 := 0;
    var i, len := 0, |data|;
    while len > 1
      invariant 0 <= len && i + len == |data|
      invariant (sum + WordSum(data[i..])) % TWO32 == WordSum(data) % TWO32
    {
      AccumulateWord(sum, data, i);
      sum := Add32(sum, Get16(data, i));
      i := i + 2;
      len := len - 2;
    }
    if len == 1 {
      var word := data[i] as int * 256;
      AccumulateLast(sum, data, i);
      sum := Add32(sum, word);
    } else {
      assert data[i..] == [];
    }
    assert sum == WordSum(data) % TWO32;
    sum := FoldCarries(sum);
    r := 0xffff - sum;
    if |data| <= 131072 {
      SumFits(data);
    }
  }

  /** One round of the closing loop, which does not overflow. */
  lemma FoldRound(acc: u32)
    requires acc >= 0x1_0000
    ensures var next := acc % 0x1_0000 + acc / 0x1_0000; next < acc && Fold(next) == Fold(acc)
  {
  }

  /** The closing loop: it ends because every round makes the sum smaller. */
  method FoldCarries(start: u32) returns (sum: u16)
    ensures sum == Fold(start)
  {
    var acc := start;
    while acc / 0x1_0000 != 0
      invariant Fold(acc) == Fold(start)
      decreases acc
    {
      FoldRound(acc);
      assert Add32(acc % 0x1_0000, acc / 0x1_0000) == acc % 0x1_0000 + acc / 0x1_0000;
      acc := Add32(acc % 0x1_0000, acc / 0x1_0000);
    }
    sum := acc;
  }
}
