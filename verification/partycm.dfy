/** Party-composition helpers: class members as 4-bit masks and their Hamming weight. */
module PartyCm {

  /** A class member set: bit 0 fighter, bit 1 rogue, bit 2 wizard, bit 3 cleric. */
  type ClassMember = bv4

  const N: ClassMember := 0
  const F: ClassMember := 1
  const R: ClassMember := 2
  const W: ClassMember := 4
  const C: ClassMember := 8
  const FR: ClassMember := F | R
  const FW: ClassMember := F | W
  const FC: ClassMember := F | C
  const RW: ClassMember := R | W
  const RC: ClassMember := R | C
  const WC: ClassMember := W | C
  const FRW: ClassMember := F | R | W
  const FRC: ClassMember := F | R | C
  const FWC: ClassMember := F | W | C
  const RWC: ClassMember := R | W | C
  const FRWC: ClassMember := F | R | W | C

  /** The number of 1 bits of x, lowest bit first; 0 for x <= 0. */
  function Popcount(x: int): (r: nat)
    decreases x
    ensures x > 0 ==> 1 <= r <= x
  {
    if x <= 0 then 0 else x % 2 + Popcount(x / 2)
  }

  function Pow2(k: nat): nat
  {
    if k == 0 then 1 else 2 * Pow2(k - 1)
  }

  /** `hw`: the loop of the source, with `x & 1` and `x >> 1` read as `x % 2` and
      `x / 2`, which they are for the positive x the loop runs on. */
  method Hw(x: int) returns (w: int)
    ensures w == Popcount(x)
    ensures x <= 0 ==> w == 0
  {
    w := 0;
    var rest := x;
    while rest > 0
      invariant w + Popcount(rest) == Popcount(x)
      decreases rest
    {
      w := w + rest % 2;
      rest := rest / 2;
    }
  }

  /** A number below 2^k has at most k one bits. */
  lemma {:induction false} PopcountBound(x: int, k: nat)
    requires 0 <= x < Pow2(k)
    ensures Popcount(x) <= k
  {
    if x > 0 {
      assert k > 0;
      PopcountBound(x / 2, k - 1);
    }
  }

  /** Setting a bit above all the bits of x adds exactly one to the weight: the
      weight of an OR of distinct single bits is the number of bits. */
  lemma {:induction false} PopcountAddHighBit(x: int, k: nat)
    requires 0 <= x < Pow2(k)
    ensures Popcount(x + Pow2(k)) == Popcount(x) + 1
  {
    if k == 0 {
      assert x == 0;
    } else {
      assert (x + Pow2(k)) / 2 == x / 2 + Pow2(k - 1);
      assert (x + Pow2(k)) % 2 == x % 2;
      PopcountAddHighBit(x / 2, k - 1);
    }
  }

  /** `_cw_weight`: the weight of each of the 16 member sets. */
  function CwWeight(): (r: seq<int>)
    ensures |r| == 16
    ensures forall i :: 0 <= i < 16 ==> 0 <= r[i] <= 4
  {
    assert Pow2(4) == 16;
    assert forall i :: 0 <= i < 16 ==> Popcount(i) <= 4 by {
      forall i | 0 <= i < 16
        ensures Popcount(i) <= 4
      {
        PopcountBound(i, 4);
      }
    }
    seq(16, i => Popcount(i))
  }

  lemma {:induction false} PopcountBelow16()
    ensures Popcount(0) == 0 && Popcount(1) == 1 && Popcount(2) == 1 && Popcount(3) == 2
    ensures Popcount(4) == 1 && Popcount(5) == 2 && Popcount(6) == 2 && Popcount(7) == 3
    ensures Popcount(8) == 1 && Popcount(9) == 2 && Popcount(10) == 2 && Popcount(11) == 3
    ensures Popcount(12) == 2 && Popcount(13) == 3 && Popcount(14) == 3 && Popcount(15) == 4
  {
    assert Popcount(1) == 1 + Popcount(0);
    assert Popcount(2) == Popcount(1) && Popcount(3) == 1 + Popcount(1);
    assert Popcount(4) == Popcount(2) && Popcount(5) == 1 + Popcount(2);
    assert Popcount(6) == Popcount(3) && Popcount(7) == 1 + Popcount(3);
    assert Popcount(8) == Popcount(4) && Popcount(9) == 1 + Popcount(4);
    assert Popcount(10) == Popcount(5) && Popcount(11) == 1 + Popcount(5);
    assert Popcount(12) == Popcount(6) && Popcount(13) == 1 + Popcount(6);
    assert Popcount(14) == Popcount(7) && Popcount(15) == 1 + Popcount(7);
  }

  /** The table holds the weights 0,1,1,2,1,2,2,3,1,2,2,3,2,3,3,4. */
  lemma CwWeightValues()
    ensures CwWeight() == [0, 1, 1, 2, 1, 2, 2, 3, 1, 2, 2, 3, 2, 3, 3, 4]
  {
    PopcountBelow16();
    var expected := [0, 1, 1, 2, 1, 2, 2, 3, 1, 2, 2, 3, 2, 3, 3, 4];
    forall i | 0 <= i < 16
      ensures CwWeight()[i] == expected[i]
    {
      assert CwWeight()[i] == Popcount(i);
    }
  }

  /** The number of the four classes a member set names, read off its bits. */
  function Members(a: ClassMember): nat
  {
    (if a & F != 0 then 1 else 0) + (if a & R != 0 then 1 else 0) +
    (if a & W != 0 then 1 else 0) + (if a & C != 0 then 1 else 0)
  }

  /** The Hamming weight of a member set is the number of classes it names. */
  lemma PopcountIsMembers(a: ClassMember)
    ensures Popcount(a as int) == Members(a)
  {
    PopcountBelow16();
    if a == 0 {} else if a == 1 {} else if a == 2 {} else if a == 3 {}
    else if a == 4 {} else if a == 5 {} else if a == 6 {} else if a == 7 {}
    else if a == 8 {} else if a == 9 {} else if a == 10 {} else if a == 11 {}
    else if a == 12 {} else if a == 13 {} else if a == 14 {} else {}
  }

  /** The union of two member sets with no class in common weighs the sum of
      their weights. */
  lemma PopcountDisjointOr(a: ClassMember, b: ClassMember)
    requires a & b == 0
    ensures Popcount((a | b) as int) == Popcount(a as int) + Popcount(b as int)
  {
    PopcountIsMembers(a);
    PopcountIsMembers(b);
    PopcountIsMembers(a | b);
  }

  /** Each member constant is the OR of distinct single bits, and its weight is
      the number of members it names. */
  lemma MemberWeights()
    ensures N as int == 0 && Popcount(N as int) == 0
    ensures F as int == 1 && R as int == 2 && W as int == 4 && C as int == 8
    ensures Popcount(F as int) == 1 && Popcount(R as int) == 1 && Popcount(W as int) == 1 && Popcount(C as int) == 1
    ensures FR as int == 3 && FW as int == 5 && FC as int == 9 && RW as int == 6 && RC as int == 10 && WC as int == 12
    ensures Popcount(FR as int) == 2 && Popcount(FW as int) == 2 && Popcount(FC as int) == 2
    ensures Popcount(RW as int) == 2 && Popcount(RC as int) == 2 && Popcount(WC as int) == 2
    ensures FRW as int == 7 && FRC as int == 11 && FWC as int == 13 && RWC as int == 14
    ensures Popcount(FRW as int) == 3 && Popcount(FRC as int) == 3 && Popcount(FWC as int) == 3 && Popcount(RWC as int) == 3
    ensures FRWC as int == 15 && Popcount(FRWC as int) == 4
  {
    // the four classes are the single bits 2^0 .. 2^3
    assert Pow2(1) == 2 && Pow2(2) == 4 && Pow2(3) == 8;
    PopcountAddHighBit(0, 0);
    PopcountAddHighBit(0, 1);
    PopcountAddHighBit(0, 2);
    PopcountAddHighBit(0, 3);
    // every other constant adds one class to a smaller one
    PopcountDisjointOr(F, R);
    PopcountDisjointOr(F, W);
    PopcountDisjointOr(F, C);
    PopcountDisjointOr(R, W);
    PopcountDisjointOr(R, C);
    PopcountDisjointOr(W, C);
    PopcountDisjointOr(FR, W);
    PopcountDisjointOr(FR, C);
    PopcountDisjointOr(FW, C);
    PopcountDisjointOr(RW, C);
    PopcountDisjointOr(FRW, C);
  }

  /** `pm_reduce`: both branches return the list unchanged. */
  function PmReduce(pm: seq<ClassMember>): (r: seq<ClassMember>)
    ensures r == pm
  {
    if |pm| == 0 then pm else pm
  }
}
