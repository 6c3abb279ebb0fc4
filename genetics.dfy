/**
 * A kitty's 16-byte DNA, its gender, and the bit-mask crossover used when
 * two kitties are bred. The randomness the pallet draws (a hashed random
 * value for the DNA, a random value whose first byte picks the gender) is
 * supplied from outside as an `Entropy` value.
 */
module Genetics {
  import opened Primitives

  const DnaLength: nat := 16

  type Dna = s: seq<Byte> | |s| == DnaLength witness seq(16, _ => 0)

  datatype Gender = Male | Female

  /**
   * What the randomness source yields during one call: the 16 bytes that
   * `gen_dna` would return, and the first byte of the value `gen_gender`
   * draws. Both are fixed for the duration of one extrinsic.
   */
  datatype Entropy = Entropy(dna: Dna, gender: Byte)

  /** `gen_gender`: an even byte gives `Male`, an odd one `Female`. */
  function GenGender(random: Byte): (g: Gender)
    ensures g == Female <==> random & 1 == 1
  {
    if random % 2 == 0 then Male else Female
  }

  /** One byte of the crossover: bits of `a` where `mask` has a 1, bits of `b` elsewhere. */
  function MixByte(mask: Byte, a: Byte, b: Byte): (r: Byte)
    ensures mask == 0xFF ==> r == a
    ensures mask == 0x00 ==> r == b
    ensures a == b ==> r == a
  {
    (mask & a) | (!mask & b)
  }

  /** The DNA `breed_dna` computes from a mask and the two parents' DNA. */
  function Crossover(mask: Dna, dna1: Dna, dna2: Dna): (r: Dna)
    ensures forall i | 0 <= i < DnaLength ::
      && (mask[i] == 0xFF ==> r[i] == dna1[i])
      && (mask[i] == 0x00 ==> r[i] == dna2[i])
      && (dna1[i] == dna2[i] ==> r[i] == dna1[i])
  {
    seq(DnaLength, i requires 0 <= i < DnaLength => MixByte(mask[i], dna1[i], dna2[i]))
  }

  /** The byte whose only set bit is bit `k`. */
  const OneHot: seq<Byte> := [0x01, 0x02, 0x04, 0x08, 0x10, 0x20, 0x40, 0x80]

  /** Bit `k` of a byte, as 0 or 1. */
  function Bit(x: Byte, k: nat): Byte
    requires k < 8
  {
    if x & OneHot[k] == 0 then 0 else 1
  }

  /** Under a one-hot byte `c`, the mixed byte agrees with `a` where `mask` has that bit and with `b` where it has not. */
  lemma MixByteOneHot(mask: Byte, a: Byte, b: Byte, c: Byte)
    requires c == 0x01 || c == 0x02 || c == 0x04 || c == 0x08 || c == 0x10 || c == 0x20 || c == 0x40 || c == 0x80
    ensures MixByte(mask, a, b) & c == if mask & c == 0 then b & c else a & c
  {
  }

  /** `MixByte` chooses every bit independently from one of its two inputs. */
  lemma MixByteBits(mask: Byte, a: Byte, b: Byte, k: nat)
    requires k < 8
    ensures Bit(MixByte(mask, a, b), k) == if Bit(mask, k) == 1 then Bit(a, k) else Bit(b, k)
  {
    MixByteOneHot(mask, a, b, OneHot[k]);
  }

  /** Every bit of the child comes from parent 1 where the mask bit is set and from parent 2 otherwise. */
  lemma CrossoverBits(mask: Dna, dna1: Dna, dna2: Dna, i: nat, k: nat)
    requires i < DnaLength && k < 8
    ensures var child := Crossover(mask, dna1, dna2);
      Bit(child[i], k) == if Bit(mask[i], k) == 1 then Bit(dna1[i], k) else Bit(dna2[i], k)
  {
    MixByteBits(mask[i], dna1[i], dna2[i], k);
  }

  /** Breeding a kitty with identical DNA gives that DNA back, whatever the mask. */
  lemma CrossoverSameParents(mask: Dna, dna: Dna)
    ensures Crossover(mask, dna, dna) == dna
  {
    var child := Crossover(mask, dna, dna);
    forall i | 0 <= i < DnaLength ensures child[i] == dna[i] {
      assert child[i] == MixByte(mask[i], dna[i], dna[i]);
    }
  }

  /** The mask with every bit flipped. */
  function Complement(mask: Dna): Dna {
    seq(DnaLength, i requires 0 <= i < DnaLength => !mask[i])
  }

  /** Complementing the mask is the same as swapping the parents. */
  lemma CrossoverComplement(mask: Dna, dna1: Dna, dna2: Dna)
    ensures Crossover(Complement(mask), dna1, dna2) == Crossover(mask, dna2, dna1)
  {
    var l, r := Crossover(Complement(mask), dna1, dna2), Crossover(mask, dna2, dna1);
    forall i | 0 <= i < DnaLength ensures l[i] == r[i] {
      assert l[i] == MixByte(!mask[i], dna1[i], dna2[i]);
      assert r[i] == MixByte(mask[i], dna2[i], dna1[i]);
    }
  }

  /** A mask of all ones copies parent 1; the empty mask copies parent 2. */
  lemma CrossoverExtremeMasks(dna1: Dna, dna2: Dna)
    ensures Crossover(seq(DnaLength, _ => 0xFF), dna1, dna2) == dna1
    ensures Crossover(seq(DnaLength, _ => 0x00), dna1, dna2) == dna2
  {
    var ones, zeros := Crossover(seq(DnaLength, _ => 0xFF), dna1, dna2), Crossover(seq(DnaLength, _ => 0x00), dna1, dna2);
    forall i | 0 <= i < DnaLength ensures ones[i] == dna1[i] && zeros[i] == dna2[i] {
      assert ones[i] == MixByte(0xFF, dna1[i], dna2[i]);
      assert zeros[i] == MixByte(0x00, dna1[i], dna2[i]);
    }
  }

  /** Mask 0x0F over parents 0xFF.. and 0x00.. gives 0x0F in every byte. */
  lemma CrossoverLowNibbleExample()
    ensures Crossover(seq(DnaLength, _ => 0x0F), seq(DnaLength, _ => 0xFF), seq(DnaLength, _ => 0x00))
         == seq(DnaLength, _ => 0x0F)
  {
    var child := Crossover(seq(DnaLength, _ => 0x0F), seq(DnaLength, _ => 0xFF), seq(DnaLength, _ => 0x00));
    forall i | 0 <= i < DnaLength ensures child[i] == 0x0F {
      assert child[i] == MixByte(0x0F, 0xFF, 0x00);
    }
  }
}
