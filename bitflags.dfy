/**
  The meaning of a flag set built with the `bitflags!` macro over a 64-bit word, as far as
  the control registers rely on it: each named constant is one bit, `all()` is the union of
  the named constants, `bits()` is the word itself, and `from_bits_truncate` keeps exactly the
  named bits of a raw word.
  The bit-level meaning of `all()` and of truncation for each register is stated beside that
  register's constants, where the named positions are known.
 */
module BitFlags {

  /** A bit position inside a 64-bit register. */
  type Position = p: nat | p < 64

  /** The constant `1 << p`. */
  function Bit(p: Position): bv64 {
    1 << p
  }

  /** Whether bit `p` of `b` is set. */
  predicate HasBit(b: bv64, p: Position) {
    b & Bit(p) != 0
  }

  /** Two single-bit constants overlap exactly when they sit at the same position. */
  lemma BitsOverlap(p: Position, q: Position)
    ensures Bit(p) & Bit(q) != 0 <==> p == q
  {
  }

  /** The `bitflags` invariant: every set bit of `bits` is one of the named bits `all`. */
  predicate Named(bits: bv64, all: bv64) {
    bits & !all == 0
  }

  /** `from_bits_truncate`: keep the bits of `raw` that `all` names and drop the rest; it never fails. */
  function FromBitsTruncate(raw: bv64, all: bv64): (r: bv64)
    ensures r & all == raw & all
    ensures Named(r, all)
  {
    raw & all
  }

  /** Truncating a word that already holds only named bits gives it back: `bits()` then
      `from_bits_truncate` is lossless on every flag set. */
  lemma TruncateNamed(bits: bv64, all: bv64)
    requires Named(bits, all)
    ensures FromBitsTruncate(bits, all) == bits
  {
  }

  /** Truncating twice drops nothing more than truncating once. */
  lemma TruncateIdempotent(raw: bv64, all: bv64)
    ensures FromBitsTruncate(FromBitsTruncate(raw, all), all) == FromBitsTruncate(raw, all)
  {
  }

  /** Positions listed in strictly increasing order, as the control-register flags are declared. */
  ghost predicate Ascending(ps: seq<Position>) {
    forall i :: 0 <= i < |ps| - 1 ==> ps[i] < ps[i + 1]
  }

  /** A list whose neighbours increase is increasing between any two of its entries. */
  lemma {:induction false} AscendingStrictly(ps: seq<Position>)
    requires Ascending(ps)
    ensures forall i, j :: 0 <= i < j < |ps| ==> ps[i] < ps[j]
  {
    if |ps| > 1 {
      var tail := ps[1..];
      assert Ascending(tail) by {
        forall i | 0 <= i < |tail| - 1 ensures tail[i] < tail[i + 1] {
          assert tail[i] == ps[i + 1] && tail[i + 1] == ps[i + 2];
        }
      }
      AscendingStrictly(tail);
      forall i, j | 0 <= i < j < |ps| ensures ps[i] < ps[j] {
        if i == 0 {
          if j > 1 {
            assert ps[1] == tail[0] && ps[j] == tail[j - 1];
          }
        } else {
          assert ps[i] == tail[i - 1] && ps[j] == tail[j - 1];
        }
      }
    }
  }

  /** Constants declared at ascending positions are pairwise disjoint single bits. */
  lemma DeclaredBitsDisjoint(ps: seq<Position>)
    requires Ascending(ps)
    ensures forall i, j :: 0 <= i < |ps| && 0 <= j < |ps| && i != j ==> Bit(ps[i]) & Bit(ps[j]) == 0
  {
    AscendingStrictly(ps);
    forall i, j | 0 <= i < |ps| && 0 <= j < |ps| && i != j
      ensures Bit(ps[i]) & Bit(ps[j]) == 0
    {
      BitsOverlap(ps[i], ps[j]);
    }
  }
}
