/**
 * A character map: the glyph-slot -> code-point array the registry hands out.
 * Slot i of a font's glyph sheet shows the code point at index i; the array
 * ends in a 0 terminator, and the skip marker says that a slot has no glyph.
 */
module Charmap {

  /** FontCharmaps::M_SKIP: the slot keeps the sheet aligned but maps to nothing. */
  const Skip: int := 0xFEFF

  /** The terminator that ends every array; it is not itself a slot. */
  const Terminator: int := 0

  /** One table as the C array holds it, terminator included. */
  type Table = seq<int>

  /** A Unicode scalar value: a code point that is not a surrogate. */
  predicate IsScalar(v: int) {
    0 <= v <= 0x10FFFF && !(0xD800 <= v <= 0xDFFF)
  }

  /** A slot that carries a glyph: a scalar value that is neither the skip marker nor the terminator. */
  predicate Mapped(v: int) {
    IsScalar(v) && v != Skip && v != Terminator
  }

  /** Exactly one terminator, at the last position. */
  predicate Terminated(t: Table) {
    |t| > 0 && t[|t| - 1] == Terminator &&
    forall i :: 0 <= i < |t| - 1 ==> t[i] != Terminator
  }

  /** A well-formed table: terminated, and every slot before the terminator is skipped or mapped. */
  predicate WellFormed(t: Table) {
    Terminated(t) &&
    forall i :: 0 <= i < |t| - 1 ==> t[i] == Skip || Mapped(t[i])
  }

  /**
   * The number of slots a reader finds by scanning up to the first terminator,
   * which is how a consumer of the array learns where it ends.
   */
  function SlotCount(t: Table): (n: nat)
    ensures n <= |t|
    ensures forall i :: 0 <= i < n ==> t[i] != Terminator
    ensures n < |t| ==> t[n] == Terminator
  {
    if t == [] || t[0] == Terminator then 0 else 1 + SlotCount(t[1..])
  }

  /** The scan stops exactly on the last element precisely when the table is terminated. */
  lemma TerminatedIffScanReachesEnd(t: Table)
    ensures Terminated(t) <==> |t| > 0 && t[|t| - 1] == Terminator && SlotCount(t) == |t| - 1
  {
  }

  /** A table whose last element is the terminator and whose other slots are all skipped or mapped is well formed. */
  lemma WellFormedIntro(t: Table)
    requires |t| > 0 && t[|t| - 1] == Terminator
    requires forall i :: 0 <= i < |t| - 1 ==> t[i] == Skip || Mapped(t[i])
    ensures WellFormed(t) && SlotCount(t) == |t| - 1
  {
  }

  /** A terminated table whose slots all lie in one block of ordinary code points is well formed. */
  lemma WellFormedWithin(t: Table, lo: int, hi: int)
    requires 0 < lo && hi <= 0xD800
    requires |t| > 0 && t[|t| - 1] == Terminator
    requires forall i :: 0 <= i < |t| - 1 ==> lo <= t[i] < hi
    ensures WellFormed(t) && SlotCount(t) == |t| - 1
  {
    WellFormedIntro(t);
  }

  /** The skip marker is a scalar value that can never be mistaken for the terminator. */
  lemma SkipIsNotTerminator()
    ensures Skip != Terminator && IsScalar(Skip)
  {
  }

  /** Every row of a glyph sheet has the same number of cells. */
  ghost predicate Uniform(sheet: seq<seq<int>>, width: nat) {
    forall r :: 0 <= r < |sheet| ==> |sheet[r]| == width
  }

  /** The cells of a glyph sheet, row after row, the way the C arrays lay them out. */
  function Flatten(sheet: seq<seq<int>>): seq<int> {
    if sheet == [] then [] else sheet[0] + Flatten(sheet[1..])
  }

  lemma {:induction false} FlattenLength(sheet: seq<seq<int>>, width: nat)
    requires Uniform(sheet, width)
    ensures |Flatten(sheet)| == width * |sheet|
  {
    if sheet != [] {
      FlattenLength(sheet[1..], width);
    }
  }

  /**
   * If cell (r, c) of a uniform sheet holds f(base + width * r + c), then slot i
   * of the flattened array holds f(base + i).
   */
  lemma {:induction false} FlattenMatches(sheet: seq<seq<int>>, width: nat, f: int -> int, base: int)
    requires Uniform(sheet, width)
    requires forall r, c :: 0 <= r < |sheet| && 0 <= c < width ==> sheet[r][c] == f(base + width * r + c)
    ensures |Flatten(sheet)| == width * |sheet|
    ensures forall i :: 0 <= i < width * |sheet| ==> Flatten(sheet)[i] == f(base + i)
  {
    FlattenLength(sheet, width);
    if sheet != [] {
      var rest := sheet[1..];
      assert Uniform(rest, width);
      forall r, c | 0 <= r < |rest| && 0 <= c < width
        ensures rest[r][c] == f(base + width + width * r + c)
      {
        assert rest[r] == sheet[r + 1];
        assert width * (r + 1) == width + width * r;
      }
      FlattenMatches(rest, width, f, base + width);
      assert Flatten(sheet) == sheet[0] + Flatten(rest);
      forall i | 0 <= i < width * |sheet|
        ensures Flatten(sheet)[i] == f(base + i)
      {
        if i >= width {
          assert Flatten(sheet)[i] == Flatten(rest)[i - width];
        } else {
          assert sheet[0][i] == f(base + width * 0 + i);
        }
      }
    }
  }

  /** The row-and-column form: cell (r, c) of the sheet sits at slot width * r + c. */
  lemma {:induction false} FlattenAt(sheet: seq<seq<int>>, width: nat, r: nat, c: nat)
    requires Uniform(sheet, width) && r < |sheet| && c < width
    ensures |Flatten(sheet)| == width * |sheet|
    ensures width * r + c < width * |sheet|
    ensures Flatten(sheet)[width * r + c] == sheet[r][c]
  {
    FlattenLength(sheet, width);
    var rest := sheet[1..];
    assert Flatten(sheet) == sheet[0] + Flatten(rest);
    assert |sheet[0]| == width;
    if r == 0 {
      assert width * |sheet| == width + width * |rest|;
    } else {
      assert Uniform(rest, width) by {
        forall i | 0 <= i < |rest|
          ensures |rest[i]| == width
        {
          assert rest[i] == sheet[i + 1];
        }
      }
      FlattenAt(rest, width, r - 1, c);
      assert width * r == width + width * (r - 1);
      assert width * |sheet| == width + width * |rest|;
      assert rest[r - 1] == sheet[r];
    }
  }
}
