// The reorderings a quarter turn applies to the array of the turned layer:
// the `newOrder` tables of updateFaceMapAfterRotation (9 slots) and
// updateSliceMapAfterRotation (8 slots) in rubik.h.

module Permutation {
  import opened CubeState

  /** No name occurs twice; the source checks this before committing a turn. */
  predicate Distinct(s: seq<Name>) {
    forall i, j :: 0 <= i < j < |s| ==> s[i] != s[j]
  }

  // ---------------------------------------------------------------------
  // Faces

  /** The slot of the old face array that lands in slot i after a quarter turn. */
  function FaceSource(i: nat, clockwise: bool): (k: nat)
    requires i < 9
    ensures k < 9
  {
    if clockwise then [6, 3, 0, 7, 4, 1, 8, 5, 2][i]
    else [2, 5, 8, 1, 4, 7, 0, 3, 6][i]
  }

  /** The new face array after a quarter turn of that face. */
  function FaceTurn(cells: seq<Name>, clockwise: bool): (r: seq<Name>)
    requires |cells| == 9
    ensures |r| == 9
    ensures forall i :: 0 <= i < 9 ==> r[i] == cells[FaceSource(i, clockwise)]
  {
    if clockwise then
      [cells[6], cells[3], cells[0],
       cells[7], cells[4], cells[1],
       cells[8], cells[5], cells[2]]
    else
      [cells[2], cells[5], cells[8],
       cells[1], cells[4], cells[7],
       cells[0], cells[3], cells[6]]
  }

  /** Slot 4 is the only slot a face turn leaves in place. */
  lemma FaceTurnFixesOnlyCentre(clockwise: bool, i: nat)
    requires i < 9
    ensures FaceSource(i, clockwise) == i <==> i == 4
  {
  }

  /** Clockwise, corner names travel 0 -> 2 -> 8 -> 6 -> 0 and edge names 1 -> 5 -> 7 -> 3 -> 1. */
  lemma FaceTurnCycles()
    ensures FaceSource(2, true) == 0 && FaceSource(8, true) == 2
    ensures FaceSource(6, true) == 8 && FaceSource(0, true) == 6
    ensures FaceSource(5, true) == 1 && FaceSource(7, true) == 5
    ensures FaceSource(3, true) == 7 && FaceSource(1, true) == 3
  {
  }

  /** The two tables undo each other, so each is a bijection on the 9 slots. */
  lemma FaceSourceInverse(i: nat, clockwise: bool)
    requires i < 9
    ensures FaceSource(FaceSource(i, clockwise), !clockwise) == i
  {
    if i < 3 {
    } else if i < 6 {
    } else {
    }
  }

  /** A quarter turn followed by the opposite quarter turn restores the face. */
  lemma FaceTurnInverse(cells: seq<Name>, clockwise: bool)
    requires |cells| == 9
    ensures FaceTurn(FaceTurn(cells, clockwise), !clockwise) == cells
  {
  }

  /** Two quarter turns the same way make a half turn, which reverses the face array: slot i
      receives old slot 8 - i. */
  lemma FaceHalfTurn(cells: seq<Name>, clockwise: bool)
    requires |cells| == 9
    ensures forall i | 0 <= i < 9 :: FaceTurn(FaceTurn(cells, clockwise), clockwise)[i] == cells[8 - i]
  {
    var once := FaceTurn(cells, clockwise);
    var twice := FaceTurn(once, clockwise);
    forall i | 0 <= i < 9
      ensures twice[i] == cells[8 - i]
    {
      var k := FaceSource(i, clockwise);
      assert twice[i] == once[k];
      assert once[k] == cells[FaceSource(k, clockwise)];
      FaceSourceTwice(i, clockwise);
    }
  }

  lemma FaceSourceTwice(i: nat, clockwise: bool)
    requires i < 9
    ensures FaceSource(FaceSource(i, clockwise), clockwise) == 8 - i
  {
    if i < 3 {
    } else if i < 6 {
    } else {
    }
  }

  /** Four quarter turns in the same direction restore the face. */
  lemma FaceTurnOrderFour(cells: seq<Name>, clockwise: bool)
    requires |cells| == 9
    ensures FaceTurn(FaceTurn(FaceTurn(FaceTurn(cells, clockwise), clockwise), clockwise), clockwise) == cells
  {
    var half := FaceTurn(FaceTurn(cells, clockwise), clockwise);
    FaceHalfTurn(cells, clockwise);
    FaceHalfTurn(half, clockwise);
  }

  /** The turned face has a duplicate exactly when the face had one. */
  lemma FaceTurnDistinct(cells: seq<Name>, clockwise: bool)
    requires |cells| == 9
    ensures Distinct(FaceTurn(cells, clockwise)) <==> Distinct(cells)
  {
    FaceTurnKeepsDistinct(cells, clockwise);
    FaceTurnInverse(cells, clockwise);
    FaceTurnKeepsDistinct(FaceTurn(cells, clockwise), !clockwise);
  }

  lemma FaceTurnKeepsDistinct(cells: seq<Name>, clockwise: bool)
    requires |cells| == 9
    ensures Distinct(cells) ==> Distinct(FaceTurn(cells, clockwise))
  {
    if Distinct(cells) {
      var r := FaceTurn(cells, clockwise);
      forall i, j | 0 <= i < j < 9
        ensures r[i] != r[j]
      {
        FaceSourceInverse(i, clockwise);
        FaceSourceInverse(j, clockwise);
      }
    }
  }

  // ---------------------------------------------------------------------
  // Slices

  /** The ring shift a quarter turn of a slice applies: slot i receives old slot (i + k) mod 8.
      S turns the other way round from V and H for the same flag. */
  function SliceShift(slice: Slice, clockwise: bool): (k: int)
    ensures k == 2 || k == 6
  {
    if (slice == S) == clockwise then 6 else 2
  }

  /** The slot of the old ring that lands in slot i: (i + shift) mod 8. */
  function SliceSource(i: nat, slice: Slice, clockwise: bool): (k: nat)
    requires i < 8
    ensures k < 8 && k % 8 == (i + SliceShift(slice, clockwise)) % 8
  {
    var j := i + SliceShift(slice, clockwise);
    if j < 8 then j else j - 8
  }

  /** The new slice array after a quarter turn of that slice. */
  function SliceTurn(cells: seq<Name>, slice: Slice, clockwise: bool): (r: seq<Name>)
    requires |cells| == 8
    ensures |r| == 8
    ensures forall i :: 0 <= i < 8 ==> r[i] == cells[SliceSource(i, slice, clockwise)]
  {
    if slice == S then
      if clockwise then
        [cells[6], cells[7], cells[0], cells[1], cells[2], cells[3], cells[4], cells[5]]
      else
        [cells[2], cells[3], cells[4], cells[5], cells[6], cells[7], cells[0], cells[1]]
    else
      if clockwise then
        [cells[2], cells[3], cells[4], cells[5], cells[6], cells[7], cells[0], cells[1]]
      else
        [cells[6], cells[7], cells[0], cells[1], cells[2], cells[3], cells[4], cells[5]]
  }

  /** A slice turn moves every slot: a ring has no fixed centre. */
  lemma SliceTurnMovesEverySlot(slice: Slice, clockwise: bool, i: nat)
    requires i < 8
    ensures SliceSource(i, slice, clockwise) != i
  {
  }

  /** Clockwise then counter-clockwise (or the reverse) restores the slice. */
  lemma SliceTurnInverse(cells: seq<Name>, slice: Slice, clockwise: bool)
    requires |cells| == 8
    ensures SliceTurn(SliceTurn(cells, slice, clockwise), slice, !clockwise) == cells
  {
  }

  /** Two quarter turns the same way make a half turn, which moves every name four slots
      round the ring, whichever the direction. */
  lemma SliceHalfTurn(cells: seq<Name>, slice: Slice, clockwise: bool)
    requires |cells| == 8
    ensures forall i | 0 <= i < 8 ::
      SliceTurn(SliceTurn(cells, slice, clockwise), slice, clockwise)[i] == cells[if i < 4 then i + 4 else i - 4]
  {
  }

  /** Four quarter turns of a slice in the same direction restore it. */
  lemma SliceTurnOrderFour(cells: seq<Name>, slice: Slice, clockwise: bool)
    requires |cells| == 8
    ensures SliceTurn(SliceTurn(SliceTurn(SliceTurn(cells, slice, clockwise), slice, clockwise), slice, clockwise), slice, clockwise) == cells
  {
    var half := SliceTurn(SliceTurn(cells, slice, clockwise), slice, clockwise);
    SliceHalfTurn(cells, slice, clockwise);
    SliceHalfTurn(half, slice, clockwise);
  }

  /** The turned slice has a duplicate exactly when the slice had one. */
  lemma SliceTurnDistinct(cells: seq<Name>, slice: Slice, clockwise: bool)
    requires |cells| == 8
    ensures Distinct(SliceTurn(cells, slice, clockwise)) <==> Distinct(cells)
  {
    SliceTurnKeepsDistinct(cells, slice, clockwise);
    SliceTurnInverse(cells, slice, clockwise);
    SliceTurnKeepsDistinct(SliceTurn(cells, slice, clockwise), slice, !clockwise);
  }

  lemma SliceTurnKeepsDistinct(cells: seq<Name>, slice: Slice, clockwise: bool)
    requires |cells| == 8
    ensures Distinct(cells) ==> Distinct(SliceTurn(cells, slice, clockwise))
  {
    if Distinct(cells) {
      var r := SliceTurn(cells, slice, clockwise);
      forall i, j | 0 <= i < j < 8
        ensures r[i] != r[j]
      {
        assert SliceSource(i, slice, clockwise) != SliceSource(j, slice, clockwise);
      }
    }
  }
}
