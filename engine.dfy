// The permutation engine of rubik.h: one committed quarter turn of a face
// (updateFaceMapAfterRotation) or of a middle slice
// (updateSliceMapAfterRotation), each followed by updateAdjacentFaces.

module Engine {
  import opened CubeState
  import opened Permutation
  import opened Adjacency

  /** The reordered array of layer g after a quarter turn: the newOrder the source builds. */
  function Turned(cells: seq<Name>, g: Layer, clockwise: bool): (r: seq<Name>)
    requires |cells| == g.Size()
    ensures |r| == g.Size()
  {
    if g.IsFace() then FaceTurn(cells, clockwise) else SliceTurn(cells, g, clockwise)
  }

  /** Turning one way and then the other restores the array. */
  lemma TurnedInverse(cells: seq<Name>, g: Layer, clockwise: bool)
    requires |cells| == g.Size()
    ensures Turned(Turned(cells, g, clockwise), g, !clockwise) == cells
  {
    if g.IsFace() {
      FaceTurnInverse(cells, clockwise);
    } else {
      SliceTurnInverse(cells, g, clockwise);
    }
  }

  /** Four quarter turns the same way restore the array. */
  lemma TurnedOrderFour(cells: seq<Name>, g: Layer, clockwise: bool)
    requires |cells| == g.Size()
    ensures Turned(Turned(Turned(Turned(cells, g, clockwise), g, clockwise), g, clockwise), g, clockwise) == cells
  {
    if g.IsFace() {
      FaceTurnOrderFour(cells, clockwise);
    } else {
      SliceTurnOrderFour(cells, g, clockwise);
    }
  }

  /** The reordered array has a duplicate exactly when the original had one. */
  lemma TurnedDistinct(cells: seq<Name>, g: Layer, clockwise: bool)
    requires |cells| == g.Size()
    ensures Distinct(Turned(cells, g, clockwise)) <==> Distinct(cells)
  {
    if g.IsFace() {
      FaceTurnDistinct(cells, clockwise);
    } else {
      SliceTurnDistinct(cells, g, clockwise);
    }
  }

  /** One committed quarter turn of layer g: if the reordered array holds a duplicate name
      nothing is written; otherwise g receives it and its neighbours are synchronised. */
  function Commit(m: Maps, g: Layer, clockwise: bool): (r: Maps)
    requires m.WellFormed()
    ensures r.WellFormed()
  {
    var turned := Turned(m.Cells(g), g, clockwise);
    if !Distinct(turned) then m else Synced(m.SetCells(g, turned), g)
  }

  /** The duplicate guard fires exactly when layer g already held a duplicate, and then the
      whole state is left as it was. Otherwise g holds its reordered array. */
  lemma CommitRejectsOnlyDuplicates(m: Maps, g: Layer, clockwise: bool)
    requires m.WellFormed()
    ensures !Distinct(m.Cells(g)) ==> Commit(m, g, clockwise) == m
    ensures Distinct(m.Cells(g)) ==> Commit(m, g, clockwise).Cells(g) == Turned(m.Cells(g), g, clockwise)
  {
    var turned := Turned(m.Cells(g), g, clockwise);
    TurnedDistinct(m.Cells(g), g, clockwise);
    if Distinct(m.Cells(g)) {
      SyncedKeepsOwnLayer(m.SetCells(g, turned), g);
      SetCellsCells(m, g, turned, g);
    }
  }

  /** A committed turn writes only the turned layer and the neighbour slots linked to it. */
  lemma CommitWritesOnlyLinkedSlots(m: Maps, g: Layer, clockwise: bool, h: Layer, i: nat)
    requires m.WellFormed() && i < h.Size() && h != g && i !in Links(g, h)
    ensures Commit(m, g, clockwise).Cells(h)[i] == m.Cells(h)[i]
  {
    var turned := Turned(m.Cells(g), g, clockwise);
    if Distinct(turned) {
      SyncedCellsOf(m.SetCells(g, turned), g, h);
      SetCellsCells(m, g, turned, h);
    }
  }

  /** After a committed turn, every neighbour slot linked to g holds the name now in its
      source slot of g. */
  lemma CommitIsCoherent(m: Maps, g: Layer, clockwise: bool)
    requires m.WellFormed() && Distinct(m.Cells(g))
    ensures Coherent(Commit(m, g, clockwise), g)
  {
    var turned := Turned(m.Cells(g), g, clockwise);
    TurnedDistinct(m.Cells(g), g, clockwise);
    SyncedIsCoherent(m.SetCells(g, turned), g);
  }

  lemma SetCellsTwice(m: Maps, g: Layer, x: seq<Name>, y: seq<Name>)
    requires m.WellFormed() && |x| == g.Size() && |y| == g.Size()
    ensures m.SetCells(g, x).SetCells(g, y) == m.SetCells(g, y)
  {
  }

  lemma SetCellsSame(m: Maps, g: Layer)
    requires m.WellFormed()
    ensures m.SetCells(g, m.Cells(g)) == m
  {
  }

  /** Committing a turn on a state synchronised around g turns g's array and synchronises
      again from the same base state. */
  lemma CommitAfterSync(base: Maps, g: Layer, x: seq<Name>, clockwise: bool)
    requires base.WellFormed() && |x| == g.Size() && Distinct(x)
    ensures Commit(Synced(base.SetCells(g, x), g), g, clockwise)
              == Synced(base.SetCells(g, Turned(x, g, clockwise)), g)
  {
    var m := Synced(base.SetCells(g, x), g);
    var y := Turned(x, g, clockwise);
    SyncedKeepsOwnLayer(base.SetCells(g, x), g);
    SetCellsCells(base, g, x, g);
    assert m.Cells(g) == x;
    TurnedDistinct(x, g, clockwise);
    SyncedForgetsEarlierSync(base.SetCells(g, x), g, y);
    SetCellsTwice(base, g, x, y);
  }

  /** A coherent state is the synchronisation of itself. */
  lemma CoherentAsSynced(m: Maps, g: Layer)
    requires m.WellFormed() && Coherent(m, g)
    ensures Synced(m.SetCells(g, m.Cells(g)), g) == m
  {
    SetCellsSame(m, g);
    CoherentIsFixed(m, g);
  }

  /** A turn followed by the opposite turn restores a state whose neighbours agree with g,
      duplicates or not. */
  lemma CommitRoundTrip(m: Maps, g: Layer, clockwise: bool)
    requires m.WellFormed() && Coherent(m, g)
    ensures Commit(Commit(m, g, clockwise), g, !clockwise) == m
  {
    var cells := m.Cells(g);
    TurnedDistinct(cells, g, clockwise);
    if Distinct(cells) {
      CoherentAsSynced(m, g);
      CommitAfterSync(m, g, cells, clockwise);
      TurnedDistinct(cells, g, clockwise);
      CommitAfterSync(m, g, Turned(cells, g, clockwise), !clockwise);
      TurnedInverse(cells, g, clockwise);
    } else {
      CommitRejectsOnlyDuplicates(m, g, clockwise);
      CommitRejectsOnlyDuplicates(m, g, !clockwise);
    }
  }

  /** Four turns the same way restore a state whose neighbours agree with g. */
  lemma CommitOrderFour(m: Maps, g: Layer, clockwise: bool)
    requires m.WellFormed() && Coherent(m, g)
    ensures Commit(Commit(Commit(Commit(m, g, clockwise), g, clockwise), g, clockwise), g, clockwise) == m
  {
    var c0 := m.Cells(g);
    TurnedDistinct(c0, g, clockwise);
    if Distinct(c0) {
      var c1 := Turned(c0, g, clockwise);
      TurnedDistinct(c1, g, clockwise);
      var c2 := Turned(c1, g, clockwise);
      TurnedDistinct(c2, g, clockwise);
      var c3 := Turned(c2, g, clockwise);
      CoherentAsSynced(m, g);
      CommitAfterSync(m, g, c0, clockwise);
      CommitAfterSync(m, g, c1, clockwise);
      CommitAfterSync(m, g, c2, clockwise);
      CommitAfterSync(m, g, c3, clockwise);
      TurnedOrderFour(c0, g, clockwise);
    } else {
      CommitRejectsOnlyDuplicates(m, g, clockwise);
    }
  }

  /** What updateFaceMapAfterRotation and updateSliceMapAfterRotation do to the maps. Once
      initializeCubes has filled every array the turn is committed. Before that, operator[]
      inserts an all-empty array for the missing key, and the duplicate guard rejects it. */
  function Rotate(m: Maps, g: Layer, clockwise: bool): (r: Maps)
    requires m.WellFormed() || m.Blank()
  {
    if m.WellFormed() then Commit(m, g, clockwise) else m.SetEntry(g, Default(g))
  }

  /** Before initializeCubes no turn ever places a name: a blank state stays blank, and a
      full one stays full. */
  lemma RotateKeepsShape(m: Maps, g: Layer, clockwise: bool)
    requires m.WellFormed() || m.Blank()
    ensures m.WellFormed() ==> Rotate(m, g, clockwise).WellFormed()
    ensures m.Blank() ==> Rotate(m, g, clockwise).Blank()
  {
    if m.Blank() {
      if m.WellFormed() {
        assert m.Cells(g) == Default(g);
        assert !Distinct(m.Cells(g)) by {
          DefaultHasRepeat(g);
        }
        CommitRejectsOnlyDuplicates(m, g, clockwise);
      } else {
        forall h: Layer
          ensures m.SetEntry(g, Default(g)).Entry(h) == [] || m.SetEntry(g, Default(g)).Entry(h) == Default(h)
        {
          SetEntryEntry(m, g, Default(g), h);
        }
      }
    }
  }
}
