// The neighbour synchronisation of updateAdjacentFaces in rubik.h: after a
// layer's own array has been reordered, every slot it shares with a
// neighbouring face or slice is overwritten with the name now in the
// corresponding slot of the turned layer.

module Adjacency {
  import opened CubeState

  /** The copies updateAdjacentFaces makes when layer g turns, grouped by the neighbour h
      they write: slot i of h receives the name in slot Links(g, h)[i] of g's own array.
      The source writes the same copies in its clockwise and its counter-clockwise branch. */
  function Links(g: Layer, h: Layer): map<nat, nat> {
    match g
    case U => (
      match h
      case R => map[2 := 2, 1 := 5, 0 := 8]
      case F => map[0 := 6, 1 := 7, 2 := 8]
      case L => map[0 := 0, 1 := 3, 2 := 6]
      case B => map[2 := 0, 1 := 1, 0 := 2]
      case S => map[0 := 3, 1 := 4, 2 := 5]
      case V => map[0 := 1, 1 := 4, 2 := 7]
      case _ => map[])
    case L => (
      match h
      case F => map[0 := 2, 3 := 5, 6 := 8]
      case D => map[0 := 8, 3 := 7, 6 := 6]
      case B => map[2 := 0, 5 := 3, 8 := 6]
      case U => map[0 := 0, 3 := 1, 6 := 2]
      case S => map[0 := 1, 7 := 4, 6 := 7]
      case H => map[0 := 3, 1 := 4, 2 := 5]
      case _ => map[])
    case F => (
      match h
      case R => map[0 := 2, 3 := 5, 6 := 8]
      case D => map[0 := 6, 1 := 7, 2 := 8]
      case L => map[2 := 0, 5 := 3, 8 := 6]
      case U => map[6 := 0, 7 := 1, 8 := 2]
      case V => map[2 := 1, 3 := 4, 4 := 7]
      case H => map[2 := 3, 3 := 4, 4 := 5]
      case _ => map[])
    case R => (
      match h
      case B => map[0 := 2, 3 := 5, 6 := 8]
      case D => map[2 := 6, 5 := 7, 8 := 8]
      case F => map[2 := 0, 5 := 3, 8 := 6]
      case U => map[2 := 2, 5 := 1, 8 := 0]
      case S => map[2 := 1, 3 := 4, 4 := 7]
      case H => map[6 := 5, 5 := 4, 4 := 3]
      case _ => map[])
    case B => (
      match h
      case L => map[0 := 2, 3 := 5, 6 := 8]
      case D => map[6 := 8, 7 := 7, 8 := 6]
      case R => map[2 := 0, 5 := 3, 8 := 6]
      case U => map[0 := 2, 1 := 1, 2 := 0]
      case V => map[0 := 1, 7 := 4, 6 := 7]
      case H => map[0 := 5, 7 := 4, 6 := 3]
      case _ => map[])
    case D => (
      match h
      case R => map[6 := 2, 7 := 5, 8 := 8]
      case B => map[6 := 8, 7 := 7, 8 := 6]
      case L => map[6 := 6, 7 := 3, 8 := 0]
      case F => map[6 := 0, 7 := 1, 8 := 2]
      case S => map[6 := 3, 5 := 4, 4 := 5]
      case V => map[4 := 1, 5 := 4, 6 := 7]
      case _ => map[])
    case S => (
      match h
      case U => map[3 := 0, 4 := 1, 5 := 2]
      case L => map[1 := 0, 4 := 7, 7 := 6]
      case R => map[1 := 2, 4 := 3, 7 := 4]
      case D => map[3 := 6, 4 := 5, 5 := 4]
      case V => map[1 := 1, 5 := 5]
      case H => map[1 := 7, 5 := 3]
      case _ => map[])
    case V => (
      match h
      case U => map[1 := 0, 4 := 1, 7 := 2]
      case F => map[1 := 2, 4 := 3, 7 := 4]
      case B => map[1 := 0, 4 := 7, 7 := 6]
      case D => map[1 := 4, 4 := 5, 7 := 6]
      case S => map[1 := 1, 5 := 5]
      case H => map[7 := 7, 3 := 3]
      case _ => map[])
    case H => (
      match h
      case L => map[3 := 0, 4 := 1, 5 := 2]
      case F => map[3 := 2, 4 := 3, 5 := 4]
      case R => map[3 := 4, 4 := 5, 5 := 6]
      case B => map[3 := 6, 4 := 7, 5 := 0]
      case S => map[7 := 1, 3 := 5]
      case V => map[7 := 7, 3 := 3]
      case _ => map[])
  }

  /** Every written slot exists and lies outside the turned layer, and every source index
      lies inside it: no copy reads a slot another copy has written. */
  lemma LinksInRange(g: Layer)
    ensures forall h: Layer, i :: i in Links(g, h) ==> i < h.Size() && h != g && Links(g, h)[i] < g.Size()
  {
  }

  /** A layer never copies into itself. */
  lemma LinksNotOwnLayer(g: Layer)
    ensures Links(g, g) == map[]
  {
  }

  /** target with every slot i that links names overwritten by the slot links[i] of source. */
  function Overwrite(target: seq<Name>, source: seq<Name>, links: map<nat, nat>): (r: seq<Name>)
    ensures |r| == |target|
  {
    seq(|target|, i requires 0 <= i < |target| =>
      if i in links && links[i] < |source| then source[links[i]] else target[i])
  }

  /** Overwriting with no links changes nothing. */
  lemma OverwriteNothing(target: seq<Name>, source: seq<Name>)
    ensures Overwrite(target, source, map[]) == target
  {
  }

  /** A second overwrite through the same links replaces everything the first one wrote. */
  lemma OverwriteTwice(target: seq<Name>, s0: seq<Name>, s1: seq<Name>, links: map<nat, nat>)
    requires |s0| == |s1|
    ensures Overwrite(Overwrite(target, s0, links), s1, links) == Overwrite(target, s1, links)
  {
  }

  /** The overwritten slots agree with the source. */
  lemma OverwriteAgrees(target: seq<Name>, source: seq<Name>, links: map<nat, nat>)
    ensures forall i | i in links && i < |target| && links[i] < |source| ::
              Overwrite(target, source, links)[i] == source[links[i]]
  {
  }

  /** Overwriting leaves target as it is exactly when target already agrees with source. */
  lemma OverwriteFixed(target: seq<Name>, source: seq<Name>, links: map<nat, nat>)
    requires forall i | i in links :: i < |target| && links[i] < |source|
    ensures Overwrite(target, source, links) == target <==>
              forall i | i in links :: target[i] == source[links[i]]
  {
    if forall i | i in links :: target[i] == source[links[i]] {
      assert forall i | 0 <= i < |target| :: Overwrite(target, source, links)[i] == target[i];
    }
  }

  /** The array of layer h once the neighbours of g have been synchronised with g. */
  function SyncedCells(m: Maps, g: Layer, h: Layer): (cells: seq<Name>)
    requires m.WellFormed()
    ensures |cells| == h.Size()
  {
    Overwrite(m.Cells(h), m.Cells(g), Links(g, h))
  }

  /** The state after updateAdjacentFaces has synchronised the neighbours of g with g. */
  function Synced(m: Maps, g: Layer): (r: Maps)
    requires m.WellFormed()
    ensures r.WellFormed()
  {
    Maps(FaceMap(SyncedCells(m, g, U), SyncedCells(m, g, L), SyncedCells(m, g, F),
                 SyncedCells(m, g, R), SyncedCells(m, g, B), SyncedCells(m, g, D)),
         SliceMap(SyncedCells(m, g, V), SyncedCells(m, g, H), SyncedCells(m, g, S)))
  }

  lemma SyncedCellsOf(m: Maps, g: Layer, h: Layer)
    requires m.WellFormed()
    ensures Synced(m, g).Cells(h) == SyncedCells(m, g, h)
  {
  }

  /** The three ways updateAdjacentFaces writes one layer: not at all, two slots, three slots. */
  lemma NoCopies(m: Maps, g: Layer, h: Layer)
    requires m.WellFormed() && Links(g, h) == map[]
    ensures SyncedCells(m, g, h) == m.Cells(h)
  {
  }

  lemma TwoCopies(m: Maps, g: Layer, h: Layer, i0: nat, k0: nat, i1: nat, k1: nat)
    requires m.WellFormed() && Links(g, h) == map[i0 := k0, i1 := k1] && i0 != i1
    requires i0 < h.Size() && i1 < h.Size() && k0 < g.Size() && k1 < g.Size()
    ensures SyncedCells(m, g, h) == m.Cells(h)[i0 := m.Cells(g)[k0]][i1 := m.Cells(g)[k1]]
  {
  }

  lemma ThreeCopies(m: Maps, g: Layer, h: Layer, i0: nat, k0: nat, i1: nat, k1: nat, i2: nat, k2: nat)
    requires m.WellFormed() && Links(g, h) == map[i0 := k0, i1 := k1, i2 := k2]
    requires i0 != i1 && i0 != i2 && i1 != i2
    requires i0 < h.Size() && i1 < h.Size() && i2 < h.Size()
    requires k0 < g.Size() && k1 < g.Size() && k2 < g.Size()
    ensures SyncedCells(m, g, h) ==
              m.Cells(h)[i0 := m.Cells(g)[k0]][i1 := m.Cells(g)[k1]][i2 := m.Cells(g)[k2]]
  {
  }

  /** Every neighbour slot linked to g holds the name of the slot of g it is linked to. */
  predicate Coherent(m: Maps, g: Layer)
    requires m.WellFormed()
  {
    LinksInRange(g);
    forall h: Layer, i | i in Links(g, h) :: m.Cells(h)[i] == m.Cells(g)[Links(g, h)[i]]
  }

  /** Synchronising changes nothing in the turned layer itself. */
  lemma SyncedKeepsOwnLayer(m: Maps, g: Layer)
    requires m.WellFormed()
    ensures Synced(m, g).Cells(g) == m.Cells(g)
  {
    LinksNotOwnLayer(g);
    SyncedCellsOf(m, g, g);
    OverwriteNothing(m.Cells(g), m.Cells(g));
  }

  /** After synchronising, the neighbours agree with g. */
  lemma SyncedIsCoherent(m: Maps, g: Layer)
    requires m.WellFormed()
    ensures Coherent(Synced(m, g), g)
  {
    SyncedKeepsOwnLayer(m, g);
    LinksInRange(g);
    forall h: Layer
      ensures forall i | i in Links(g, h) :: Synced(m, g).Cells(h)[i] == m.Cells(g)[Links(g, h)[i]]
    {
      SyncedCellsOf(m, g, h);
      OverwriteAgrees(m.Cells(h), m.Cells(g), Links(g, h));
    }
  }

  /** The states synchronising leaves unchanged are exactly those whose neighbours already
      agree with g. */
  lemma CoherentIsFixed(m: Maps, g: Layer)
    requires m.WellFormed()
    ensures Coherent(m, g) <==> Synced(m, g) == m
  {
    LinksInRange(g);
    if Coherent(m, g) {
      forall h: Layer
        ensures Synced(m, g).Cells(h) == m.Cells(h)
      {
        SyncedCellsOf(m, g, h);
        OverwriteFixed(m.Cells(h), m.Cells(g), Links(g, h));
      }
      SameCellsSameMaps(Synced(m, g), m);
    }
    if Synced(m, g) == m {
      SyncedIsCoherent(m, g);
    }
  }

  /** Synchronising twice is synchronising once. */
  lemma SyncedIdempotent(m: Maps, g: Layer)
    requires m.WellFormed()
    ensures Synced(Synced(m, g), g) == Synced(m, g)
  {
    SyncedIsCoherent(m, g);
    CoherentIsFixed(Synced(m, g), g);
  }

  /** Once g's own array is replaced, an earlier synchronisation leaves no trace: every slot
      it wrote is written again from the new array. */
  lemma SyncedForgetsEarlierSync(m: Maps, g: Layer, cells: seq<Name>)
    requires m.WellFormed() && |cells| == g.Size()
    ensures Synced(Synced(m, g).SetCells(g, cells), g) == Synced(m.SetCells(g, cells), g)
  {
    var m1 := Synced(m, g).SetCells(g, cells);
    var m2 := m.SetCells(g, cells);
    SyncedKeepsOwnLayer(m, g);
    LinksNotOwnLayer(g);
    forall h: Layer
      ensures Synced(m1, g).Cells(h) == Synced(m2, g).Cells(h)
    {
      SyncedCellsOf(m1, g, h);
      SyncedCellsOf(m2, g, h);
      SyncedCellsOf(m, g, h);
      SetCellsCells(Synced(m, g), g, cells, h);
      SetCellsCells(m, g, cells, h);
      SetCellsCells(Synced(m, g), g, cells, g);
      SetCellsCells(m, g, cells, g);
      OverwriteTwice(m.Cells(h), m.Cells(g), cells, Links(g, h));
    }
    SameCellsSameMaps(Synced(m1, g), Synced(m2, g));
  }
}
