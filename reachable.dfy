// Why the face and slice maps stay consistent under every sequence of committed turns:
// each reachable state is the solved cube with its 26 cubies moved between home
// positions, and every slot of every map shows the cubie at that slot's home position.

module Reachable {
  import opened CubeState
  import opened Permutation
  import opened Adjacency
  import opened Engine
  import opened SolvedCube
  import opened HomePositions

  /** The first slot of s holding k, or -1 when k is not in s. */
  function Position(s: seq<nat>, k: nat): (r: int)
    ensures -1 <= r < |s|
    ensures 0 <= r ==> s[r] == k && forall j | 0 <= j < r :: s[j] != k
    ensures r < 0 ==> forall j | 0 <= j < |s| :: s[j] != k
  {
    if s == [] then -1
    else if s[0] == k then 0
    else var r := Position(s[1..], k); if r < 0 then -1 else r + 1
  }

  /** In a sequence without repeats, the first slot holding s[j] is j. */
  lemma PositionOfDistinct(s: seq<nat>, j: nat)
    requires j < |s| && forall a, b | 0 <= a < b < |s| :: s[a] != s[b]
    ensures Position(s, s[j]) == j
  {
  }

  /** The slot of g's old array that lands in slot i, for a face or a slice alike. */
  function Source(g: Layer, i: nat, clockwise: bool): (k: nat)
    requires i < g.Size()
    ensures k < g.Size()
  {
    if g.IsFace() then FaceSource(i, clockwise) else SliceSource(i, g, clockwise)
  }

  /** Slot i of the reordered array holds the name that was in slot Source(g, i). */
  lemma TurnedFromSource(cells: seq<Name>, g: Layer, clockwise: bool)
    requires |cells| == g.Size()
    ensures forall i | 0 <= i < g.Size() :: Turned(cells, g, clockwise)[i] == cells[Source(g, i, clockwise)]
  {
  }

  /** Different slots take their names from different slots. */
  lemma SourceInjective(g: Layer, i: nat, j: nat, clockwise: bool)
    requires i < g.Size() && j < g.Size() && i != j
    ensures Source(g, i, clockwise) != Source(g, j, clockwise)
  {
    if g.IsFace() {
      FaceSourceInverse(i, clockwise);
      FaceSourceInverse(j, clockwise);
    }
  }

  /** The home position whose cubie a quarter turn of g brings into home position k: the
      position of the source slot when k belongs to g, k itself otherwise. */
  function Origin(g: Layer, clockwise: bool, k: nat): (o: nat)
    requires k < |CubieNames|
    ensures o < |CubieNames|
  {
    var j := Position(Home(g), k);
    if j < 0 then k else HomeOf(g, Source(g, j, clockwise))
  }

  /** The home position of slot i of g receives the cubie from the home position of its
      source slot. */
  lemma OriginInLayer(g: Layer, clockwise: bool, i: nat)
    requires i < g.Size()
    ensures Origin(g, clockwise, HomeOf(g, i)) == HomeOf(g, Source(g, i, clockwise))
  {
    HomeOfSolved(g);
    PositionOfDistinct(Home(g), i);
  }

  /** Different home positions receive their cubies from different home positions. */
  lemma OriginInjective(g: Layer, clockwise: bool, a: nat, b: nat)
    requires a < |CubieNames| && b < |CubieNames| && a != b
    ensures Origin(g, clockwise, a) != Origin(g, clockwise, b)
  {
    var ja := Position(Home(g), a);
    var jb := Position(Home(g), b);
    HomeOfSolved(g);
    if 0 <= ja && 0 <= jb {
      SourceInjective(g, ja, jb, clockwise);
    } else if 0 <= ja {
      assert Home(g)[Source(g, ja, clockwise)] != b;
    } else if 0 <= jb {
      assert Home(g)[Source(g, jb, clockwise)] != a;
    }
  }

  /** The cubies after a quarter turn of g: `at` names the cubie in each home position, and
      every home position takes the cubie from its origin. */
  function Moved(at: seq<Name>, g: Layer, clockwise: bool): (r: seq<Name>)
    requires |at| == |CubieNames|
    ensures |r| == |CubieNames|
  {
    seq(|CubieNames|, k requires 0 <= k < |CubieNames| => at[Origin(g, clockwise, k)])
  }

  /** A turn moves every cubie to a home position and loses none: distinct cubies stay
      distinct, and no name appears that was not there before. */
  lemma MovedKeepsCubies(at: seq<Name>, g: Layer, clockwise: bool)
    requires |at| == |CubieNames| && Distinct(at)
    ensures Distinct(Moved(at, g, clockwise))
    ensures forall k | 0 <= k < |CubieNames| :: Moved(at, g, clockwise)[k] in at
  {
    var r := Moved(at, g, clockwise);
    forall a, b | 0 <= a < b < |CubieNames|
      ensures r[a] != r[b]
    {
      OriginInjective(g, clockwise, a, b);
    }
  }

  /** The maps show the placement `at`: at[k] is the cubie now in home position k, and every
      slot of every layer names the cubie in its own home position. */
  ghost predicate Shows(m: Maps, at: seq<Name>) {
    && m.WellFormed()
    && |at| == |CubieNames|
    && forall h: Layer, i | 0 <= i < h.Size() :: m.Cells(h)[i] == at[HomeOf(h, i)]
  }

  /** The solved cube shows every cubie at home. */
  lemma SolvedShowsCubieNames()
    ensures Shows(Solved(), CubieNames)
  {
    forall h: Layer
      ensures forall i | 0 <= i < h.Size() :: Solved().Cells(h)[i] == CubieNames[HomeOf(h, i)]
    {
      HomeOfSolved(h);
    }
  }

  /** A state that shows distinct cubies has no repeated name in any layer, and every
      neighbour slot agrees with every layer it is linked to. */
  lemma ShowsSound(m: Maps, at: seq<Name>, g: Layer)
    requires Shows(m, at) && Distinct(at)
    ensures Distinct(m.Cells(g))
    ensures Coherent(m, g)
  {
    ShowsDistinct(m, at, g);
    HomeLinks(g);
    LinksInRange(g);
  }

  lemma ShowsDistinct(m: Maps, at: seq<Name>, g: Layer)
    requires Shows(m, at) && Distinct(at)
    ensures Distinct(m.Cells(g))
  {
    HomeOfSolved(g);
  }

  /** One slot of the state after a committed turn shows the cubie the turn moved into its
      home position. */
  lemma CommitMovesSlot(m: Maps, at: seq<Name>, g: Layer, clockwise: bool, h: Layer, i: nat)
    requires Shows(m, at) && Distinct(at) && i < h.Size()
    ensures Commit(m, g, clockwise).Cells(h)[i] == Moved(at, g, clockwise)[HomeOf(h, i)]
  {
    if h == g {
      ShowsDistinct(m, at, g);
      CommitMovesTurnedSlot(m, at, g, clockwise, i);
    } else if i in Links(g, h) {
      ShowsDistinct(m, at, g);
      CommitMovesLinkedSlot(m, at, g, clockwise, h, i);
    } else {
      CommitKeepsUnlinkedSlot(m, at, g, clockwise, h, i);
    }
  }

  /** A slot outside g that is not linked to g keeps its cubie, which the turn leaves in its
      home position. */
  lemma CommitKeepsUnlinkedSlot(m: Maps, at: seq<Name>, g: Layer, clockwise: bool, h: Layer, i: nat)
    requires Shows(m, at) && h != g && i < h.Size() && i !in Links(g, h)
    ensures Commit(m, g, clockwise).Cells(h)[i] == Moved(at, g, clockwise)[HomeOf(h, i)]
  {
    CommitWritesOnlyLinkedSlots(m, g, clockwise, h, i);
    OriginOutsideLayer(g, clockwise, h, i);
  }

  /** A neighbour slot linked to g shows the cubie the turn moved into its home position. */
  lemma CommitMovesLinkedSlot(m: Maps, at: seq<Name>, g: Layer, clockwise: bool, h: Layer, i: nat)
    requires Shows(m, at) && Distinct(m.Cells(g)) && h != g && i < h.Size() && i in Links(g, h)
    ensures Commit(m, g, clockwise).Cells(h)[i] == Moved(at, g, clockwise)[HomeOf(h, i)]
  {
    LinksInRange(g);
    HomeLinks(g);
    var k := Links(g, h)[i];
    CommitIsCoherent(m, g, clockwise);
    assert Commit(m, g, clockwise).Cells(h)[i] == Commit(m, g, clockwise).Cells(g)[k];
    CommitMovesTurnedSlot(m, at, g, clockwise, k);
  }

  /** A home position outside g, as seen from a slot not linked to g, keeps its cubie. */
  lemma OriginOutsideLayer(g: Layer, clockwise: bool, h: Layer, i: nat)
    requires h != g && i < h.Size() && i !in Links(g, h)
    ensures Origin(g, clockwise, HomeOf(h, i)) == HomeOf(h, i)
  {
    forall j | 0 <= j < g.Size()
      ensures Home(g)[j] != HomeOf(h, i)
    {
      NotInLayer(g, h, i, j);
    }
  }

  /** A slot outside g that is not linked to g does not share a home position with g. */
  lemma NotInLayer(g: Layer, h: Layer, i: nat, j: nat)
    requires h != g && i < h.Size() && j < g.Size() && i !in Links(g, h)
    ensures HomeOf(h, i) != HomeOf(g, j)
  {
    HomeLinks(g);
  }

  /** Slot i of the turned layer shows the cubie the turn moved into its home position. */
  lemma CommitMovesTurnedSlot(m: Maps, at: seq<Name>, g: Layer, clockwise: bool, i: nat)
    requires Shows(m, at) && Distinct(m.Cells(g)) && i < g.Size()
    ensures Commit(m, g, clockwise).Cells(g)[i] == Moved(at, g, clockwise)[HomeOf(g, i)]
  {
    CommitRejectsOnlyDuplicates(m, g, clockwise);
    TurnedFromSource(m.Cells(g), g, clockwise);
    OriginInLayer(g, clockwise, i);
  }

  /** A committed turn of a state showing distinct cubies shows them moved by that turn. */
  lemma CommitShowsMoved(m: Maps, at: seq<Name>, g: Layer, clockwise: bool)
    requires Shows(m, at) && Distinct(at)
    ensures Shows(Commit(m, g, clockwise), Moved(at, g, clockwise))
  {
    forall h: Layer, i | 0 <= i < h.Size()
      ensures Commit(m, g, clockwise).Cells(h)[i] == Moved(at, g, clockwise)[HomeOf(h, i)]
    {
      CommitMovesSlot(m, at, g, clockwise, h, i);
    }
  }

  /** A quarter turn of one layer in one direction. */
  datatype Quarter = Quarter(layer: Layer, clockwise: bool)

  /** The maps after committing the given turns, in order, starting from the solved cube. */
  function Play(turns: seq<Quarter>): (m: Maps)
    ensures m.WellFormed()
  {
    if turns == [] then Solved()
    else
      var last := turns[|turns| - 1];
      Commit(Play(turns[..|turns| - 1]), last.layer, last.clockwise)
  }

  /** Where the cubies are after the given turns: the turns applied, in order, to CubieNames. */
  function Placement(turns: seq<Quarter>): (at: seq<Name>)
    ensures |at| == |CubieNames|
  {
    if turns == [] then CubieNames
    else
      var last := turns[|turns| - 1];
      Moved(Placement(turns[..|turns| - 1]), last.layer, last.clockwise)
  }

  /** After any sequence of turns the maps show the cubies where the turns put them, each
      of the 26 cubies once. */
  lemma {:induction false} PlayShowsPlacement(turns: seq<Quarter>)
    ensures Shows(Play(turns), Placement(turns))
    ensures Distinct(Placement(turns))
    ensures forall k | 0 <= k < |CubieNames| :: Placement(turns)[k] in CubieNames
  {
    if turns == [] {
      SolvedShowsCubieNames();
      CubieNamesDistinct();
    } else {
      var before := turns[..|turns| - 1];
      var last := turns[|turns| - 1];
      PlayShowsPlacement(before);
      CommitShowsMoved(Play(before), Placement(before), last.layer, last.clockwise);
      MovedKeepsCubies(Placement(before), last.layer, last.clockwise);
    }
  }

  /** After any sequence of turns no face or slice array holds a name twice, and every slot
      shared between two layers holds the same name in both maps. */
  lemma PlayKeepsMapsConsistent(turns: seq<Quarter>, g: Layer)
    ensures Distinct(Play(turns).Cells(g))
    ensures Coherent(Play(turns), g)
  {
    PlayShowsPlacement(turns);
    ShowsSound(Play(turns), Placement(turns), g);
  }

  /** After any sequence of turns the duplicate guard never rejects a turn: the turned layer
      receives its reordered array. */
  lemma PlayNeverRejects(turns: seq<Quarter>, g: Layer, clockwise: bool)
    ensures Commit(Play(turns), g, clockwise).Cells(g) == Turned(Play(turns).Cells(g), g, clockwise)
    ensures Commit(Play(turns), g, clockwise) != Play(turns)
  {
    var cells := Play(turns).Cells(g);
    PlayKeepsMapsConsistent(turns, g);
    CommitRejectsOnlyDuplicates(Play(turns), g, clockwise);
    TurnedFromSource(cells, g, clockwise);
    assert Source(g, 0, clockwise) != 0;
    assert Turned(cells, g, clockwise)[0] != cells[0];
  }

  /** Playing one more turn commits it on the maps reached so far. */
  lemma PlayOneMore(turns: seq<Quarter>, q: Quarter)
    ensures Play(turns + [q]) == Commit(Play(turns), q.layer, q.clockwise)
  {
    assert (turns + [q])[..|turns|] == turns;
  }

  /** What updateFaceMapAfterRotation and updateSliceMapAfterRotation do to maps that are
      either not yet filled or reached by turns from the solved cube: unfilled maps stay
      unfilled, and reached maps move on by one more turn. */
  lemma RotatePlaysOneMore(m: Maps, turns: seq<Quarter>, g: Layer, clockwise: bool)
    requires m.Blank() || m == Play(turns)
    ensures m.Blank() ==> Rotate(m, g, clockwise).Blank()
    ensures !m.Blank() ==> Rotate(m, g, clockwise) == Play(turns + [Quarter(g, clockwise)])
  {
    RotateKeepsShape(m, g, clockwise);
    PlayOneMore(turns, Quarter(g, clockwise));
  }

  /** After any sequence of turns, a turn followed by the opposite turn brings the maps back. */
  lemma PlayRoundTrip(turns: seq<Quarter>, g: Layer, clockwise: bool)
    ensures Commit(Commit(Play(turns), g, clockwise), g, !clockwise) == Play(turns)
  {
    PlayKeepsMapsConsistent(turns, g);
    CommitRoundTrip(Play(turns), g, clockwise);
  }

  /** After any sequence of turns, four turns of one layer the same way bring the maps back. */
  lemma PlayOrderFour(turns: seq<Quarter>, g: Layer, clockwise: bool)
    ensures Commit(Commit(Commit(Commit(Play(turns), g, clockwise), g, clockwise), g, clockwise), g, clockwise)
              == Play(turns)
  {
    PlayKeepsMapsConsistent(turns, g);
    CommitOrderFour(Play(turns), g, clockwise);
  }
}
