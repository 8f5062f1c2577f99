// Facts about the solved cube that initializeCubes seeds (rubik.h:1133-1143).

module SolvedCube {
  import opened CubeState
  import opened Permutation
  import opened Adjacency
  import opened Engine

  /** Every face array holds 9 different names and every slice array 8, and in the solved cube
      every neighbour slot already agrees with every layer. */
  lemma SolvedLayer(g: Layer)
    ensures Distinct(Solved().Cells(g))
    ensures Coherent(Solved(), g)
  {
    match g
    case U => SolvedU();
    case L => SolvedL();
    case F => SolvedF();
    case R => SolvedR();
    case B => SolvedB();
    case D => SolvedD();
    case V => SolvedV();
    case H => SolvedH();
    case S => SolvedS();
  }

  lemma SolvedU()
    ensures Distinct(Solved().Cells(U))
    ensures Coherent(Solved(), U)
  {
    forall h: Layer, i | i in Links(U, h)
      ensures Solved().Cells(h)[i] == Solved().Cells(U)[Links(U, h)[i]]
    {
      match h
      case U => case L => case F => case R => case B => case D =>
      case V => case H => case S =>
    }
  }

  lemma SolvedL()
    ensures Distinct(Solved().Cells(L))
    ensures Coherent(Solved(), L)
  {
    forall h: Layer, i | i in Links(L, h)
      ensures Solved().Cells(h)[i] == Solved().Cells(L)[Links(L, h)[i]]
    {
      match h
      case U => case L => case F => case R => case B => case D =>
      case V => case H => case S =>
    }
  }

  lemma SolvedF()
    ensures Distinct(Solved().Cells(F))
    ensures Coherent(Solved(), F)
  {
    forall h: Layer, i | i in Links(F, h)
      ensures Solved().Cells(h)[i] == Solved().Cells(F)[Links(F, h)[i]]
    {
      match h
      case U => case L => case F => case R => case B => case D =>
      case V => case H => case S =>
    }
  }

  lemma SolvedR()
    ensures Distinct(Solved().Cells(R))
    ensures Coherent(Solved(), R)
  {
    forall h: Layer, i | i in Links(R, h)
      ensures Solved().Cells(h)[i] == Solved().Cells(R)[Links(R, h)[i]]
    {
      match h
      case U => case L => case F => case R => case B => case D =>
      case V => case H => case S =>
    }
  }

  lemma SolvedB()
    ensures Distinct(Solved().Cells(B))
    ensures Coherent(Solved(), B)
  {
    forall h: Layer, i | i in Links(B, h)
      ensures Solved().Cells(h)[i] == Solved().Cells(B)[Links(B, h)[i]]
    {
      match h
      case U => case L => case F => case R => case B => case D =>
      case V => case H => case S =>
    }
  }

  lemma SolvedD()
    ensures Distinct(Solved().Cells(D))
    ensures Coherent(Solved(), D)
  {
    forall h: Layer, i | i in Links(D, h)
      ensures Solved().Cells(h)[i] == Solved().Cells(D)[Links(D, h)[i]]
    {
      match h
      case U => case L => case F => case R => case B => case D =>
      case V => case H => case S =>
    }
  }

  lemma SolvedV()
    ensures Distinct(Solved().Cells(V))
    ensures Coherent(Solved(), V)
  {
    forall h: Layer, i | i in Links(V, h)
      ensures Solved().Cells(h)[i] == Solved().Cells(V)[Links(V, h)[i]]
    {
      match h
      case U => case L => case F => case R => case B => case D =>
      case V => case H => case S =>
    }
  }

  lemma SolvedH()
    ensures Distinct(Solved().Cells(H))
    ensures Coherent(Solved(), H)
  {
    forall h: Layer, i | i in Links(H, h)
      ensures Solved().Cells(h)[i] == Solved().Cells(H)[Links(H, h)[i]]
    {
      match h
      case U => case L => case F => case R => case B => case D =>
      case V => case H => case S =>
    }
  }

  lemma SolvedS()
    ensures Distinct(Solved().Cells(S))
    ensures Coherent(Solved(), S)
  {
    forall h: Layer, i | i in Links(S, h)
      ensures Solved().Cells(h)[i] == Solved().Cells(S)[Links(S, h)[i]]
    {
      match h
      case U => case L => case F => case R => case B => case D =>
      case V => case H => case S =>
    }
  }

  /** A cubie sits in the array of face f exactly when f's letter is in its name. */
  lemma SolvedFacesMatchNames(f: Face, k: nat)
    requires k < |CubieNames|
    ensures CubieNames[k] in Solved().Cells(f) <==> f.Letter() in CubieNames[k]
  {
    match f
    case U => NamesOnU(k);
    case L => NamesOnL(k);
    case F => NamesOnF(k);
    case R => NamesOnR(k);
    case B => NamesOnB(k);
    case D => NamesOnD(k);
  }

  /** Each name is spelled with one to three different face letters. With
      SolvedFacesMatchNames, a name shows on as many faces as it has letters: a corner on 3,
      an edge on 2 and a centre on 1. */
  lemma CubieNamesSpellFaces(k: nat)
    requires k < |CubieNames|
    ensures 1 <= |CubieNames[k]| <= 3
    ensures forall j | 0 <= j < |CubieNames[k]| ::
              LayerOf(CubieNames[k][j]).Some? && LayerOf(CubieNames[k][j]).value.IsFace()
    ensures forall a, b | 0 <= a < b < |CubieNames[k]| :: CubieNames[k][a] != CubieNames[k][b]
  {
  }

  lemma NamesOnU(k: nat)
    requires k < |CubieNames|
    ensures CubieNames[k] in Solved().Cells(U) <==> 'U' in CubieNames[k]
  {
  }

  lemma NamesOnL(k: nat)
    requires k < |CubieNames|
    ensures CubieNames[k] in Solved().Cells(L) <==> 'L' in CubieNames[k]
  {
  }

  lemma NamesOnF(k: nat)
    requires k < |CubieNames|
    ensures CubieNames[k] in Solved().Cells(F) <==> 'F' in CubieNames[k]
  {
  }

  lemma NamesOnR(k: nat)
    requires k < |CubieNames|
    ensures CubieNames[k] in Solved().Cells(R) <==> 'R' in CubieNames[k]
  {
  }

  lemma NamesOnB(k: nat)
    requires k < |CubieNames|
    ensures CubieNames[k] in Solved().Cells(B) <==> 'B' in CubieNames[k]
  {
  }

  lemma NamesOnD(k: nat)
    requires k < |CubieNames|
    ensures CubieNames[k] in Solved().Cells(D) <==> 'D' in CubieNames[k]
  {
  }

  /** The 26 names are pairwise different. */
  lemma CubieNamesDistinct()
    ensures Distinct(CubieNames)
  {
    NamesByColumn();
    ColumnsDistinct();
    forall i, j | 0 <= i < j < 26
      ensures CubieNames[i] != CubieNames[j]
    {
      if i < 9 && j < 9 {
        assert CubieNames[..9][i] == CubieNames[i] && CubieNames[..9][j] == CubieNames[j];
      } else if 9 <= i && j < 17 {
        assert CubieNames[9..17][i - 9] == CubieNames[i] && CubieNames[9..17][j - 9] == CubieNames[j];
      } else if 17 <= i {
        assert CubieNames[17..][i - 17] == CubieNames[i] && CubieNames[17..][j - 17] == CubieNames[j];
      }
    }
  }

  lemma ColumnsDistinct()
    ensures Distinct(CubieNames[..9]) && Distinct(CubieNames[9..17]) && Distinct(CubieNames[17..])
  {
    LeftColumnDistinct();
    MiddleColumnDistinct();
    RightColumnDistinct();
  }

  lemma LeftColumnDistinct()
    ensures Distinct(CubieNames[..9])
  {
  }

  lemma MiddleColumnDistinct()
    ensures Distinct(CubieNames[9..17])
  {
  }

  lemma RightColumnDistinct()
    ensures Distinct(CubieNames[17..])
  {
  }

  /** The first 9 names begin with L, the last 9 with R and the 8 between with neither. */
  lemma NamesByColumn()
    ensures forall i | 0 <= i < 9 :: CubieNames[i][0] == 'L'
    ensures forall i | 9 <= i < 17 :: CubieNames[i][0] != 'L' && CubieNames[i][0] != 'R'
    ensures forall i | 17 <= i < 26 :: CubieNames[i][0] == 'R'
  {
  }

  /** Every name in the solved maps is one of the 26 cubies. */
  lemma SolvedNamesAreCubies(g: Layer)
    ensures forall i | 0 <= i < g.Size() :: Solved().Cells(g)[i] in CubieNames
  {
    match g
    case U => case L => case F => case R => case B => case D =>
    case V => case H => case S =>
  }

  /** The state after R, starting from the solved cube. */
  function AfterR(): (m: Maps)
    ensures m.WellFormed()
  {
    Maps(FaceMap(
      ["LUB", "UB", "RUF", "LU", "U", "RF", "LUF", "UF", "RDF"],
      ["LUB", "LU", "LUF", "LB", "L", "LF", "LDB", "LD", "LDF"],
      ["LUF", "UF", "RDF", "LF", "F", "RD", "LDF", "DF", "RDB"],
      ["RDF", "RF", "RUF", "RD", "R", "RU", "RDB", "RB", "RUB"],
      ["RUF", "UB", "LUB", "RU", "B", "LB", "RUB", "DB", "LDB"],
      ["LDF", "DF", "RDB", "LD", "D", "RB", "LDB", "DB", "RUB"]),
    SliceMap(
      ["UB", "U", "UF", "F", "DF", "D", "DB", "B"],
      ["LB", "L", "LF", "F", "RD", "R", "RU", "B"],
      ["LU", "U", "RF", "R", "RB", "D", "LD", "L"]))
  }

  /** A clockwise R from the solved cube moves the front-right column up into U, leaves L and V
      untouched, and the counter-clockwise R that follows restores the solved cube. */
  lemma RightTurnFromSolved()
    ensures Commit(Solved(), R, true) == AfterR()
    ensures Commit(AfterR(), R, false) == Solved()
  {
    RightTurnForward();
    SolvedR();
    CommitRoundTrip(Solved(), R, true);
  }

  lemma RightTurnForward()
    ensures Commit(Solved(), R, true) == AfterR()
  {
    var turned := RightFaceTurned();
    var m := Solved().SetCells(R, turned);
    forall h: Layer
      ensures Synced(m, R).Cells(h) == AfterR().Cells(h)
    {
      SyncedCellsOf(m, R, h);
      RightTurnNeighbour(m, h);
    }
    SameCellsSameMaps(Synced(m, R), AfterR());
  }

  lemma RightFaceTurned() returns (turned: seq<Name>)
    ensures turned == Turned(Solved().Cells(R), R, true) == AfterR().Cells(R)
    ensures Distinct(turned)
  {
    SolvedR();
    turned := Turned(Solved().Cells(R), R, true);
    TurnedDistinct(Solved().Cells(R), R, true);
  }

  lemma RightTurnNeighbour(m: Maps, h: Layer)
    requires m == Solved().SetCells(R, AfterR().Cells(R))
    ensures SyncedCells(m, R, h) == AfterR().Cells(h)
  {
    match h
    case U => ThreeCopies(m, R, U, 2, 2, 5, 1, 8, 0);
    case L => NoCopies(m, R, L);
    case F => ThreeCopies(m, R, F, 2, 0, 5, 3, 8, 6);
    case R => NoCopies(m, R, R);
    case _ => RightTurnFarNeighbour(m, h);
  }

  lemma RightTurnFarNeighbour(m: Maps, h: Layer)
    requires m == Solved().SetCells(R, AfterR().Cells(R))
    requires h in {B, D, V, H, S}
    ensures SyncedCells(m, R, h) == AfterR().Cells(h)
  {
    if h in {B, D} {
      RightTurnBackNeighbour(m, h);
    } else {
      RightTurnSliceNeighbour(m, h);
    }
  }

  lemma RightTurnBackNeighbour(m: Maps, h: Layer)
    requires m == Solved().SetCells(R, AfterR().Cells(R))
    requires h in {B, D}
    ensures SyncedCells(m, R, h) == AfterR().Cells(h)
  {
    match h
    case B => ThreeCopies(m, R, B, 0, 2, 3, 5, 6, 8);
    case D => ThreeCopies(m, R, D, 2, 6, 5, 7, 8, 8);
  }

  lemma RightTurnSliceNeighbour(m: Maps, h: Layer)
    requires m == Solved().SetCells(R, AfterR().Cells(R))
    requires h in {V, H, S}
    ensures SyncedCells(m, R, h) == AfterR().Cells(h)
  {
    match h
    case V => NoCopies(m, R, V);
    case H => ThreeCopies(m, R, H, 6, 5, 5, 4, 4, 3);
    case S => ThreeCopies(m, R, S, 2, 1, 3, 4, 4, 7);
  }
}
