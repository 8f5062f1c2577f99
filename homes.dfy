// The home positions of the slots of every face and slice array in the solved cube that
// initializeCubes seeds (rubik.h:1133-1143), and how they line up with the neighbour
// copies of updateAdjacentFaces (rubik.h:360-791).

module HomePositions {
  import opened CubeState
  import opened Adjacency

  /** The home position of slot i of layer g: the index in CubieNames of the cubie the solved
      cube puts in that slot. Slots of different layers that hold the same cubie share a home
      position. */
  function HomeOf(g: Layer, i: nat): (k: nat)
    ensures k < |CubieNames|
  {
    match g
    case U => (match i case 0 => 6 case 1 => 14 case 2 => 23 case 3 => 7 case 4 => 15 case 5 => 24 case 6 => 8 case 7 => 16 case _ => 25)
    case L => (match i case 0 => 6 case 1 => 7 case 2 => 8 case 3 => 3 case 4 => 4 case 5 => 5 case 6 => 0 case 7 => 1 case _ => 2)
    case F => (match i case 0 => 8 case 1 => 16 case 2 => 25 case 3 => 5 case 4 => 13 case 5 => 22 case 6 => 2 case 7 => 11 case _ => 19)
    case R => (match i case 0 => 25 case 1 => 24 case 2 => 23 case 3 => 22 case 4 => 21 case 5 => 20 case 6 => 19 case 7 => 18 case _ => 17)
    case B => (match i case 0 => 23 case 1 => 14 case 2 => 6 case 3 => 20 case 4 => 12 case 5 => 3 case 6 => 17 case 7 => 9 case _ => 0)
    case D => (match i case 0 => 2 case 1 => 11 case 2 => 19 case 3 => 1 case 4 => 10 case 5 => 18 case 6 => 0 case 7 => 9 case _ => 17)
    case V => (match i case 0 => 14 case 1 => 15 case 2 => 16 case 3 => 13 case 4 => 11 case 5 => 10 case 6 => 9 case _ => 12)
    case H => (match i case 0 => 3 case 1 => 4 case 2 => 5 case 3 => 13 case 4 => 22 case 5 => 21 case 6 => 20 case _ => 12)
    case S => (match i case 0 => 7 case 1 => 15 case 2 => 24 case 3 => 21 case 4 => 18 case 5 => 10 case 6 => 1 case _ => 4)
  }

  /** The home positions of the slots of layer g, in slot order. */
  function Home(g: Layer): (r: seq<nat>)
    ensures |r| == g.Size()
    ensures forall i | 0 <= i < |r| :: r[i] == HomeOf(g, i) && r[i] < |CubieNames|
  {
    seq(g.Size(), i requires 0 <= i => HomeOf(g, i))
  }

  /** The solved cube shows, in every slot, the cubie whose home position that slot is, and
      the slots of one layer have different home positions. */
  lemma HomeOfSolved(g: Layer)
    ensures forall i | 0 <= i < g.Size() :: Solved().Cells(g)[i] == CubieNames[HomeOf(g, i)]
    ensures forall i, j | 0 <= i < j < g.Size() :: HomeOf(g, i) != HomeOf(g, j)
  {
    match g
    case U => SolvedAtHomeU(); HomeDistinctU();
    case L => SolvedAtHomeL(); HomeDistinctL();
    case F => SolvedAtHomeF(); HomeDistinctF();
    case R => SolvedAtHomeR(); HomeDistinctR();
    case B => SolvedAtHomeB(); HomeDistinctB();
    case D => SolvedAtHomeD(); HomeDistinctD();
    case V => SolvedAtHomeV(); HomeDistinctV();
    case H => SolvedAtHomeH(); HomeDistinctH();
    case S => SolvedAtHomeS(); HomeDistinctS();
  }

  /** A neighbour slot linked to g has the home position of the slot of g it copies, and
      every slot outside g that shares a home position with a slot of g is linked to g:
      updateAdjacentFaces misses no copy of a turned cubie. */
  lemma HomeLinks(g: Layer)
    ensures forall h: Layer, i | i in Links(g, h) :: HomeOf(h, i) == HomeOf(g, Links(g, h)[i])
    ensures forall h: Layer, i, j | 0 <= i < h.Size() && 0 <= j < g.Size() && h != g && HomeOf(h, i) == HomeOf(g, j) ::
              i in Links(g, h)
  {
    match g
    case U => LinkedAtHomeU(); CompleteAtHomeU();
    case L => LinkedAtHomeL(); CompleteAtHomeL();
    case F => LinkedAtHomeF(); CompleteAtHomeF();
    case R => LinkedAtHomeR(); CompleteAtHomeR();
    case B => LinkedAtHomeB(); CompleteAtHomeB();
    case D => LinkedAtHomeD(); CompleteAtHomeD();
    case V => LinkedAtHomeV(); CompleteAtHomeV();
    case H => LinkedAtHomeH(); CompleteAtHomeH();
    case S => LinkedAtHomeS(); CompleteAtHomeS();
  }

  lemma SolvedAtHomeU()
    ensures forall i | 0 <= i < 9 :: Solved().Cells(U)[i] == CubieNames[HomeOf(U, i)]
  {
  }

  lemma HomeDistinctU()
    ensures forall i, j | 0 <= i < j < 9 :: HomeOf(U, i) != HomeOf(U, j)
  {
  }

  lemma SolvedAtHomeL()
    ensures forall i | 0 <= i < 9 :: Solved().Cells(L)[i] == CubieNames[HomeOf(L, i)]
  {
  }

  lemma HomeDistinctL()
    ensures forall i, j | 0 <= i < j < 9 :: HomeOf(L, i) != HomeOf(L, j)
  {
  }

  lemma SolvedAtHomeF()
    ensures forall i | 0 <= i < 9 :: Solved().Cells(F)[i] == CubieNames[HomeOf(F, i)]
  {
  }

  lemma HomeDistinctF()
    ensures forall i, j | 0 <= i < j < 9 :: HomeOf(F, i) != HomeOf(F, j)
  {
  }

  lemma SolvedAtHomeR()
    ensures forall i | 0 <= i < 9 :: Solved().Cells(R)[i] == CubieNames[HomeOf(R, i)]
  {
  }

  lemma HomeDistinctR()
    ensures forall i, j | 0 <= i < j < 9 :: HomeOf(R, i) != HomeOf(R, j)
  {
  }

  lemma SolvedAtHomeB()
    ensures forall i | 0 <= i < 9 :: Solved().Cells(B)[i] == CubieNames[HomeOf(B, i)]
  {
  }

  lemma HomeDistinctB()
    ensures forall i, j | 0 <= i < j < 9 :: HomeOf(B, i) != HomeOf(B, j)
  {
  }

  lemma SolvedAtHomeD()
    ensures forall i | 0 <= i < 9 :: Solved().Cells(D)[i] == CubieNames[HomeOf(D, i)]
  {
  }

  lemma HomeDistinctD()
    ensures forall i, j | 0 <= i < j < 9 :: HomeOf(D, i) != HomeOf(D, j)
  {
  }

  lemma SolvedAtHomeV()
    ensures forall i | 0 <= i < 8 :: Solved().Cells(V)[i] == CubieNames[HomeOf(V, i)]
  {
  }

  lemma HomeDistinctV()
    ensures forall i, j | 0 <= i < j < 8 :: HomeOf(V, i) != HomeOf(V, j)
  {
  }

  lemma SolvedAtHomeH()
    ensures forall i | 0 <= i < 8 :: Solved().Cells(H)[i] == CubieNames[HomeOf(H, i)]
  {
  }

  lemma HomeDistinctH()
    ensures forall i, j | 0 <= i < j < 8 :: HomeOf(H, i) != HomeOf(H, j)
  {
  }

  lemma SolvedAtHomeS()
    ensures forall i | 0 <= i < 8 :: Solved().Cells(S)[i] == CubieNames[HomeOf(S, i)]
  {
  }

  lemma HomeDistinctS()
    ensures forall i, j | 0 <= i < j < 8 :: HomeOf(S, i) != HomeOf(S, j)
  {
  }

  lemma LinkedAtHomeU()
    ensures forall h: Layer, i | i in Links(U, h) :: HomeOf(h, i) == HomeOf(U, Links(U, h)[i])
  {
    forall h: Layer, i | i in Links(U, h)
      ensures HomeOf(h, i) == HomeOf(U, Links(U, h)[i])
    {
      match h
      case U => case L => case F => case R => case B => case D =>
      case V => case H => case S =>
    }
  }

  lemma CompleteAtHomeU()
    ensures forall h: Layer, i, j | 0 <= i < h.Size() && 0 <= j < 9 && h != U && HomeOf(h, i) == HomeOf(U, j) ::
              i in Links(U, h)
  {
    forall h: Layer, i, j | 0 <= i < h.Size() && 0 <= j < 9 && h != U && HomeOf(h, i) == HomeOf(U, j)
      ensures i in Links(U, h)
    {
      match h
      case U => case L => case F => case R => case B => case D =>
      case V => case H => case S =>
    }
  }

  lemma LinkedAtHomeL()
    ensures forall h: Layer, i | i in Links(L, h) :: HomeOf(h, i) == HomeOf(L, Links(L, h)[i])
  {
    forall h: Layer, i | i in Links(L, h)
      ensures HomeOf(h, i) == HomeOf(L, Links(L, h)[i])
    {
      match h
      case U => case L => case F => case R => case B => case D =>
      case V => case H => case S =>
    }
  }

  lemma CompleteAtHomeL()
    ensures forall h: Layer, i, j | 0 <= i < h.Size() && 0 <= j < 9 && h != L && HomeOf(h, i) == HomeOf(L, j) ::
              i in Links(L, h)
  {
    forall h: Layer, i, j | 0 <= i < h.Size() && 0 <= j < 9 && h != L && HomeOf(h, i) == HomeOf(L, j)
      ensures i in Links(L, h)
    {
      match h
      case U => case L => case F => case R => case B => case D =>
      case V => case H => case S =>
    }
  }

  lemma LinkedAtHomeF()
    ensures forall h: Layer, i | i in Links(F, h) :: HomeOf(h, i) == HomeOf(F, Links(F, h)[i])
  {
    forall h: Layer, i | i in Links(F, h)
      ensures HomeOf(h, i) == HomeOf(F, Links(F, h)[i])
    {
      match h
      case U => case L => case F => case R => case B => case D =>
      case V => case H => case S =>
    }
  }

  lemma CompleteAtHomeF()
    ensures forall h: Layer, i, j | 0 <= i < h.Size() && 0 <= j < 9 && h != F && HomeOf(h, i) == HomeOf(F, j) ::
              i in Links(F, h)
  {
    forall h: Layer, i, j | 0 <= i < h.Size() && 0 <= j < 9 && h != F && HomeOf(h, i) == HomeOf(F, j)
      ensures i in Links(F, h)
    {
      match h
      case U => case L => case F => case R => case B => case D =>
      case V => case H => case S =>
    }
  }

  lemma LinkedAtHomeR()
    ensures forall h: Layer, i | i in Links(R, h) :: HomeOf(h, i) == HomeOf(R, Links(R, h)[i])
  {
    forall h: Layer, i | i in Links(R, h)
      ensures HomeOf(h, i) == HomeOf(R, Links(R, h)[i])
    {
      match h
      case U => case L => case F => case R => case B => case D =>
      case V => case H => case S =>
    }
  }

  lemma CompleteAtHomeR()
    ensures forall h: Layer, i, j | 0 <= i < h.Size() && 0 <= j < 9 && h != R && HomeOf(h, i) == HomeOf(R, j) ::
              i in Links(R, h)
  {
    forall h: Layer, i, j | 0 <= i < h.Size() && 0 <= j < 9 && h != R && HomeOf(h, i) == HomeOf(R, j)
      ensures i in Links(R, h)
    {
      match h
      case U => case L => case F => case R => case B => case D =>
      case V => case H => case S =>
    }
  }

  lemma LinkedAtHomeB()
    ensures forall h: Layer, i | i in Links(B, h) :: HomeOf(h, i) == HomeOf(B, Links(B, h)[i])
  {
    forall h: Layer, i | i in Links(B, h)
      ensures HomeOf(h, i) == HomeOf(B, Links(B, h)[i])
    {
      match h
      case U => case L => case F => case R => case B => case D =>
      case V => case H => case S =>
    }
  }

  lemma CompleteAtHomeB()
    ensures forall h: Layer, i, j | 0 <= i < h.Size() && 0 <= j < 9 && h != B && HomeOf(h, i) == HomeOf(B, j) ::
              i in Links(B, h)
  {
    forall h: Layer, i, j | 0 <= i < h.Size() && 0 <= j < 9 && h != B && HomeOf(h, i) == HomeOf(B, j)
      ensures i in Links(B, h)
    {
      match h
      case U => case L => case F => case R => case B => case D =>
      case V => case H => case S =>
    }
  }

  lemma LinkedAtHomeD()
    ensures forall h: Layer, i | i in Links(D, h) :: HomeOf(h, i) == HomeOf(D, Links(D, h)[i])
  {
    forall h: Layer, i | i in Links(D, h)
      ensures HomeOf(h, i) == HomeOf(D, Links(D, h)[i])
    {
      match h
      case U => case L => case F => case R => case B => case D =>
      case V => case H => case S =>
    }
  }

  lemma CompleteAtHomeD()
    ensures forall h: Layer, i, j | 0 <= i < h.Size() && 0 <= j < 9 && h != D && HomeOf(h, i) == HomeOf(D, j) ::
              i in Links(D, h)
  {
    forall h: Layer, i, j | 0 <= i < h.Size() && 0 <= j < 9 && h != D && HomeOf(h, i) == HomeOf(D, j)
      ensures i in Links(D, h)
    {
      match h
      case U => case L => case F => case R => case B => case D =>
      case V => case H => case S =>
    }
  }

  lemma LinkedAtHomeV()
    ensures forall h: Layer, i | i in Links(V, h) :: HomeOf(h, i) == HomeOf(V, Links(V, h)[i])
  {
    forall h: Layer, i | i in Links(V, h)
      ensures HomeOf(h, i) == HomeOf(V, Links(V, h)[i])
    {
      match h
      case U => case L => case F => case R => case B => case D =>
      case V => case H => case S =>
    }
  }

  lemma CompleteAtHomeV()
    ensures forall h: Layer, i, j | 0 <= i < h.Size() && 0 <= j < 8 && h != V && HomeOf(h, i) == HomeOf(V, j) ::
              i in Links(V, h)
  {
    forall h: Layer, i, j | 0 <= i < h.Size() && 0 <= j < 8 && h != V && HomeOf(h, i) == HomeOf(V, j)
      ensures i in Links(V, h)
    {
      match h
      case U => case L => case F => case R => case B => case D =>
      case V => case H => case S =>
    }
  }

  lemma LinkedAtHomeH()
    ensures forall h: Layer, i | i in Links(H, h) :: HomeOf(h, i) == HomeOf(H, Links(H, h)[i])
  {
    forall h: Layer, i | i in Links(H, h)
      ensures HomeOf(h, i) == HomeOf(H, Links(H, h)[i])
    {
      match h
      case U => case L => case F => case R => case B => case D =>
      case V => case H => case S =>
    }
  }

  lemma CompleteAtHomeH()
    ensures forall h: Layer, i, j | 0 <= i < h.Size() && 0 <= j < 8 && h != H && HomeOf(h, i) == HomeOf(H, j) ::
              i in Links(H, h)
  {
    forall h: Layer, i, j | 0 <= i < h.Size() && 0 <= j < 8 && h != H && HomeOf(h, i) == HomeOf(H, j)
      ensures i in Links(H, h)
    {
      match h
      case U => case L => case F => case R => case B => case D =>
      case V => case H => case S =>
    }
  }

  lemma LinkedAtHomeS()
    ensures forall h: Layer, i | i in Links(S, h) :: HomeOf(h, i) == HomeOf(S, Links(S, h)[i])
  {
    forall h: Layer, i | i in Links(S, h)
      ensures HomeOf(h, i) == HomeOf(S, Links(S, h)[i])
    {
      match h
      case U => case L => case F => case R => case B => case D =>
      case V => case H => case S =>
    }
  }

  lemma CompleteAtHomeS()
    ensures forall h: Layer, i, j | 0 <= i < h.Size() && 0 <= j < 8 && h != S && HomeOf(h, i) == HomeOf(S, j) ::
              i in Links(S, h)
  {
    forall h: Layer, i, j | 0 <= i < h.Size() && 0 <= j < 8 && h != S && HomeOf(h, i) == HomeOf(S, j)
      ensures i in Links(S, h)
    {
      match h
      case U => case L => case F => case R => case B => case D =>
      case V => case H => case S =>
    }
  }
}
