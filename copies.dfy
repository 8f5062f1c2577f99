// The copies of updateAdjacentFaces in rubik.h written out slot by slot for
// each turned layer, as the source lists them, and shown to agree with the
// neighbour table of the Adjacency module.

module AdjacentCopies {
  import opened CubeState
  import opened Adjacency

  /** The face arrays after the copies from U, slot by slot. */
  lemma CopiesFromUToFaces(m: Maps)
    requires m.WellFormed()
    ensures SyncedCells(m, U, U) == m.faceMap.u
    ensures SyncedCells(m, U, L) == m.faceMap.l[0 := m.faceMap.u[0]][1 := m.faceMap.u[3]][2 := m.faceMap.u[6]]
    ensures SyncedCells(m, U, F) == m.faceMap.f[0 := m.faceMap.u[6]][1 := m.faceMap.u[7]][2 := m.faceMap.u[8]]
    ensures SyncedCells(m, U, R) == m.faceMap.r[2 := m.faceMap.u[2]][1 := m.faceMap.u[5]][0 := m.faceMap.u[8]]
    ensures SyncedCells(m, U, B) == m.faceMap.b[2 := m.faceMap.u[0]][1 := m.faceMap.u[1]][0 := m.faceMap.u[2]]
    ensures SyncedCells(m, U, D) == m.faceMap.d
  {
    NoCopies(m, U, U);
    ThreeCopies(m, U, L, 0, 0, 1, 3, 2, 6);
    ThreeCopies(m, U, F, 0, 6, 1, 7, 2, 8);
    ThreeCopies(m, U, R, 2, 2, 1, 5, 0, 8);
    ThreeCopies(m, U, B, 2, 0, 1, 1, 0, 2);
    NoCopies(m, U, D);
  }

  /** The slice arrays after the copies from U, slot by slot. */
  lemma CopiesFromUToSlices(m: Maps)
    requires m.WellFormed()
    ensures SyncedCells(m, U, V) == m.sliceMap.v[0 := m.faceMap.u[1]][1 := m.faceMap.u[4]][2 := m.faceMap.u[7]]
    ensures SyncedCells(m, U, H) == m.sliceMap.h
    ensures SyncedCells(m, U, S) == m.sliceMap.s[0 := m.faceMap.u[3]][1 := m.faceMap.u[4]][2 := m.faceMap.u[5]]
  {
    ThreeCopies(m, U, V, 0, 1, 1, 4, 2, 7);
    NoCopies(m, U, H);
    ThreeCopies(m, U, S, 0, 3, 1, 4, 2, 5);
  }

  /** The face arrays after the copies from L, slot by slot. */
  lemma CopiesFromLToFaces(m: Maps)
    requires m.WellFormed()
    ensures SyncedCells(m, L, U) == m.faceMap.u[0 := m.faceMap.l[0]][3 := m.faceMap.l[1]][6 := m.faceMap.l[2]]
    ensures SyncedCells(m, L, L) == m.faceMap.l
    ensures SyncedCells(m, L, F) == m.faceMap.f[0 := m.faceMap.l[2]][3 := m.faceMap.l[5]][6 := m.faceMap.l[8]]
    ensures SyncedCells(m, L, R) == m.faceMap.r
    ensures SyncedCells(m, L, B) == m.faceMap.b[2 := m.faceMap.l[0]][5 := m.faceMap.l[3]][8 := m.faceMap.l[6]]
    ensures SyncedCells(m, L, D) == m.faceMap.d[0 := m.faceMap.l[8]][3 := m.faceMap.l[7]][6 := m.faceMap.l[6]]
  {
    ThreeCopies(m, L, U, 0, 0, 3, 1, 6, 2);
    NoCopies(m, L, L);
    ThreeCopies(m, L, F, 0, 2, 3, 5, 6, 8);
    NoCopies(m, L, R);
    ThreeCopies(m, L, B, 2, 0, 5, 3, 8, 6);
    ThreeCopies(m, L, D, 0, 8, 3, 7, 6, 6);
  }

  /** The slice arrays after the copies from L, slot by slot. */
  lemma CopiesFromLToSlices(m: Maps)
    requires m.WellFormed()
    ensures SyncedCells(m, L, V) == m.sliceMap.v
    ensures SyncedCells(m, L, H) == m.sliceMap.h[0 := m.faceMap.l[3]][1 := m.faceMap.l[4]][2 := m.faceMap.l[5]]
    ensures SyncedCells(m, L, S) == m.sliceMap.s[0 := m.faceMap.l[1]][7 := m.faceMap.l[4]][6 := m.faceMap.l[7]]
  {
    NoCopies(m, L, V);
    ThreeCopies(m, L, H, 0, 3, 1, 4, 2, 5);
    ThreeCopies(m, L, S, 0, 1, 7, 4, 6, 7);
  }

  /** The face arrays after the copies from F, slot by slot. */
  lemma CopiesFromFToFaces(m: Maps)
    requires m.WellFormed()
    ensures SyncedCells(m, F, U) == m.faceMap.u[6 := m.faceMap.f[0]][7 := m.faceMap.f[1]][8 := m.faceMap.f[2]]
    ensures SyncedCells(m, F, L) == m.faceMap.l[2 := m.faceMap.f[0]][5 := m.faceMap.f[3]][8 := m.faceMap.f[6]]
    ensures SyncedCells(m, F, F) == m.faceMap.f
    ensures SyncedCells(m, F, R) == m.faceMap.r[0 := m.faceMap.f[2]][3 := m.faceMap.f[5]][6 := m.faceMap.f[8]]
    ensures SyncedCells(m, F, B) == m.faceMap.b
    ensures SyncedCells(m, F, D) == m.faceMap.d[0 := m.faceMap.f[6]][1 := m.faceMap.f[7]][2 := m.faceMap.f[8]]
  {
    ThreeCopies(m, F, U, 6, 0, 7, 1, 8, 2);
    ThreeCopies(m, F, L, 2, 0, 5, 3, 8, 6);
    NoCopies(m, F, F);
    ThreeCopies(m, F, R, 0, 2, 3, 5, 6, 8);
    NoCopies(m, F, B);
    ThreeCopies(m, F, D, 0, 6, 1, 7, 2, 8);
  }

  /** The slice arrays after the copies from F, slot by slot. */
  lemma CopiesFromFToSlices(m: Maps)
    requires m.WellFormed()
    ensures SyncedCells(m, F, V) == m.sliceMap.v[2 := m.faceMap.f[1]][3 := m.faceMap.f[4]][4 := m.faceMap.f[7]]
    ensures SyncedCells(m, F, H) == m.sliceMap.h[2 := m.faceMap.f[3]][3 := m.faceMap.f[4]][4 := m.faceMap.f[5]]
    ensures SyncedCells(m, F, S) == m.sliceMap.s
  {
    ThreeCopies(m, F, V, 2, 1, 3, 4, 4, 7);
    ThreeCopies(m, F, H, 2, 3, 3, 4, 4, 5);
    NoCopies(m, F, S);
  }

  /** The face arrays after the copies from R, slot by slot. */
  lemma CopiesFromRToFaces(m: Maps)
    requires m.WellFormed()
    ensures SyncedCells(m, R, U) == m.faceMap.u[2 := m.faceMap.r[2]][5 := m.faceMap.r[1]][8 := m.faceMap.r[0]]
    ensures SyncedCells(m, R, L) == m.faceMap.l
    ensures SyncedCells(m, R, F) == m.faceMap.f[2 := m.faceMap.r[0]][5 := m.faceMap.r[3]][8 := m.faceMap.r[6]]
    ensures SyncedCells(m, R, R) == m.faceMap.r
    ensures SyncedCells(m, R, B) == m.faceMap.b[0 := m.faceMap.r[2]][3 := m.faceMap.r[5]][6 := m.faceMap.r[8]]
    ensures SyncedCells(m, R, D) == m.faceMap.d[2 := m.faceMap.r[6]][5 := m.faceMap.r[7]][8 := m.faceMap.r[8]]
  {
    ThreeCopies(m, R, U, 2, 2, 5, 1, 8, 0);
    NoCopies(m, R, L);
    ThreeCopies(m, R, F, 2, 0, 5, 3, 8, 6);
    NoCopies(m, R, R);
    ThreeCopies(m, R, B, 0, 2, 3, 5, 6, 8);
    ThreeCopies(m, R, D, 2, 6, 5, 7, 8, 8);
  }

  /** The slice arrays after the copies from R, slot by slot. */
  lemma CopiesFromRToSlices(m: Maps)
    requires m.WellFormed()
    ensures SyncedCells(m, R, V) == m.sliceMap.v
    ensures SyncedCells(m, R, H) == m.sliceMap.h[6 := m.faceMap.r[5]][5 := m.faceMap.r[4]][4 := m.faceMap.r[3]]
    ensures SyncedCells(m, R, S) == m.sliceMap.s[2 := m.faceMap.r[1]][3 := m.faceMap.r[4]][4 := m.faceMap.r[7]]
  {
    NoCopies(m, R, V);
    ThreeCopies(m, R, H, 6, 5, 5, 4, 4, 3);
    ThreeCopies(m, R, S, 2, 1, 3, 4, 4, 7);
  }

  /** The face arrays after the copies from B, slot by slot. */
  lemma CopiesFromBToFaces(m: Maps)
    requires m.WellFormed()
    ensures SyncedCells(m, B, U) == m.faceMap.u[0 := m.faceMap.b[2]][1 := m.faceMap.b[1]][2 := m.faceMap.b[0]]
    ensures SyncedCells(m, B, L) == m.faceMap.l[0 := m.faceMap.b[2]][3 := m.faceMap.b[5]][6 := m.faceMap.b[8]]
    ensures SyncedCells(m, B, F) == m.faceMap.f
    ensures SyncedCells(m, B, R) == m.faceMap.r[2 := m.faceMap.b[0]][5 := m.faceMap.b[3]][8 := m.faceMap.b[6]]
    ensures SyncedCells(m, B, B) == m.faceMap.b
    ensures SyncedCells(m, B, D) == m.faceMap.d[6 := m.faceMap.b[8]][7 := m.faceMap.b[7]][8 := m.faceMap.b[6]]
  {
    ThreeCopies(m, B, U, 0, 2, 1, 1, 2, 0);
    ThreeCopies(m, B, L, 0, 2, 3, 5, 6, 8);
    NoCopies(m, B, F);
    ThreeCopies(m, B, R, 2, 0, 5, 3, 8, 6);
    NoCopies(m, B, B);
    ThreeCopies(m, B, D, 6, 8, 7, 7, 8, 6);
  }

  /** The slice arrays after the copies from B, slot by slot. */
  lemma CopiesFromBToSlices(m: Maps)
    requires m.WellFormed()
    ensures SyncedCells(m, B, V) == m.sliceMap.v[0 := m.faceMap.b[1]][7 := m.faceMap.b[4]][6 := m.faceMap.b[7]]
    ensures SyncedCells(m, B, H) == m.sliceMap.h[0 := m.faceMap.b[5]][7 := m.faceMap.b[4]][6 := m.faceMap.b[3]]
    ensures SyncedCells(m, B, S) == m.sliceMap.s
  {
    ThreeCopies(m, B, V, 0, 1, 7, 4, 6, 7);
    ThreeCopies(m, B, H, 0, 5, 7, 4, 6, 3);
    NoCopies(m, B, S);
  }

  /** The face arrays after the copies from D, slot by slot. */
  lemma CopiesFromDToFaces(m: Maps)
    requires m.WellFormed()
    ensures SyncedCells(m, D, U) == m.faceMap.u
    ensures SyncedCells(m, D, L) == m.faceMap.l[6 := m.faceMap.d[6]][7 := m.faceMap.d[3]][8 := m.faceMap.d[0]]
    ensures SyncedCells(m, D, F) == m.faceMap.f[6 := m.faceMap.d[0]][7 := m.faceMap.d[1]][8 := m.faceMap.d[2]]
    ensures SyncedCells(m, D, R) == m.faceMap.r[6 := m.faceMap.d[2]][7 := m.faceMap.d[5]][8 := m.faceMap.d[8]]
    ensures SyncedCells(m, D, B) == m.faceMap.b[6 := m.faceMap.d[8]][7 := m.faceMap.d[7]][8 := m.faceMap.d[6]]
    ensures SyncedCells(m, D, D) == m.faceMap.d
  {
    NoCopies(m, D, U);
    ThreeCopies(m, D, L, 6, 6, 7, 3, 8, 0);
    ThreeCopies(m, D, F, 6, 0, 7, 1, 8, 2);
    ThreeCopies(m, D, R, 6, 2, 7, 5, 8, 8);
    ThreeCopies(m, D, B, 6, 8, 7, 7, 8, 6);
    NoCopies(m, D, D);
  }

  /** The slice arrays after the copies from D, slot by slot. */
  lemma CopiesFromDToSlices(m: Maps)
    requires m.WellFormed()
    ensures SyncedCells(m, D, V) == m.sliceMap.v[4 := m.faceMap.d[1]][5 := m.faceMap.d[4]][6 := m.faceMap.d[7]]
    ensures SyncedCells(m, D, H) == m.sliceMap.h
    ensures SyncedCells(m, D, S) == m.sliceMap.s[6 := m.faceMap.d[3]][5 := m.faceMap.d[4]][4 := m.faceMap.d[5]]
  {
    ThreeCopies(m, D, V, 4, 1, 5, 4, 6, 7);
    NoCopies(m, D, H);
    ThreeCopies(m, D, S, 6, 3, 5, 4, 4, 5);
  }

  /** The face arrays after the copies from V, slot by slot. */
  lemma CopiesFromVToFaces(m: Maps)
    requires m.WellFormed()
    ensures SyncedCells(m, V, U) == m.faceMap.u[1 := m.sliceMap.v[0]][4 := m.sliceMap.v[1]][7 := m.sliceMap.v[2]]
    ensures SyncedCells(m, V, L) == m.faceMap.l
    ensures SyncedCells(m, V, F) == m.faceMap.f[1 := m.sliceMap.v[2]][4 := m.sliceMap.v[3]][7 := m.sliceMap.v[4]]
    ensures SyncedCells(m, V, R) == m.faceMap.r
    ensures SyncedCells(m, V, B) == m.faceMap.b[1 := m.sliceMap.v[0]][4 := m.sliceMap.v[7]][7 := m.sliceMap.v[6]]
    ensures SyncedCells(m, V, D) == m.faceMap.d[1 := m.sliceMap.v[4]][4 := m.sliceMap.v[5]][7 := m.sliceMap.v[6]]
  {
    ThreeCopies(m, V, U, 1, 0, 4, 1, 7, 2);
    NoCopies(m, V, L);
    ThreeCopies(m, V, F, 1, 2, 4, 3, 7, 4);
    NoCopies(m, V, R);
    ThreeCopies(m, V, B, 1, 0, 4, 7, 7, 6);
    ThreeCopies(m, V, D, 1, 4, 4, 5, 7, 6);
  }

  /** The slice arrays after the copies from V, slot by slot. */
  lemma CopiesFromVToSlices(m: Maps)
    requires m.WellFormed()
    ensures SyncedCells(m, V, V) == m.sliceMap.v
    ensures SyncedCells(m, V, H) == m.sliceMap.h[7 := m.sliceMap.v[7]][3 := m.sliceMap.v[3]]
    ensures SyncedCells(m, V, S) == m.sliceMap.s[1 := m.sliceMap.v[1]][5 := m.sliceMap.v[5]]
  {
    NoCopies(m, V, V);
    TwoCopies(m, V, H, 7, 7, 3, 3);
    TwoCopies(m, V, S, 1, 1, 5, 5);
  }

  /** The face arrays after the copies from H, slot by slot. */
  lemma CopiesFromHToFaces(m: Maps)
    requires m.WellFormed()
    ensures SyncedCells(m, H, U) == m.faceMap.u
    ensures SyncedCells(m, H, L) == m.faceMap.l[3 := m.sliceMap.h[0]][4 := m.sliceMap.h[1]][5 := m.sliceMap.h[2]]
    ensures SyncedCells(m, H, F) == m.faceMap.f[3 := m.sliceMap.h[2]][4 := m.sliceMap.h[3]][5 := m.sliceMap.h[4]]
    ensures SyncedCells(m, H, R) == m.faceMap.r[3 := m.sliceMap.h[4]][4 := m.sliceMap.h[5]][5 := m.sliceMap.h[6]]
    ensures SyncedCells(m, H, B) == m.faceMap.b[3 := m.sliceMap.h[6]][4 := m.sliceMap.h[7]][5 := m.sliceMap.h[0]]
    ensures SyncedCells(m, H, D) == m.faceMap.d
  {
    NoCopies(m, H, U);
    ThreeCopies(m, H, L, 3, 0, 4, 1, 5, 2);
    ThreeCopies(m, H, F, 3, 2, 4, 3, 5, 4);
    ThreeCopies(m, H, R, 3, 4, 4, 5, 5, 6);
    ThreeCopies(m, H, B, 3, 6, 4, 7, 5, 0);
    NoCopies(m, H, D);
  }

  /** The slice arrays after the copies from H, slot by slot. */
  lemma CopiesFromHToSlices(m: Maps)
    requires m.WellFormed()
    ensures SyncedCells(m, H, V) == m.sliceMap.v[7 := m.sliceMap.h[7]][3 := m.sliceMap.h[3]]
    ensures SyncedCells(m, H, H) == m.sliceMap.h
    ensures SyncedCells(m, H, S) == m.sliceMap.s[7 := m.sliceMap.h[1]][3 := m.sliceMap.h[5]]
  {
    TwoCopies(m, H, V, 7, 7, 3, 3);
    NoCopies(m, H, H);
    TwoCopies(m, H, S, 7, 1, 3, 5);
  }

  /** The face arrays after the copies from S, slot by slot. */
  lemma CopiesFromSToFaces(m: Maps)
    requires m.WellFormed()
    ensures SyncedCells(m, S, U) == m.faceMap.u[3 := m.sliceMap.s[0]][4 := m.sliceMap.s[1]][5 := m.sliceMap.s[2]]
    ensures SyncedCells(m, S, L) == m.faceMap.l[1 := m.sliceMap.s[0]][4 := m.sliceMap.s[7]][7 := m.sliceMap.s[6]]
    ensures SyncedCells(m, S, F) == m.faceMap.f
    ensures SyncedCells(m, S, R) == m.faceMap.r[1 := m.sliceMap.s[2]][4 := m.sliceMap.s[3]][7 := m.sliceMap.s[4]]
    ensures SyncedCells(m, S, B) == m.faceMap.b
    ensures SyncedCells(m, S, D) == m.faceMap.d[3 := m.sliceMap.s[6]][4 := m.sliceMap.s[5]][5 := m.sliceMap.s[4]]
  {
    ThreeCopies(m, S, U, 3, 0, 4, 1, 5, 2);
    ThreeCopies(m, S, L, 1, 0, 4, 7, 7, 6);
    NoCopies(m, S, F);
    ThreeCopies(m, S, R, 1, 2, 4, 3, 7, 4);
    NoCopies(m, S, B);
    ThreeCopies(m, S, D, 3, 6, 4, 5, 5, 4);
  }

  /** The slice arrays after the copies from S, slot by slot. */
  lemma CopiesFromSToSlices(m: Maps)
    requires m.WellFormed()
    ensures SyncedCells(m, S, V) == m.sliceMap.v[1 := m.sliceMap.s[1]][5 := m.sliceMap.s[5]]
    ensures SyncedCells(m, S, H) == m.sliceMap.h[1 := m.sliceMap.s[7]][5 := m.sliceMap.s[3]]
    ensures SyncedCells(m, S, S) == m.sliceMap.s
  {
    TwoCopies(m, S, V, 1, 1, 5, 5);
    TwoCopies(m, S, H, 1, 7, 5, 3);
    NoCopies(m, S, S);
  }
}
