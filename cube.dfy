// The logical state of the cube: which cubie name occupies which slot of
// each face and of each middle slice (the `faceMap` and `sliceMap` members
// of CuboRubik in rubik.h).

module Wrappers {
  datatype Option<T> = None | Some(value: T)
}

module CubeState {
  import opened Wrappers

  /** A cubie is named by the letters of the faces it shows: "LUF", "UF", "U". */
  type Name = string

  /** The six faces and the three middle slices, each known by its letter. */
  datatype Layer = U | L | F | R | B | D | V | H | S {

    predicate IsFace() {
      U? || L? || F? || R? || B? || D?
    }

    /** A face holds a 3x3 grid of 9 slots; a middle slice a ring of 8. */
    function Size(): nat {
      if IsFace() then 9 else 8
    }

    /** The character the source uses for this layer. */
    function Letter(): char {
      match this
      case U => 'U' case L => 'L' case F => 'F' case R => 'R' case B => 'B'
      case D => 'D' case V => 'V' case H => 'H' case S => 'S'
    }
  }

  type Face = x: Layer | x.IsFace() witness U
  type Slice = x: Layer | !x.IsFace() witness V

  /** The layer a character names, if any. */
  function LayerOf(c: char): Option<Layer> {
    match c
    case 'U' => Some(U) case 'L' => Some(L) case 'F' => Some(F)
    case 'R' => Some(R) case 'B' => Some(B) case 'D' => Some(D)
    case 'V' => Some(V) case 'H' => Some(H) case 'S' => Some(S)
    case _ => None
  }

  /** Letters and layers are in one-to-one correspondence. */
  lemma LetterRoundTrip(g: Layer, c: char)
    ensures LayerOf(g.Letter()) == Some(g)
    ensures LayerOf(c) == Some(g) <==> c == g.Letter()
  {
  }

  /** The face map: one array of 9 names per face, keyed by the face's letter. */
  datatype FaceMap = FaceMap(
    u: seq<Name>, l: seq<Name>, f: seq<Name>, r: seq<Name>, b: seq<Name>, d: seq<Name>)

  /** The slice map: one ring of 8 names per middle slice. */
  datatype SliceMap = SliceMap(v: seq<Name>, h: seq<Name>, s: seq<Name>)

  /** The two slot maps of the cube. */
  datatype Maps = Maps(faceMap: FaceMap, sliceMap: SliceMap) {

    predicate WellFormed() {
      && |faceMap.u| == 9 && |faceMap.l| == 9 && |faceMap.f| == 9
      && |faceMap.r| == 9 && |faceMap.b| == 9 && |faceMap.d| == 9
      && |sliceMap.v| == 8 && |sliceMap.h| == 8 && |sliceMap.s| == 8
    }

    /** The array stored under a layer's letter; empty while the key is missing. */
    function Entry(g: Layer): seq<Name> {
      match g
      case U => faceMap.u case L => faceMap.l case F => faceMap.f
      case R => faceMap.r case B => faceMap.b case D => faceMap.d
      case V => sliceMap.v case H => sliceMap.h case S => sliceMap.s
    }

    /** The array of names of one layer, once every layer holds a full array. */
    function Cells(g: Layer): (cells: seq<Name>)
      requires WellFormed()
      ensures |cells| == g.Size()
    {
      Entry(g)
    }

    /** Store an array under a layer's letter, leaving every other layer as it is. */
    function SetEntry(g: Layer, cells: seq<Name>): Maps {
      match g
      case U => this.(faceMap := faceMap.(u := cells))
      case L => this.(faceMap := faceMap.(l := cells))
      case F => this.(faceMap := faceMap.(f := cells))
      case R => this.(faceMap := faceMap.(r := cells))
      case B => this.(faceMap := faceMap.(b := cells))
      case D => this.(faceMap := faceMap.(d := cells))
      case V => this.(sliceMap := sliceMap.(v := cells))
      case H => this.(sliceMap := sliceMap.(h := cells))
      case S => this.(sliceMap := sliceMap.(s := cells))
    }

    /** Replace the array of one layer of a full state. */
    function SetCells(g: Layer, cells: seq<Name>): (m: Maps)
      requires WellFormed() && |cells| == g.Size()
      ensures m.WellFormed()
    {
      SetEntry(g, cells)
    }

    /** Before initializeCubes runs, every key is either missing or holds the all-empty array
        that std::map's operator[] inserts for it. */
    predicate Blank() {
      forall g: Layer :: Entry(g) == [] || Entry(g) == Default(g)
    }
  }

  /** The array std::map's operator[] default-constructs for a missing key: every name empty. */
  function Default(g: Layer): (cells: seq<Name>)
    ensures |cells| == g.Size()
    ensures forall i | 0 <= i < |cells| :: cells[i] == ""
  {
    seq(g.Size(), _ => "")
  }

  /** The maps a fresh CuboRubik holds: no key at all. */
  function Empty(): (m: Maps)
    ensures m.Blank() && !m.WellFormed()
  {
    Maps(FaceMap([], [], [], [], [], []), SliceMap([], [], []))
  }

  /** A blank layer has a repeated name, so no array of distinct names is ever blank. */
  lemma DefaultHasRepeat(g: Layer)
    ensures Default(g)[0] == Default(g)[1]
  {
  }

  /** Storing an array under a layer's letter changes that entry and no other. */
  lemma SetEntryEntry(m: Maps, g: Layer, cells: seq<Name>, h: Layer)
    ensures m.SetEntry(g, cells).Entry(h) == if h == g then cells else m.Entry(h)
  {
  }

  /** A second store under the same letter replaces the first. */
  lemma SetEntryTwice(m: Maps, g: Layer, x: seq<Name>, y: seq<Name>)
    ensures m.SetEntry(g, x).SetEntry(g, y) == m.SetEntry(g, y)
  {
  }

  /** Storing the array a letter already holds changes nothing. */
  lemma SetEntrySame(m: Maps, g: Layer)
    ensures m.SetEntry(g, m.Entry(g)) == m
  {
  }

  /** Before the copy the array is all default, and after it the array is newOrder. */
  lemma CopyBounds(g: Layer, newOrder: seq<Name>)
    requires |newOrder| == g.Size()
    ensures newOrder[..0] + Default(g)[0..] == Default(g)
    ensures newOrder[..g.Size()] + Default(g)[g.Size()..] == newOrder
  {
    assert newOrder[..0] + Default(g)[0..] == Default(g);
    assert newOrder[..g.Size()] + Default(g)[g.Size()..] == newOrder;
  }

  /** Copying slot i of newOrder over a partly copied array extends the copied prefix by one. */
  lemma CopyStep(m: Maps, g: Layer, newOrder: seq<Name>, i: nat)
    requires |newOrder| == g.Size() && i < g.Size()
    ensures var partial := m.SetEntry(g, newOrder[..i] + Default(g)[i..]);
      partial.SetEntry(g, partial.Entry(g)[i := newOrder[i]])
        == m.SetEntry(g, newOrder[..i + 1] + Default(g)[i + 1..])
  {
    var before := newOrder[..i] + Default(g)[i..];
    SetEntryEntry(m, g, before, g);
    SetEntryTwice(m, g, before, before[i := newOrder[i]]);
    assert before[i := newOrder[i]] == newOrder[..i + 1] + Default(g)[i + 1..];
  }

  /** Setting a layer's array changes that array and no other. */
  lemma SetCellsCells(m: Maps, g: Layer, cells: seq<Name>, h: Layer)
    requires m.WellFormed() && |cells| == g.Size()
    ensures m.SetCells(g, cells).Cells(h) == if h == g then cells else m.Cells(h)
  {
  }

  /** Two well-formed states that agree on every layer are the same state. */
  lemma SameCellsSameMaps(m1: Maps, m2: Maps)
    requires m1.WellFormed() && m2.WellFormed()
    requires forall g: Layer :: m1.Cells(g) == m2.Cells(g)
    ensures m1 == m2
  {
    assert m1.Cells(U) == m2.Cells(U) && m1.Cells(L) == m2.Cells(L) && m1.Cells(F) == m2.Cells(F);
    assert m1.Cells(R) == m2.Cells(R) && m1.Cells(B) == m2.Cells(B) && m1.Cells(D) == m2.Cells(D);
    assert m1.Cells(V) == m2.Cells(V) && m1.Cells(H) == m2.Cells(H) && m1.Cells(S) == m2.Cells(S);
  }

  /** The 26 cubies, in the order initializeCubes creates them. */
  const CubieNames: seq<Name> := [
    "LDB", "LD", "LDF", "LB", "L", "LF", "LUB", "LU", "LUF",
    "DB", "D", "DF", "B", "F", "UB", "U", "UF",
    "RDB", "RD", "RDF", "RB", "R", "RF", "RUB", "RU", "RUF"
  ]

  /** The solved cube, as initializeCubes seeds the face and slice maps. */
  function Solved(): (m: Maps)
    ensures m.WellFormed()
  {
    Maps(FaceMap(
      ["LUB", "UB", "RUB", "LU", "U", "RU", "LUF", "UF", "RUF"],
      ["LUB", "LU", "LUF", "LB", "L", "LF", "LDB", "LD", "LDF"],
      ["LUF", "UF", "RUF", "LF", "F", "RF", "LDF", "DF", "RDF"],
      ["RUF", "RU", "RUB", "RF", "R", "RB", "RDF", "RD", "RDB"],
      ["RUB", "UB", "LUB", "RB", "B", "LB", "RDB", "DB", "LDB"],
      ["LDF", "DF", "RDF", "LD", "D", "RD", "LDB", "DB", "RDB"]),
    SliceMap(
      ["UB", "U", "UF", "F", "DF", "D", "DB", "B"],
      ["LB", "L", "LF", "F", "RF", "R", "RB", "B"],
      ["LU", "U", "RU", "R", "RD", "D", "LD", "L"]))
  }
}
