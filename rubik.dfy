// The CuboRubik class of rubik.h, reduced to its logical state: the face and
// slice maps, the animation of the one move that may be under way, and the
// operations that start, advance and commit moves, including the notation
// front ends moveFromList and scrambleCube.

module Rubik {
  import opened Wrappers
  import opened CubeState
  import opened Permutation
  import opened Adjacency
  import opened AdjacentCopies
  import opened Engine
  import opened Reachable
  import opened Notation
  import opened Animation

  /** The move under way, if any (struct AnimationState). */
  class AnimationState {
    var face: char
    var targetAngle: real
    var currentAngle: real
    var animationSpeed: real
    var isSlice: bool
    var isAnimating: bool
    var isClockwise: bool
    var affectedCubes: seq<Name>

    /** Every field but the speed at the value reset() gives it. */
    predicate Idle()
      reads this
    {
      && face == ' ' && targetAngle == 0.0 && currentAngle == 0.0
      && !isSlice && !isAnimating && !isClockwise && affectedCubes == []
    }

    /** A move of layer g towards target is under way. */
    predicate Runs(g: Layer, target: real)
      reads this
    {
      && isAnimating && face == g.Letter() && isSlice == !g.IsFace()
      && targetAngle == target && isClockwise == (target < 0.0)
    }

    constructor()
      ensures Idle() && animationSpeed == Speed
    {
      face := ' ';
      targetAngle := 0.0;
      currentAngle := 0.0;
      animationSpeed := Speed;
      isSlice := false;
      isAnimating := false;
      isClockwise := false;
      affectedCubes := [];
    }

    method Reset()
      modifies this
      ensures Idle() && animationSpeed == old(animationSpeed)
    {
      face := ' ';
      targetAngle := 0.0;
      currentAngle := 0.0;
      isSlice := false;
      isAnimating := false;
      isClockwise := false;
      affectedCubes := [];
    }
  }

  /** The cube. The geometry of its 26 cubies and everything drawn on screen are not modelled. */
  class CuboRubik {
    var faceMap: FaceMap
    var sliceMap: SliceMap
    const currentAnimation: AnimationState
    var lastFrameTime: real
    /** rotateFace and rotateSlice pass every angle through normalizeAngle, which no file of the
        program defines; the model takes it as given. */
    const normalizeAngle: real -> real
    /** The quarter turns committed since initializeCubes last seeded the maps. */
    ghost var turns: seq<Quarter>

    /** The face and slice maps as one value. */
    function State(): Maps
      reads this
    {
      Maps(faceMap, sliceMap)
    }

    /** What holds between public calls: the maps are either not yet filled or the solved cube
        after the turns committed since, the speed is the constructed one, and a move is under
        way exactly when the animation is not idle, for a layer whose letter, kind and
        direction agree. */
    ghost predicate Valid()
      reads this, currentAnimation
    {
      && (State().WellFormed() || State().Blank())
      && (State().Blank() || State() == Play(turns))
      && currentAnimation.animationSpeed == Speed
      && (!currentAnimation.isAnimating ==> currentAnimation.Idle())
      && (currentAnimation.isAnimating ==>
            && LayerOf(currentAnimation.face).Some?
            && currentAnimation.Runs(LayerOf(currentAnimation.face).value, currentAnimation.targetAngle))
    }

    /** A move of layer g towards target has just been started, carrying the cubies of g. */
    predicate Started(g: Layer, target: real)
      reads this, currentAnimation
    {
      && currentAnimation.Runs(g, target)
      && currentAnimation.currentAngle == 0.0
      && currentAnimation.affectedCubes == State().Entry(g)
    }

    constructor(lastFrameTime: real, normalizeAngle: real -> real)
      ensures Valid() && State() == Empty() && currentAnimation.Idle()
      ensures this.lastFrameTime == lastFrameTime && this.normalizeAngle == normalizeAngle
      ensures fresh(currentAnimation)
    {
      faceMap := Empty().faceMap;
      sliceMap := Empty().sliceMap;
      currentAnimation := new AnimationState();
      this.lastFrameTime := lastFrameTime;
      this.normalizeAngle := normalizeAngle;
      turns := [];
    }

    /** Between public calls, once the maps are filled, no face or slice array holds a name
        twice and every slot two layers share holds the same name in both maps. */
    lemma MapsConsistent(g: Layer)
      requires Valid() && !State().Blank()
      ensures State().WellFormed() && Distinct(State().Cells(g)) && Coherent(State(), g)
    {
      PlayKeepsMapsConsistent(turns, g);
    }

    /** Seeds the maps with the solved cube. */
    method InitializeCubes()
      requires Valid()
      modifies this
      ensures Valid() && State() == Solved() && lastFrameTime == old(lastFrameTime)
    {
      faceMap := Solved().faceMap;
      sliceMap := Solved().sliceMap;
      turns := [];
    }

    method Init()
      requires Valid()
      modifies this
      ensures Valid() && State() == Solved() && lastFrameTime == old(lastFrameTime)
    {
      InitializeCubes();
    }

    method SetLastFrameTime(time: real)
      modifies this
      ensures lastFrameTime == time && State() == old(State())
    {
      lastFrameTime := time;
    }

    /** Store an array under a layer's letter. */
    method Store(g: Layer, cells: seq<Name>)
      modifies this
      ensures State() == old(State()).SetEntry(g, cells)
      ensures lastFrameTime == old(lastFrameTime)
    {
      var m := State().SetEntry(g, cells);
      faceMap := m.faceMap;
      sliceMap := m.sliceMap;
    }

    /** The scan for a repeated name both map updates run over newOrder before writing. */
    method HasDuplicate(newOrder: seq<Name>) returns (dup: bool)
      ensures dup <==> !Distinct(newOrder)
    {
      for i := 0 to |newOrder|
        invariant forall a, b :: 0 <= a < i && a < b < |newOrder| ==> newOrder[a] != newOrder[b]
      {
        for j := i + 1 to |newOrder|
          invariant forall b :: i < b < j ==> newOrder[i] != newOrder[b]
        {
          if newOrder[i] == newOrder[j] {
            return true;
          }
        }
      }
      return false;
    }

    /** Overwrite the array of g with newOrder slot by slot, after clearing it the way
        assigning a fresh std::array does. */
    method CopyInto(g: Layer, newOrder: seq<Name>)
      requires |newOrder| == g.Size()
      modifies this
      ensures State() == old(State()).SetEntry(g, newOrder)
      ensures lastFrameTime == old(lastFrameTime)
    {
      Store(g, Default(g));
      CopyBounds(g, newOrder);
      for i := 0 to g.Size()
        invariant State() == old(State()).SetEntry(g, newOrder[..i] + Default(g)[i..])
        invariant lastFrameTime == old(lastFrameTime)
      {
        CopyStep(old(State()), g, newOrder, i);
        var cells := State().Entry(g);
        Store(g, cells[i := newOrder[i]]);
      }
    }

    /** A quarter turn of a face committed to the maps: reorder, refuse on a duplicate,
        write, then copy into the neighbours. */
    method UpdateFaceMapAfterRotation(face: Face, clockwise: bool)
      requires State().WellFormed() || State().Blank()
      modifies this
      ensures State() == Rotate(old(State()), face, clockwise)
      ensures lastFrameTime == old(lastFrameTime)
    {
      var faceCubes := State().Entry(face);
      if |faceCubes| == 0 {
        // operator[] inserts a default array for the missing key
        faceCubes := Default(face);
        Store(face, faceCubes);
      }
      var newOrder := FaceTurn(faceCubes, clockwise);
      var dup := HasDuplicate(newOrder);
      FaceTurnDistinct(faceCubes, clockwise);
      DefaultHasRepeat(face);
      if dup {
        if old(State()).WellFormed() {
          CommitRejectsOnlyDuplicates(old(State()), face, clockwise);
        } else if |old(State()).Entry(face)| != 0 {
          SetEntrySame(old(State()), face);
        }
        return;
      }
      CopyInto(face, newOrder);
      UpdateAdjacentFaces(face, clockwise);
    }

    /** A quarter turn of a middle slice committed to the maps, as for a face. */
    method UpdateSliceMapAfterRotation(slice: Slice, clockwise: bool)
      requires State().WellFormed() || State().Blank()
      modifies this
      ensures State() == Rotate(old(State()), slice, clockwise)
      ensures lastFrameTime == old(lastFrameTime)
    {
      var sliceCubes := State().Entry(slice);
      if |sliceCubes| == 0 {
        // operator[] inserts a default array for the missing key
        sliceCubes := Default(slice);
        Store(slice, sliceCubes);
      }
      var newOrder := SliceTurn(sliceCubes, slice, clockwise);
      var dup := HasDuplicate(newOrder);
      SliceTurnDistinct(sliceCubes, slice, clockwise);
      DefaultHasRepeat(slice);
      if dup {
        if old(State()).WellFormed() {
          CommitRejectsOnlyDuplicates(old(State()), slice, clockwise);
        } else if |old(State()).Entry(slice)| != 0 {
          SetEntrySame(old(State()), slice);
        }
        return;
      }
      CopyInto(slice, newOrder);
      UpdateAdjacentFaces(slice, clockwise);
    }

    /** Copy the slots g shares with its neighbours from g into them. Both directions make
        the same copies. */
    method UpdateAdjacentFaces(g: Layer, clockwise: bool)
      requires State().WellFormed()
      modifies this
      ensures State() == Synced(old(State()), g)
      ensures lastFrameTime == old(lastFrameTime)
    {
      match g
      case U => SyncAfterU();
      case L => SyncAfterL();
      case F => SyncAfterF();
      case R => SyncAfterR();
      case B => SyncAfterB();
      case D => SyncAfterD();
      case V => SyncAfterV();
      case H => SyncAfterH();
      case S => SyncAfterS();
    }

    /** The copies updateAdjacentFaces makes after a turn of U. */
    method SyncAfterU()
      requires State().WellFormed()
      modifies this
      ensures lastFrameTime == old(lastFrameTime)
      ensures State() == Synced(old(State()), U)
    {
      CopiesFromUToFaces(State());
      CopiesFromUToSlices(State());
      faceMap := faceMap.(r := faceMap.r[2 := faceMap.u[2]]);
      faceMap := faceMap.(r := faceMap.r[1 := faceMap.u[5]]);
      faceMap := faceMap.(r := faceMap.r[0 := faceMap.u[8]]);
      faceMap := faceMap.(f := faceMap.f[0 := faceMap.u[6]]);
      faceMap := faceMap.(f := faceMap.f[1 := faceMap.u[7]]);
      faceMap := faceMap.(f := faceMap.f[2 := faceMap.u[8]]);
      faceMap := faceMap.(l := faceMap.l[0 := faceMap.u[0]]);
      faceMap := faceMap.(l := faceMap.l[1 := faceMap.u[3]]);
      faceMap := faceMap.(l := faceMap.l[2 := faceMap.u[6]]);
      faceMap := faceMap.(b := faceMap.b[2 := faceMap.u[0]]);
      faceMap := faceMap.(b := faceMap.b[1 := faceMap.u[1]]);
      faceMap := faceMap.(b := faceMap.b[0 := faceMap.u[2]]);
      sliceMap := sliceMap.(s := sliceMap.s[0 := faceMap.u[3]]);
      sliceMap := sliceMap.(s := sliceMap.s[1 := faceMap.u[4]]);
      sliceMap := sliceMap.(s := sliceMap.s[2 := faceMap.u[5]]);
      sliceMap := sliceMap.(v := sliceMap.v[0 := faceMap.u[1]]);
      sliceMap := sliceMap.(v := sliceMap.v[1 := faceMap.u[4]]);
      sliceMap := sliceMap.(v := sliceMap.v[2 := faceMap.u[7]]);
    }

    /** The copies updateAdjacentFaces makes after a turn of L. */
    method SyncAfterL()
      requires State().WellFormed()
      modifies this
      ensures lastFrameTime == old(lastFrameTime)
      ensures State() == Synced(old(State()), L)
    {
      CopiesFromLToFaces(State());
      CopiesFromLToSlices(State());
      faceMap := faceMap.(f := faceMap.f[0 := faceMap.l[2]]);
      faceMap := faceMap.(f := faceMap.f[3 := faceMap.l[5]]);
      faceMap := faceMap.(f := faceMap.f[6 := faceMap.l[8]]);
      faceMap := faceMap.(d := faceMap.d[0 := faceMap.l[8]]);
      faceMap := faceMap.(d := faceMap.d[3 := faceMap.l[7]]);
      faceMap := faceMap.(d := faceMap.d[6 := faceMap.l[6]]);
      faceMap := faceMap.(b := faceMap.b[2 := faceMap.l[0]]);
      faceMap := faceMap.(b := faceMap.b[5 := faceMap.l[3]]);
      faceMap := faceMap.(b := faceMap.b[8 := faceMap.l[6]]);
      faceMap := faceMap.(u := faceMap.u[0 := faceMap.l[0]]);
      faceMap := faceMap.(u := faceMap.u[3 := faceMap.l[1]]);
      faceMap := faceMap.(u := faceMap.u[6 := faceMap.l[2]]);
      sliceMap := sliceMap.(s := sliceMap.s[0 := faceMap.l[1]]);
      sliceMap := sliceMap.(s := sliceMap.s[7 := faceMap.l[4]]);
      sliceMap := sliceMap.(s := sliceMap.s[6 := faceMap.l[7]]);
      sliceMap := sliceMap.(h := sliceMap.h[0 := faceMap.l[3]]);
      sliceMap := sliceMap.(h := sliceMap.h[1 := faceMap.l[4]]);
      sliceMap := sliceMap.(h := sliceMap.h[2 := faceMap.l[5]]);
    }

    /** The copies updateAdjacentFaces makes after a turn of F. */
    method SyncAfterF()
      requires State().WellFormed()
      modifies this
      ensures lastFrameTime == old(lastFrameTime)
      ensures State() == Synced(old(State()), F)
    {
      CopiesFromFToFaces(State());
      CopiesFromFToSlices(State());
      faceMap := faceMap.(r := faceMap.r[0 := faceMap.f[2]]);
      faceMap := faceMap.(r := faceMap.r[3 := faceMap.f[5]]);
      faceMap := faceMap.(r := faceMap.r[6 := faceMap.f[8]]);
      faceMap := faceMap.(d := faceMap.d[0 := faceMap.f[6]]);
      faceMap := faceMap.(d := faceMap.d[1 := faceMap.f[7]]);
      faceMap := faceMap.(d := faceMap.d[2 := faceMap.f[8]]);
      faceMap := faceMap.(l := faceMap.l[2 := faceMap.f[0]]);
      faceMap := faceMap.(l := faceMap.l[5 := faceMap.f[3]]);
      faceMap := faceMap.(l := faceMap.l[8 := faceMap.f[6]]);
      faceMap := faceMap.(u := faceMap.u[6 := faceMap.f[0]]);
      faceMap := faceMap.(u := faceMap.u[7 := faceMap.f[1]]);
      faceMap := faceMap.(u := faceMap.u[8 := faceMap.f[2]]);
      sliceMap := sliceMap.(v := sliceMap.v[2 := faceMap.f[1]]);
      sliceMap := sliceMap.(v := sliceMap.v[3 := faceMap.f[4]]);
      sliceMap := sliceMap.(v := sliceMap.v[4 := faceMap.f[7]]);
      sliceMap := sliceMap.(h := sliceMap.h[2 := faceMap.f[3]]);
      sliceMap := sliceMap.(h := sliceMap.h[3 := faceMap.f[4]]);
      sliceMap := sliceMap.(h := sliceMap.h[4 := faceMap.f[5]]);
    }

    /** The copies updateAdjacentFaces makes after a turn of R. */
    method SyncAfterR()
      requires State().WellFormed()
      modifies this
      ensures lastFrameTime == old(lastFrameTime)
      ensures State() == Synced(old(State()), R)
    {
      CopiesFromRToFaces(State());
      CopiesFromRToSlices(State());
      faceMap := faceMap.(b := faceMap.b[0 := faceMap.r[2]]);
      faceMap := faceMap.(b := faceMap.b[3 := faceMap.r[5]]);
      faceMap := faceMap.(b := faceMap.b[6 := faceMap.r[8]]);
      faceMap := faceMap.(d := faceMap.d[2 := faceMap.r[6]]);
      faceMap := faceMap.(d := faceMap.d[5 := faceMap.r[7]]);
      faceMap := faceMap.(d := faceMap.d[8 := faceMap.r[8]]);
      faceMap := faceMap.(f := faceMap.f[2 := faceMap.r[0]]);
      faceMap := faceMap.(f := faceMap.f[5 := faceMap.r[3]]);
      faceMap := faceMap.(f := faceMap.f[8 := faceMap.r[6]]);
      faceMap := faceMap.(u := faceMap.u[2 := faceMap.r[2]]);
      faceMap := faceMap.(u := faceMap.u[5 := faceMap.r[1]]);
      faceMap := faceMap.(u := faceMap.u[8 := faceMap.r[0]]);
      sliceMap := sliceMap.(s := sliceMap.s[2 := faceMap.r[1]]);
      sliceMap := sliceMap.(s := sliceMap.s[3 := faceMap.r[4]]);
      sliceMap := sliceMap.(s := sliceMap.s[4 := faceMap.r[7]]);
      sliceMap := sliceMap.(h := sliceMap.h[6 := faceMap.r[5]]);
      sliceMap := sliceMap.(h := sliceMap.h[5 := faceMap.r[4]]);
      sliceMap := sliceMap.(h := sliceMap.h[4 := faceMap.r[3]]);
    }

    /** The copies updateAdjacentFaces makes after a turn of B. */
    method SyncAfterB()
      requires State().WellFormed()
      modifies this
      ensures lastFrameTime == old(lastFrameTime)
      ensures State() == Synced(old(State()), B)
    {
      CopiesFromBToFaces(State());
      CopiesFromBToSlices(State());
      faceMap := faceMap.(l := faceMap.l[0 := faceMap.b[2]]);
      faceMap := faceMap.(l := faceMap.l[3 := faceMap.b[5]]);
      faceMap := faceMap.(l := faceMap.l[6 := faceMap.b[8]]);
      faceMap := faceMap.(d := faceMap.d[6 := faceMap.b[8]]);
      faceMap := faceMap.(d := faceMap.d[7 := faceMap.b[7]]);
      faceMap := faceMap.(d := faceMap.d[8 := faceMap.b[6]]);
      faceMap := faceMap.(r := faceMap.r[2 := faceMap.b[0]]);
      faceMap := faceMap.(r := faceMap.r[5 := faceMap.b[3]]);
      faceMap := faceMap.(r := faceMap.r[8 := faceMap.b[6]]);
      faceMap := faceMap.(u := faceMap.u[0 := faceMap.b[2]]);
      faceMap := faceMap.(u := faceMap.u[1 := faceMap.b[1]]);
      faceMap := faceMap.(u := faceMap.u[2 := faceMap.b[0]]);
      sliceMap := sliceMap.(v := sliceMap.v[0 := faceMap.b[1]]);
      sliceMap := sliceMap.(v := sliceMap.v[7 := faceMap.b[4]]);
      sliceMap := sliceMap.(v := sliceMap.v[6 := faceMap.b[7]]);
      sliceMap := sliceMap.(h := sliceMap.h[0 := faceMap.b[5]]);
      sliceMap := sliceMap.(h := sliceMap.h[7 := faceMap.b[4]]);
      sliceMap := sliceMap.(h := sliceMap.h[6 := faceMap.b[3]]);
    }

    /** The copies updateAdjacentFaces makes after a turn of D. */
    method SyncAfterD()
      requires State().WellFormed()
      modifies this
      ensures lastFrameTime == old(lastFrameTime)
      ensures State() == Synced(old(State()), D)
    {
      CopiesFromDToFaces(State());
      CopiesFromDToSlices(State());
      faceMap := faceMap.(r := faceMap.r[6 := faceMap.d[2]]);
      faceMap := faceMap.(r := faceMap.r[7 := faceMap.d[5]]);
      faceMap := faceMap.(r := faceMap.r[8 := faceMap.d[8]]);
      faceMap := faceMap.(b := faceMap.b[6 := faceMap.d[8]]);
      faceMap := faceMap.(b := faceMap.b[7 := faceMap.d[7]]);
      faceMap := faceMap.(b := faceMap.b[8 := faceMap.d[6]]);
      faceMap := faceMap.(l := faceMap.l[6 := faceMap.d[6]]);
      faceMap := faceMap.(l := faceMap.l[7 := faceMap.d[3]]);
      faceMap := faceMap.(l := faceMap.l[8 := faceMap.d[0]]);
      faceMap := faceMap.(f := faceMap.f[6 := faceMap.d[0]]);
      faceMap := faceMap.(f := faceMap.f[7 := faceMap.d[1]]);
      faceMap := faceMap.(f := faceMap.f[8 := faceMap.d[2]]);
      sliceMap := sliceMap.(s := sliceMap.s[6 := faceMap.d[3]]);
      sliceMap := sliceMap.(s := sliceMap.s[5 := faceMap.d[4]]);
      sliceMap := sliceMap.(s := sliceMap.s[4 := faceMap.d[5]]);
      sliceMap := sliceMap.(v := sliceMap.v[4 := faceMap.d[1]]);
      sliceMap := sliceMap.(v := sliceMap.v[5 := faceMap.d[4]]);
      sliceMap := sliceMap.(v := sliceMap.v[6 := faceMap.d[7]]);
    }

    /** The copies updateAdjacentFaces makes after a turn of V. */
    method SyncAfterV()
      requires State().WellFormed()
      modifies this
      ensures lastFrameTime == old(lastFrameTime)
      ensures State() == Synced(old(State()), V)
    {
      CopiesFromVToFaces(State());
      CopiesFromVToSlices(State());
      faceMap := faceMap.(u := faceMap.u[1 := sliceMap.v[0]]);
      faceMap := faceMap.(u := faceMap.u[4 := sliceMap.v[1]]);
      faceMap := faceMap.(u := faceMap.u[7 := sliceMap.v[2]]);
      faceMap := faceMap.(f := faceMap.f[1 := sliceMap.v[2]]);
      faceMap := faceMap.(f := faceMap.f[4 := sliceMap.v[3]]);
      faceMap := faceMap.(f := faceMap.f[7 := sliceMap.v[4]]);
      faceMap := faceMap.(b := faceMap.b[1 := sliceMap.v[0]]);
      faceMap := faceMap.(b := faceMap.b[4 := sliceMap.v[7]]);
      faceMap := faceMap.(b := faceMap.b[7 := sliceMap.v[6]]);
      faceMap := faceMap.(d := faceMap.d[1 := sliceMap.v[4]]);
      faceMap := faceMap.(d := faceMap.d[4 := sliceMap.v[5]]);
      faceMap := faceMap.(d := faceMap.d[7 := sliceMap.v[6]]);
      sliceMap := sliceMap.(s := sliceMap.s[1 := sliceMap.v[1]]);
      sliceMap := sliceMap.(s := sliceMap.s[5 := sliceMap.v[5]]);
      sliceMap := sliceMap.(h := sliceMap.h[7 := sliceMap.v[7]]);
      sliceMap := sliceMap.(h := sliceMap.h[3 := sliceMap.v[3]]);
    }

    /** The copies updateAdjacentFaces makes after a turn of H. */
    method SyncAfterH()
      requires State().WellFormed()
      modifies this
      ensures lastFrameTime == old(lastFrameTime)
      ensures State() == Synced(old(State()), H)
    {
      CopiesFromHToFaces(State());
      CopiesFromHToSlices(State());
      faceMap := faceMap.(l := faceMap.l[3 := sliceMap.h[0]]);
      faceMap := faceMap.(l := faceMap.l[4 := sliceMap.h[1]]);
      faceMap := faceMap.(l := faceMap.l[5 := sliceMap.h[2]]);
      faceMap := faceMap.(f := faceMap.f[3 := sliceMap.h[2]]);
      faceMap := faceMap.(f := faceMap.f[4 := sliceMap.h[3]]);
      faceMap := faceMap.(f := faceMap.f[5 := sliceMap.h[4]]);
      faceMap := faceMap.(r := faceMap.r[3 := sliceMap.h[4]]);
      faceMap := faceMap.(r := faceMap.r[4 := sliceMap.h[5]]);
      faceMap := faceMap.(r := faceMap.r[5 := sliceMap.h[6]]);
      faceMap := faceMap.(b := faceMap.b[3 := sliceMap.h[6]]);
      faceMap := faceMap.(b := faceMap.b[4 := sliceMap.h[7]]);
      faceMap := faceMap.(b := faceMap.b[5 := sliceMap.h[0]]);
      sliceMap := sliceMap.(s := sliceMap.s[7 := sliceMap.h[1]]);
      sliceMap := sliceMap.(s := sliceMap.s[3 := sliceMap.h[5]]);
      sliceMap := sliceMap.(v := sliceMap.v[7 := sliceMap.h[7]]);
      sliceMap := sliceMap.(v := sliceMap.v[3 := sliceMap.h[3]]);
    }

    /** The copies updateAdjacentFaces makes after a turn of S. */
    method SyncAfterS()
      requires State().WellFormed()
      modifies this
      ensures lastFrameTime == old(lastFrameTime)
      ensures State() == Synced(old(State()), S)
    {
      CopiesFromSToFaces(State());
      CopiesFromSToSlices(State());
      faceMap := faceMap.(u := faceMap.u[3 := sliceMap.s[0]]);
      faceMap := faceMap.(u := faceMap.u[4 := sliceMap.s[1]]);
      faceMap := faceMap.(u := faceMap.u[5 := sliceMap.s[2]]);
      faceMap := faceMap.(l := faceMap.l[1 := sliceMap.s[0]]);
      faceMap := faceMap.(l := faceMap.l[4 := sliceMap.s[7]]);
      faceMap := faceMap.(l := faceMap.l[7 := sliceMap.s[6]]);
      faceMap := faceMap.(r := faceMap.r[1 := sliceMap.s[2]]);
      faceMap := faceMap.(r := faceMap.r[4 := sliceMap.s[3]]);
      faceMap := faceMap.(r := faceMap.r[7 := sliceMap.s[4]]);
      faceMap := faceMap.(d := faceMap.d[3 := sliceMap.s[6]]);
      faceMap := faceMap.(d := faceMap.d[4 := sliceMap.s[5]]);
      faceMap := faceMap.(d := faceMap.d[5 := sliceMap.s[4]]);
      sliceMap := sliceMap.(v := sliceMap.v[1 := sliceMap.s[1]]);
      sliceMap := sliceMap.(v := sliceMap.v[5 := sliceMap.s[5]]);
      sliceMap := sliceMap.(h := sliceMap.h[1 := sliceMap.s[7]]);
      sliceMap := sliceMap.(h := sliceMap.h[5 := sliceMap.s[3]]);
    }

    /** Start a quarter turn of a face, unless a move is already under way. The cubies of
        the face are recorded when its key is present. */
    method RotateFace(face: Face, angle: real)
      requires Valid()
      modifies currentAnimation
      ensures Valid()
      ensures old(currentAnimation.isAnimating) ==> unchanged(currentAnimation)
      ensures !old(currentAnimation.isAnimating) ==> Started(face, normalizeAngle(angle))
    {
      if currentAnimation.isAnimating {
        return;
      }
      var target := normalizeAngle(angle);
      currentAnimation.face := face.Letter();
      currentAnimation.targetAngle := target;
      currentAnimation.currentAngle := 0.0;
      currentAnimation.isSlice := false;
      currentAnimation.isAnimating := true;
      currentAnimation.isClockwise := target < 0.0;
      currentAnimation.affectedCubes := [];
      if |State().Entry(face)| != 0 {
        currentAnimation.affectedCubes := currentAnimation.affectedCubes + State().Entry(face);
      }
      LetterRoundTrip(face, face.Letter());
    }

    /** Start a quarter turn of a middle slice, unless a move is already under way. */
    method RotateSlice(slice: Slice, angle: real)
      requires Valid()
      modifies currentAnimation
      ensures Valid()
      ensures old(currentAnimation.isAnimating) ==> unchanged(currentAnimation)
      ensures !old(currentAnimation.isAnimating) ==> Started(slice, normalizeAngle(angle))
    {
      if currentAnimation.isAnimating {
        return;
      }
      var target := normalizeAngle(angle);
      currentAnimation.face := slice.Letter();
      currentAnimation.targetAngle := target;
      currentAnimation.currentAngle := 0.0;
      currentAnimation.isSlice := true;
      currentAnimation.isAnimating := true;
      currentAnimation.isClockwise := target < 0.0;
      currentAnimation.affectedCubes := [];
      if |State().Entry(slice)| != 0 {
        currentAnimation.affectedCubes := currentAnimation.affectedCubes + State().Entry(slice);
      }
      LetterRoundTrip(slice, slice.Letter());
    }

    /** Commit the move under way, clockwise when its target angle is negative, and go idle.
        The commit happens even if the duplicate guard then refuses it. */
    method FinishAnimation()
      requires Valid() && currentAnimation.isAnimating
      modifies this, currentAnimation
      ensures Valid() && currentAnimation.Idle()
      ensures State() == Rotate(old(State()), old(LayerOf(currentAnimation.face).value),
                                old(currentAnimation.targetAngle) < 0.0)
      ensures lastFrameTime == old(lastFrameTime)
    {
      var g := LayerOf(currentAnimation.face).value;
      var clockwise := currentAnimation.targetAngle < 0.0;
      ghost var before := State();
      ghost var committed := turns + [Quarter(g, clockwise)];
      RotatePlaysOneMore(before, turns, g, clockwise);
      if currentAnimation.isSlice {
        UpdateSliceMapAfterRotation(g, clockwise);
      } else {
        UpdateFaceMapAfterRotation(g, clockwise);
      }
      if !before.Blank() {
        turns := committed;
      }
      currentAnimation.Reset();
    }

    /** One frame of the move under way: it ends, and is committed, once what is left to turn
        is within this frame's change plus Epsilon; otherwise the angle advances by the change
        and the frame time is recorded. Nothing happens while idle. */
    method UpdateAnimation(currentTime: real)
      requires Valid()
      modifies this, currentAnimation
      ensures Valid()
      ensures !old(currentAnimation.isAnimating) ==> unchanged(this) && unchanged(currentAnimation)
      ensures old(currentAnimation.isAnimating) ==>
        var change := AngleChange(old(currentAnimation.isClockwise), Speed,
                                  FrameDelta(currentTime, old(lastFrameTime)));
        if Completes(old(currentAnimation.targetAngle), old(currentAnimation.currentAngle), change) then
          && currentAnimation.Idle()
          && State() == Rotate(old(State()), old(LayerOf(currentAnimation.face).value),
                               old(currentAnimation.targetAngle) < 0.0)
          && lastFrameTime == old(lastFrameTime)
        else
          && State() == old(State())
          && lastFrameTime == currentTime
          && currentAnimation.currentAngle == old(currentAnimation.currentAngle) + change
          && currentAnimation.Runs(old(LayerOf(currentAnimation.face).value), old(currentAnimation.targetAngle))
          && currentAnimation.affectedCubes == old(currentAnimation.affectedCubes)
    {
      if !currentAnimation.isAnimating {
        return;
      }
      var sign := if currentAnimation.isClockwise then -1.0 else 1.0;
      var deltaTime := currentTime - lastFrameTime;
      if MaxFrameDelta < deltaTime {
        deltaTime := MaxFrameDelta;
      }
      var angleChange := sign * currentAnimation.animationSpeed * deltaTime;
      var remainingAngle := currentAnimation.targetAngle - currentAnimation.currentAngle;
      if Abs(remainingAngle) <= Abs(angleChange) + Epsilon {
        FinishAnimation();
        return;
      }
      currentAnimation.currentAngle := currentAnimation.currentAngle + angleChange;
      lastFrameTime := currentTime;
    }

    /** rotateU, rotateL, ...: a clockwise quarter turn of a face. */
    method RotateBase(face: Face)
      requires Valid()
      modifies currentAnimation
      ensures Valid()
      ensures old(currentAnimation.isAnimating) ==> unchanged(currentAnimation)
      ensures !old(currentAnimation.isAnimating) ==> Started(face, normalizeAngle(Angle(Base)))
    {
      RotateFace(face, -90.0);
    }

    /** rotateUPrime, rotateLPrime, ...: a counter-clockwise quarter turn of a face. */
    method RotatePrime(face: Face)
      requires Valid()
      modifies currentAnimation
      ensures Valid()
      ensures old(currentAnimation.isAnimating) ==> unchanged(currentAnimation)
      ensures !old(currentAnimation.isAnimating) ==> Started(face, normalizeAngle(Angle(Prime)))
    {
      RotateFace(face, 90.0);
    }

    /** rotateU2, rotateL2, ...: two clockwise quarter turns requested back to back. The second
        request finds the first move still under way and is dropped, so only one quarter turn
        starts. */
    method RotateDouble(face: Face)
      requires Valid()
      modifies currentAnimation
      ensures Valid()
      ensures old(currentAnimation.isAnimating) ==> unchanged(currentAnimation)
      ensures !old(currentAnimation.isAnimating) ==> Started(face, normalizeAngle(Angle(Double)))
    {
      RotateBase(face);
      RotateBase(face);
    }

    /** rotateSV, rotateSH, rotateSS: a quarter turn of a middle slice at -90 degrees. */
    method RotateMiddle(slice: Slice)
      requires Valid()
      modifies currentAnimation
      ensures Valid()
      ensures old(currentAnimation.isAnimating) ==> unchanged(currentAnimation)
      ensures !old(currentAnimation.isAnimating) ==> Started(slice, normalizeAngle(-90.0))
    {
      RotateSlice(slice, -90.0);
    }

    /** The turn a token names, started through the wrapper moveFromList calls for it. */
    method RotateTurn(t: Turn)
      requires Valid()
      modifies currentAnimation
      ensures Valid()
      ensures old(currentAnimation.isAnimating) ==> unchanged(currentAnimation)
      ensures !old(currentAnimation.isAnimating) ==> Started(t.face, normalizeAngle(Angle(t.kind)))
    {
      match t.kind
      case Base => RotateBase(t.face);
      case Prime => RotatePrime(t.face);
      case Double => RotateDouble(t.face);
    }

    /** Play a list of tokens: each is taken off the front of the list and, when it names a
        turn, that turn is requested. Since a request is dropped while a move is under way,
        only the first turn named in the list starts, and only from idle. */
    method MoveFromList(str: seq<string>)
      requires Valid()
      modifies currentAnimation
      ensures Valid()
      ensures old(currentAnimation.isAnimating) || FirstTurn(str).None? ==> unchanged(currentAnimation)
      ensures !old(currentAnimation.isAnimating) && FirstTurn(str).Some? ==>
        Started(FirstTurn(str).value.face, normalizeAngle(Angle(FirstTurn(str).value.kind)))
    {
      var rest := str;
      while |rest| != 0
        invariant Valid()
        invariant rest == str[|str| - |rest|..]
        invariant var done := str[..|str| - |rest|];
          && (old(currentAnimation.isAnimating) || FirstTurn(done).None? ==> unchanged(currentAnimation))
          && (!old(currentAnimation.isAnimating) && FirstTurn(done).Some? ==>
                Started(FirstTurn(done).value.face, normalizeAngle(Angle(FirstTurn(done).value.kind))))
        decreases |rest|
      {
        ghost var done := str[..|str| - |rest|];
        var mov := rest[0];
        rest := rest[1..];
        assert str[..|str| - |rest|] == done + [mov];
        FirstTurnAppend(done, mov);
        match ParseToken(mov)
        case Some(t) => RotateTurn(t);
        case None =>
      }
      assert str[..|str|] == str;
    }

    /** The do-while of generateScrambleSequence: draw faces from position next on until one
        differs from the last face. It fails only when the stream runs out first. */
    method DrawFace(draws: seq<Draw>, next: nat, lastFace: Option<Face>, ghost n: int)
      returns (found: bool, face: Face, after: nat)
      requires next <= |draws| && n > 0
      ensures next <= after <= |draws|
      ensures found ==> Some(face) != lastFace
      ensures found ==> Scramble(draws[next..], lastFace, n) == [face] + Scramble(draws[after..], Some(face), n - 1)
      ensures !found ==> Scramble(draws[next..], lastFace, n) == []
    {
      after := next;
      found := false;
      face := U;
      while !found && after < |draws|
        invariant next <= after <= |draws|
        invariant !found ==> Scramble(draws[next..], lastFace, n) == Scramble(draws[after..], lastFace, n)
        invariant found ==> && Some(face) != lastFace
                            && Scramble(draws[next..], lastFace, n) == [face] + Scramble(draws[after..], Some(face), n - 1)
        decreases |draws| - after
      {
        face := PossibleMoves[draws[after]];
        ScrambleStep(draws, after, lastFace, n);
        after := after + 1;
        found := Some(face) != lastFace;
      }
      if !found {
        assert draws[after..] == [];
      }
    }

    /** The scramble moves drawn from a stream of moveDist draws, each a clockwise quarter turn
        of a face: the angle the source also draws is never used. */
    method GenerateScrambleSequence(numMoves: int, draws: seq<Draw>) returns (sequence: seq<Move>)
      ensures sequence == ClockwiseMoves(Scramble(draws, None, numMoves))
    {
      sequence := [];
      ghost var faces: seq<Face> := [];
      var lastFace: Option<Face> := None;
      var next := 0;
      var i := 0;
      var found := true;
      while i < numMoves && found
        invariant 0 <= next <= |draws|
        invariant found ==> Scramble(draws, None, numMoves) == faces + Scramble(draws[next..], lastFace, numMoves - i)
        invariant !found ==> Scramble(draws, None, numMoves) == faces
        invariant sequence == ClockwiseMoves(faces)
        decreases numMoves - i, if found then 1 else 0
      {
        var face, after;
        found, face, after := DrawFace(draws, next, lastFace, numMoves - i);
        if found {
          ScrambleGrows(draws, faces, face, after, numMoves - i - 1);
          next := after;
          lastFace := Some(face);
          sequence := sequence + [Move(face, -90.0, false)];
          faces := faces + [face];
          i := i + 1;
        } else {
          assert faces + [] == faces;
        }
      }
      if found {
        assert Scramble(draws[next..], lastFace, numMoves - i) == [];
        assert faces + [] == faces;
      }
    }

    /** One scramble move, as scrambleCube's switch plays it: a face move with a negative
        angle is started as X and reported as "X", any other face move as X' and "X'", and a
        slice move is started clockwise and not reported. */
    method PlayMove(move: Move) returns (reported: seq<string>)
      requires Valid()
      modifies currentAnimation
      ensures Valid()
      ensures reported == MoveToken(move)
      ensures old(currentAnimation.isAnimating) ==> unchanged(currentAnimation)
      ensures !old(currentAnimation.isAnimating) ==> Started(move.face, normalizeAngle(StartAngle(move)))
    {
      if move.angle < 0.0 {
        match move.face
        case U => RotateBase(U); reported := ["U"];
        case L => RotateBase(L); reported := ["L"];
        case F => RotateBase(F); reported := ["F"];
        case R => RotateBase(R); reported := ["R"];
        case B => RotateBase(B); reported := ["B"];
        case D => RotateBase(D); reported := ["D"];
        case V => RotateMiddle(V); reported := [];
        case H => RotateMiddle(H); reported := [];
        case S => RotateMiddle(S); reported := [];
      } else {
        match move.face
        case U => RotatePrime(U); reported := ["U'"];
        case L => RotatePrime(L); reported := ["L'"];
        case F => RotatePrime(F); reported := ["F'"];
        case R => RotatePrime(R); reported := ["R'"];
        case B => RotatePrime(B); reported := ["B'"];
        case D => RotatePrime(D); reported := ["D'"];
        case V => RotateMiddle(V); reported := [];
        case H => RotateMiddle(H); reported := [];
        case S => RotateMiddle(S); reported := [];
      }
    }

    /** Play scramble moves in order, collecting what they report. Only the first move starts,
        and only from idle. */
    method PlayScramble(moves: seq<Move>) returns (sequenceString: seq<string>)
      requires Valid()
      modifies currentAnimation
      ensures Valid()
      ensures sequenceString == ScrambleTokens(moves)
      ensures old(currentAnimation.isAnimating) || |moves| == 0 ==> unchanged(currentAnimation)
      ensures !old(currentAnimation.isAnimating) && |moves| > 0 ==>
        Started(moves[0].face, normalizeAngle(StartAngle(moves[0])))
    {
      sequenceString := [];
      for j := 0 to |moves|
        invariant Valid()
        invariant sequenceString == ScrambleTokens(moves[..j])
        invariant old(currentAnimation.isAnimating) || j == 0 ==> unchanged(currentAnimation)
        invariant !old(currentAnimation.isAnimating) && j > 0 ==>
          Started(moves[0].face, normalizeAngle(StartAngle(moves[0])))
      {
        var reported := PlayMove(moves[j]);
        assert moves[..j + 1][..j] == moves[..j];
        sequenceString := sequenceString + reported;
      }
      assert moves[..|moves|] == moves;
    }

    /** Generate a scramble from the draws and play it. The tokens reported are those of the
        generated faces, each a clockwise quarter turn; only the first starts, and only from
        idle. */
    method ScrambleCube(numMoves: int, draws: seq<Draw>) returns (sequenceString: seq<string>)
      requires Valid()
      modifies currentAnimation
      ensures Valid()
      ensures var faces := Scramble(draws, None, numMoves);
        && |sequenceString| == |faces|
        && (forall i | 0 <= i < |faces| :: sequenceString[i] == Token(Turn(faces[i], Base)))
        && (old(currentAnimation.isAnimating) || |faces| == 0 ==> unchanged(currentAnimation))
        && (!old(currentAnimation.isAnimating) && |faces| > 0 ==>
              Started(faces[0], normalizeAngle(Angle(Base))))
    {
      var scrambleSequence := GenerateScrambleSequence(numMoves, draws);
      sequenceString := PlayScramble(scrambleSequence);
      ScrambleTokensOfFaces(Scramble(draws, None, numMoves), scrambleSequence);
    }
  }
}
