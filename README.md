# Rubik's cube state machine of Project_rubik

This project models the logical core of the `CuboRubik` class in `rubik.h`. The class keeps two slot maps:

- `faceMap` holds one array of 9 cubie names per face U, L, F, R, B, D;
- `sliceMap` holds one ring of 8 names per middle slice V, H, S.

A cubie is named by the letters of the faces it shows ("LUF", "UF", "U").

The model covers:

- the index tables a quarter turn applies to the turned layer;
- the duplicate guard that refuses a turn;
- the neighbour copies of `updateAdjacentFaces`;
- the animation state machine that starts, advances and commits one move;
- the two notation front ends, `moveFromList` and `scrambleCube`.

## Layout

| File | Contents |
|---|---|
| `cube.dfy` | `CubeState`: layers, the two maps as one `Maps` value, the blank state of a fresh cube, the solved cube. |
| `permutation.dfy` | `Permutation`: the face and slice reorder tables (`newOrder`) and their algebra. |
| `adjacency.dfy` | `Adjacency`: the neighbour links table `Links(g, h)`, the synchronised state `Synced(m, g)`, and coherence. |
| `copies.dfy` | `AdjacentCopies`: the copies of `updateAdjacentFaces` written out slot by slot, proved equal to `Synced`. |
| `engine.dfy` | `Engine`: one committed turn, `Commit`, and what a call does on any state, `Rotate`, with round-trip and order-four lemmas. |
| `solved.dfy` | `SolvedCube`: facts about the solved cube, and the worked example of R followed by R'. |
| `homes.dfy` | `HomePositions`: the home position, among the 26 cubies, of every slot of every layer, and how the neighbour links line up with them. |
| `reachable.dfy` | `Reachable`: every state reached from the solved cube by committed turns shows each of the 26 cubies once, so its arrays never repeat a name and its shared slots always agree. |
| `notation.dfy` | `Notation`: turn tokens, parsing, the first turn of a token list, and the scramble generator. |
| `animation.dfy` | `Animation`: frame delta, per-frame angle change, the completion test, and the rotation axes. |
| `rubik.dfy` | `Rubik`: the classes `AnimationState` and `CuboRubik` with their imperative methods. |

The class `CuboRubik` holds `faceMap`, `sliceMap`, `currentAnimation` and `lastFrameTime` as fields. The methods update them in place.

- Each map-changing method is proved against `Engine.Rotate` or `Adjacency.Synced`.
- The round-trip, order-four, coherence and duplicate properties are proved about those functions.
- Every state reached from the solved cube shows each of the 26 cubies at one home position. From that, no array of a reached state repeats a name and every slot two layers share holds the same name in both maps.
- `CuboRubik.Valid()` holds between public calls:
  - the maps are not yet filled, or they are the solved cube after the turns committed since `initializeCubes`, recorded in the ghost field `turns`;
  - the animation is idle exactly when no move is under way;
  - a running move names a layer whose letter, kind and direction agree.

## Model

| member | source | states |
|---|---|---|
| CubeState.LetterRoundTrip | rubik.h:1016-1021 | The letter stored in `currentAnimation.face` names exactly one layer, and reading it back gives that layer. |
| CubeState.Default | rubik.h:269 | The array `operator[]` inserts for a missing key has the layer's size and only empty names. |
| CubeState.Empty | rubik.h:1066-1071 | A freshly constructed cube has no key in either map: it is blank and not full. |
| CubeState.DefaultHasRepeat | rubik.h:286-293 | An inserted default array always repeats a name, so the duplicate guard refuses to turn it. |
| CubeState.SetEntryEntry | rubik.h:296-299 | Writing one layer's array changes that entry and no other. |
| Permutation.FaceTurn | rubik.h:273-283 | Slot i of the turned face receives old slot `FaceSource(i, clockwise)`: clockwise `[6,3,0,7,4,1,8,5,2]`, counter-clockwise `[2,5,8,1,4,7,0,3,6]`. |
| Permutation.FaceTurnFixesOnlyCentre | rubik.h:273-283 | Slot 4, the centre, is the only slot a face turn leaves in place. |
| Permutation.FaceTurnCycles | rubik.h:275-277 | Clockwise, corners travel 0 → 2 → 8 → 6 → 0 and edges 1 → 5 → 7 → 3 → 1. |
| Permutation.FaceSourceInverse | rubik.h:273-283 | The two tables are mutually inverse, so each is a bijection on the 9 slots. |
| Permutation.FaceTurnInverse | rubik.h:273-283 | A quarter turn followed by the opposite quarter turn restores the face array. |
| Permutation.FaceHalfTurn | rubik.h:273-283 | Two quarter turns the same way reverse the face array: slot i receives old slot 8 - i. |
| Permutation.FaceTurnOrderFour | rubik.h:273-283 | Four quarter turns the same way restore the face array. |
| Permutation.FaceTurnDistinct | rubik.h:273-293 | The reordered face has a duplicate exactly when the face had one. |
| Permutation.SliceSource | rubik.h:311-336 | Slot i of the turned ring receives old slot (i + 6) mod 8 or (i + 2) mod 8. S uses the opposite shift to V and H for the same flag. |
| Permutation.SliceTurn | rubik.h:311-336 | The turned ring is the old ring read from `SliceSource`. |
| Permutation.SliceTurnMovesEverySlot | rubik.h:311-336 | A slice turn moves every slot: a ring has no centre. |
| Permutation.SliceTurnInverse | rubik.h:311-336 | Clockwise then counter-clockwise, or the reverse, restores the ring. |
| Permutation.SliceHalfTurn | rubik.h:311-336 | Two quarter turns the same way shift every name four places round the ring. |
| Permutation.SliceTurnOrderFour | rubik.h:311-336 | Four quarter turns the same way restore the ring. |
| Permutation.SliceTurnDistinct | rubik.h:311-347 | The reordered ring has a duplicate exactly when the ring had one. |
| Adjacency.LinksInRange | rubik.h:360-791 | Every copy writes a slot that exists and lies outside the turned layer, and reads a slot of the turned layer, so no copy reads a slot another copy wrote. |
| Adjacency.LinksNotOwnLayer | rubik.h:360-791 | `updateAdjacentFaces` never writes the turned layer's own array. |
| Adjacency.OverwriteTwice | rubik.h:360-791 | A second round of copies through the same links replaces everything the first round wrote. |
| Adjacency.SyncedKeepsOwnLayer | rubik.h:360-791 | Synchronising the neighbours leaves the turned layer unchanged. |
| Adjacency.SyncedIsCoherent | rubik.h:360-791 | After synchronising, every linked neighbour slot holds the name of its source slot in the turned layer. |
| Adjacency.CoherentIsFixed | rubik.h:360-791 | Synchronising leaves a state unchanged exactly when its neighbours already agree with the layer. |
| Adjacency.SyncedIdempotent | rubik.h:360-791 | Synchronising twice is synchronising once. |
| Adjacency.SyncedForgetsEarlierSync | rubik.h:296-302 | Once the layer's array is replaced, an earlier synchronisation leaves no trace. |
| AdjacentCopies.CopiesFromUToFaces | rubik.h:363-414 | After U turns: R[2,1,0] := U[2,5,8], F[0,1,2] := U[6,7,8], L[0,1,2] := U[0,3,6], B[2,1,0] := U[0,1,2]. U and D are unchanged. |
| AdjacentCopies.CopiesFromUToSlices | rubik.h:363-414 | After U turns: S[0,1,2] := U[3,4,5] and V[0,1,2] := U[1,4,7]. H is unchanged. |
| AdjacentCopies.CopiesFromLToFaces | rubik.h:415-465 | The face copies after a turn of L, slot by slot as the source lists them. |
| AdjacentCopies.CopiesFromLToSlices | rubik.h:415-465 | The slice copies after a turn of L. |
| AdjacentCopies.CopiesFromFToFaces | rubik.h:466-517 | The face copies after a turn of F. |
| AdjacentCopies.CopiesFromFToSlices | rubik.h:466-517 | The slice copies after a turn of F. |
| AdjacentCopies.CopiesFromRToFaces | rubik.h:518-568 | The face copies after a turn of R. |
| AdjacentCopies.CopiesFromRToSlices | rubik.h:518-568 | The slice copies after a turn of R. |
| AdjacentCopies.CopiesFromBToFaces | rubik.h:569-618 | The face copies after a turn of B. |
| AdjacentCopies.CopiesFromBToSlices | rubik.h:569-618 | The slice copies after a turn of B. |
| AdjacentCopies.CopiesFromDToFaces | rubik.h:619-668 | The face copies after a turn of D. |
| AdjacentCopies.CopiesFromDToSlices | rubik.h:619-668 | The slice copies after a turn of D. |
| AdjacentCopies.CopiesFromSToFaces | rubik.h:669-709 | The face copies after a turn of slice S. |
| AdjacentCopies.CopiesFromSToSlices | rubik.h:669-709 | The slice copies after a turn of slice S. |
| AdjacentCopies.CopiesFromVToFaces | rubik.h:710-750 | The face copies after a turn of slice V. |
| AdjacentCopies.CopiesFromVToSlices | rubik.h:710-750 | The slice copies after a turn of slice V. |
| AdjacentCopies.CopiesFromHToFaces | rubik.h:751-790 | The face copies after a turn of slice H. |
| AdjacentCopies.CopiesFromHToSlices | rubik.h:751-790 | The slice copies after a turn of slice H. |
| Engine.TurnedInverse | rubik.h:273-283 | For faces and slices alike, a turn and the opposite turn restore the array. |
| Engine.TurnedOrderFour | rubik.h:273-283 | For faces and slices alike, four turns the same way restore the array. |
| Engine.TurnedDistinct | rubik.h:286-293 | For faces and slices alike, the duplicate guard sees a duplicate exactly when the array already held one. |
| Engine.CommitRejectsOnlyDuplicates | rubik.h:286-299 | If the layer holds a duplicate, the whole state is left as it was. Otherwise the layer holds its reordered array. |
| Engine.CommitWritesOnlyLinkedSlots | rubik.h:296-302 | A committed turn writes only the turned layer and the neighbour slots linked to it. |
| Engine.CommitIsCoherent | rubik.h:296-302 | After a committed turn, every linked neighbour slot holds the name of its source slot. |
| Engine.CommitAfterSync | rubik.h:268-303 | Committing on a state synchronised around g reorders g and synchronises again from the same base. |
| Engine.CoherentAsSynced | rubik.h:360-791 | A coherent state is its own synchronisation. |
| Engine.CommitRoundTrip | rubik.h:268-357 | A turn then the opposite turn restores a state whose neighbours agree with the layer, duplicates or not. Every reachable state agrees, by `Reachable.PlayKeepsMapsConsistent`. |
| Engine.CommitOrderFour | rubik.h:268-357 | Four turns the same way restore a state whose neighbours agree with the layer. |
| HomePositions.HomeOfSolved | rubik.h:1133-1143 | The solved cube shows in every slot the cubie whose home position that slot is. The slots of one layer have different home positions. |
| HomePositions.HomeLinks | rubik.h:360-791 | A linked neighbour slot has the home position of the slot it copies. Every slot outside g that shares a home position with g is linked to g, so `updateAdjacentFaces` misses no copy. |
| Reachable.OriginInLayer | rubik.h:268-357 | A turn of g brings into the home position of slot i of g the cubie from the home position of its source slot. |
| Reachable.OriginInjective | rubik.h:268-357 | Different home positions receive their cubies from different home positions. |
| Reachable.MovedKeepsCubies | rubik.h:268-357 | A turn keeps the 26 cubies distinct and brings in no new name. |
| Reachable.ShowsSound | rubik.h:286-302 | Maps that show 26 distinct cubies at their home positions repeat no name in any array, and every shared slot agrees. |
| Reachable.CommitShowsMoved | rubik.h:268-791 | A committed turn of such maps shows the cubies moved by that turn. |
| Reachable.PlayShowsPlacement | rubik.h:268-791 | After any sequence of turns from the solved cube, the maps show each of the 26 cubies exactly once. |
| Reachable.PlayKeepsMapsConsistent | rubik.h:268-791 | After any sequence of turns from the solved cube, no array repeats a name and every slot two layers share holds the same name in both maps. |
| Reachable.PlayNeverRejects | rubik.h:286-293 | After any sequence of turns, the duplicate guard never refuses the next turn, and the turn changes the maps. |
| Reachable.PlayRoundTrip | rubik.h:268-357 | After any sequence of turns, a turn then the opposite turn restores the maps. |
| Reachable.PlayOrderFour | rubik.h:268-357 | After any sequence of turns, four turns of one layer the same way restore the maps. |
| Reachable.RotatePlaysOneMore | rubik.h:268-357 | A turn leaves unfilled maps unfilled, and moves maps reached by some turns on by one more turn. |
| Engine.RotateKeepsShape | rubik.h:269 | A turn keeps full maps full. Before `initializeCubes` a turn only inserts a default array and never places a name. |
| SolvedCube.SolvedLayer | rubik.h:1133-1143 | In the solved cube every layer holds distinct names, and every neighbour slot already agrees with every layer. |
| SolvedCube.SolvedFacesMatchNames | rubik.h:1133-1138 | A cubie lies in face f's array exactly when f's letter is in its name. |
| SolvedCube.CubieNamesSpellFaces | rubik.h:1100-1104 | Every name is one to three different face letters. With `SolvedFacesMatchNames`, a name lies in as many face arrays as it has letters: a corner in 3, an edge in 2 and a centre in 1. |
| SolvedCube.CubieNamesDistinct | rubik.h:1100-1104 | The 26 cubie names are pairwise different. |
| SolvedCube.SolvedNamesAreCubies | rubik.h:1133-1143 | Every name in the solved maps is one of the 26 cubies. |
| SolvedCube.RightTurnFromSolved | rubik.h:518-568 | A clockwise R from the solved cube gives the listed state, and R' then restores the solved cube. |
| Notation.Token | rubik.h:1433-1512 | A token is the face letter followed by nothing, an apostrophe or a 2. It has one character exactly for a clockwise quarter turn. |
| Notation.ParseTokenOfToken | rubik.h:1433-1512 | `moveFromList` understands every one of the 18 tokens as the turn it spells. |
| Notation.ParseTokenOnlyTokens | rubik.h:1433-1512 | A string is understood only when it is exactly a token. Every other string is skipped. |
| Notation.Angle | rubik.h:1263-1327 | The wrappers pass -90 for X and for each call of X2, and +90 for X'. |
| Notation.FirstTurnFinds | rubik.h:1433-1512 | The first turn of a token list exists exactly when some token names a turn, and it is the turn of the earliest such token. |
| Notation.FirstTurnAppend | rubik.h:1436-1439 | Reading one more token changes the first turn only if none was found before. |
| Notation.ScrambleStep | rubik.h:953-956 | Consuming one draw either throws it away (same face as last) or emits its face. |
| Notation.ClockwiseMoves | rubik.h:968 | Every generated move is a clockwise (-90 degree) face move. |
| Notation.ScrambleNoRepeats | rubik.h:953-958 | No face is scrambled twice in a row. |
| Notation.ScrambleLength | rubik.h:947-971 | A scramble has at most n moves, and exactly n when no draw repeats the last face and enough draws are available. |
| Notation.StartAngle | rubik.h:1352-1428 | `scrambleCube` starts a negative-angle face move at -90, any other face move at +90, and every slice move at -90. |
| Notation.MoveToken | rubik.h:1352-1428 | A face move reports one token and a slice move none. |
| Notation.ScrambleTokens | rubik.h:1350-1430 | At most one token is reported per move. |
| Notation.ScrambleTokensOfFaces | rubik.h:1340-1431 | For generated moves, `scrambleCube` reports exactly the face letters, in order. |
| Notation.ScrambleTokensReadBack | rubik.h:1433-1512 | The reported tokens read back through `moveFromList` as the scrambled faces, so replaying them starts the scramble's first turn. |
| Animation.Abs | rubik.h:1243 | The absolute value is non-negative and is x or -x. |
| Animation.FrameDelta | rubik.h:1227-1228 | The frame delta is the elapsed time capped at 0.016 s. |
| Animation.AngleChange | rubik.h:1225-1234 | A clockwise move turns by a non-positive angle per frame and any other move by a non-negative one, of size speed × dt. |
| Animation.FrameApproachesTarget | rubik.h:1243-1260 | A frame that does not end a move heading for its target brings the angle closer by exactly speed × dt, without overshooting. |
| Animation.QuarterTurnFrames | rubik.h:1227-1243 | At full frame rate a quarter turn advances for 15 frames and ends on the 16th. |
| Animation.RotationAxesPaired | rubik.h:191-221 | Opposite faces turn about the same axis in opposite senses. V, H and S turn like R, U and F. |
| Rubik.AnimationState.constructor | rubik.h:56-63 | A new animation is idle at speed 360 degrees per second. |
| Rubik.AnimationState.Reset | rubik.h:65-73 | `reset` returns every field but the speed to its idle value. |
| Rubik.CuboRubik.constructor | rubik.h:1066-1071 | A new cube holds the given frame time, no map keys and an idle animation. |
| Rubik.CuboRubik.InitializeCubes | rubik.h:1133-1143 | The maps become the solved cube. |
| Rubik.CuboRubik.Init | rubik.h:1073-1077 | The maps become the solved cube. |
| Rubik.CuboRubik.SetLastFrameTime | rubik.h:1514-1516 | Only the frame time changes. |
| Rubik.CuboRubik.HasDuplicate | rubik.h:286-293 | The nested scan reports a duplicate exactly when the array is not distinct. |
| Rubik.CuboRubik.CopyInto | rubik.h:296-299 | Clearing the array and copying newOrder slot by slot stores newOrder and changes no other layer. |
| Rubik.CuboRubik.UpdateFaceMapAfterRotation | rubik.h:268-303 | The new maps are `Rotate(old maps, face, clockwise)`: a committed turn once full, the inserted default array before that. |
| Rubik.CuboRubik.UpdateSliceMapAfterRotation | rubik.h:306-357 | As for a face, for a middle slice. |
| Rubik.CuboRubik.UpdateAdjacentFaces | rubik.h:360-791 | The new maps are `Synced(old maps, g)`, whichever direction is passed. |
| Rubik.CuboRubik.SyncAfterU | rubik.h:363-414 | The 18 writes of the U case produce `Synced(old maps, U)`. |
| Rubik.CuboRubik.SyncAfterL | rubik.h:415-465 | The writes of the L case produce `Synced(old maps, L)`. |
| Rubik.CuboRubik.SyncAfterF | rubik.h:466-517 | The writes of the F case produce `Synced(old maps, F)`. |
| Rubik.CuboRubik.SyncAfterR | rubik.h:518-568 | The writes of the R case produce `Synced(old maps, R)`. |
| Rubik.CuboRubik.SyncAfterB | rubik.h:569-618 | The writes of the B case produce `Synced(old maps, B)`. |
| Rubik.CuboRubik.SyncAfterD | rubik.h:619-668 | The writes of the D case produce `Synced(old maps, D)`. |
| Rubik.CuboRubik.SyncAfterS | rubik.h:669-709 | The writes of the S case produce `Synced(old maps, S)`. |
| Rubik.CuboRubik.SyncAfterV | rubik.h:710-750 | The writes of the V case produce `Synced(old maps, V)`. |
| Rubik.CuboRubik.SyncAfterH | rubik.h:751-790 | The writes of the H case produce `Synced(old maps, H)`. |
| Rubik.CuboRubik.RotateFace | rubik.h:814-878 | Nothing changes while a move is under way. Otherwise a move of the face towards `normalizeAngle(angle)` starts at angle 0, clockwise iff the target is negative, carrying the face's cubies. |
| Rubik.CuboRubik.RotateSlice | rubik.h:880-922 | As for a face, for a middle slice. |
| Rubik.CuboRubik.FinishAnimation | rubik.h:1005-1025 | The running move is committed through `Rotate`, clockwise iff its target is negative, even when the guard refuses it. The animation then goes idle. `Valid` is kept: filled maps are the solved cube after the recorded turns and this one. |
| Rubik.CuboRubik.MapsConsistent | rubik.h:268-791 | Between public calls, once the maps are filled, no array repeats a name and every slot two layers share holds the same name in both maps. |
| Rubik.CuboRubik.UpdateAnimation | rubik.h:1219-1261 | Nothing happens while idle. When the remaining angle is within the frame's change plus EPSILON, the move is committed and the animation goes idle. Otherwise the angle advances by the change and the frame time is recorded. |
| Rubik.CuboRubik.RotateBase | rubik.h:1263-1327 | `rotateX` starts a quarter turn of X towards `normalizeAngle(-90)` unless a move is under way. |
| Rubik.CuboRubik.RotatePrime | rubik.h:1263-1327 | `rotateXPrime` starts a quarter turn of X towards `normalizeAngle(90)` unless a move is under way. |
| Rubik.CuboRubik.RotateDouble | rubik.h:1263-1327 | `rotateX2` starts only one quarter turn of X towards `normalizeAngle(-90)`: its second request is dropped. |
| Rubik.CuboRubik.RotateMiddle | rubik.h:1329-1338 | `rotateSV`, `rotateSH` and `rotateSS` start a -90 degree turn of the slice unless a move is under way. |
| Rubik.CuboRubik.RotateTurn | rubik.h:1433-1512 | The branch `moveFromList` takes for a token starts that token's turn. |
| Rubik.CuboRubik.MoveFromList | rubik.h:1433-1512 | Only the first turn named in the list starts, and only from idle. Nothing changes when no token names a turn. |
| Rubik.CuboRubik.DrawFace | rubik.h:953-956 | The do-while returns the first drawn face that differs from the last face, consuming exactly the draws `Scramble` consumes. |
| Rubik.CuboRubik.GenerateScrambleSequence | rubik.h:936-973 | The generated moves are the clockwise moves of the faces `Scramble` picks from the draws. |
| Rubik.CuboRubik.PlayMove | rubik.h:1352-1428 | One iteration of `scrambleCube`'s switch reports `MoveToken(move)` and starts the move at `StartAngle(move)` when idle. |
| Rubik.CuboRubik.PlayScramble | rubik.h:1350-1430 | The reported tokens are `ScrambleTokens(moves)`. Only the first move starts, and only from idle. |
| Rubik.CuboRubik.ScrambleCube | rubik.h:1340-1431 | The returned tokens are the scrambled face letters, with no face twice in a row by `ScrambleNoRepeats`. Only the first turn starts, and only from idle. |

## Notes on the source

- The comments at rubik.h:274 and rubik.h:279 name the corner and edge cycles in the direction opposite to the tables below them. The model follows the tables. Clockwise, the name in slot 6 moves to slot 0.
- `updateAdjacentFaces` has a clockwise and a counter-clockwise branch for every layer, and they make the same copies. The model has one table, `Adjacency.Links`.
- `generateScrambleSequence` draws an angle for every move but always pushes -90 degrees. So every scramble move is a clockwise face move, and the slice cases of `scrambleCube`'s switch are never reached from it.

## Left out

- OpenGL: buffer setup, buffer updates, drawing and the destructor are GPU I/O.
- Cubie geometry: `cubeMap`, `Cubo`, vertex rotation through glm matrices, `updateCubePositions`, `updateFacePositions`, `updateSlicePositions` and snapping are floating-point geometry. The assignment `angleChange = remainingAngle` before the last `updateCubePositions` only feeds that geometry.
- `getRotationMatrix` is modelled only as its choice of axis and sign, `Animation.RotationAxis`. The matrix itself is not modelled.
- Debug printing (`printFaceMap`, `printSliceMap` and the `std::cout` traces) is not modelled.
- main.cpp, camera.h, figura.h, helper.h, matriz.h, transform.h and vertex.h are not part of this model: they handle windowing, rendering and float arithmetic.
- Randomness: the `mt19937` draws of `generateScrambleSequence` are an input sequence `draws`. The unused angle draw is left out.
- Rubik.CuboRubik.GenerateScrambleSequence: the generator stops early when the draw sequence runs out, whereas the source's random stream never ends.
- `normalizeAngle` is defined in none of the program's files. It is a function given to the constructor, and every property about an angle is stated in terms of it. Whether `rotateX` and `rotateX2` turn clockwise, and `rotateXPrime` counter-clockwise, depends on the sign of `normalizeAngle(-90)` and `normalizeAngle(90)`.
- Floating point: angles, times and speeds are exact reals, so the model has no float rounding.
- Maps: `std::map` is a record with one array per key. A missing key is an empty array. `operator[]` on a missing key inserts `CubeState.Default`.
- Rubik.CuboRubik.UpdateFaceMapAfterRotation requires the maps to be full or blank, the only two shapes a `CuboRubik` can reach. The source accepts any letter: a letter outside U, L, F, R, B, D would create a new key, and that case is not modelled.
- Rubik.CuboRubik.UpdateSliceMapAfterRotation takes only V, H and S. For any other letter the source indexes past the end of its empty `newOrder`.
- Concurrency: the program is single-threaded.
