# PaintContext: the per-frame object budget and display-option test

Little Navmap's map painters all receive one `PaintContext` for each paint event.
This project models the part of that struct whose code is visible in
`src/mapgui/mappainter.h`:

- the object budget. `MAX_OBJECT_COUNT` is a fixed ceiling of 2500. `objectCount`
  starts at 0. `objCount()` raises the counter by one and reports whether it now
  exceeds the ceiling. `isOverflow()` asks the same question without counting.
- the display-option test `dOpt(opts)`. It is true when the frame's
  display-option flags share at least one bit with `opts`.
- the frame settings that counting must leave alone: `drawFast`, `objectTypes`,
  `dispOpts` and the twelve size and thickness factors, which default to 1.

Everything is in `mappainter.dfy`, module `MapPainter`:

- `PaintContext` is a class with those fields. `ObjCount` is a method that
  modifies only `objectCount`. `IsOverflow` and `DOpt` are functions that only
  read the object.
- The Qt flag types (`opts::DisplayOptions`, `maptypes::MapObjectTypes`) are
  `QFlags` over an `int`. Here they are `bv32` (`Flags32`), so "some bit in
  common" is an explicit bitwise AND.
- `Calls(start, n)` is the specification of a run of calls. It lists what `n`
  successive `objCount()` calls report when the counter starts at `start`.
  `ObjCount`'s contract says that one call is `Calls(old(objectCount), 1)`.
  `CallsAppend` says that runs compose, so the lemmas about `Calls` describe any
  sequence of calls in a frame.
- `SharesFlag(a, b)` is the reference meaning of `dOpt`: some bit position
  below 32 is set in both masks. `IntersectIffSharedFlag` proves that a nonzero
  AND means exactly that. The proof finds the set bit by induction over a low-bit
  mask.

The float size factors are `real`. Counting only leaves them alone, so no float
arithmetic is involved.

## Model

| member | source | states |
|---|---|---|
| `MapPainter.PaintContext.constructor` | src/mapgui/mappainter.h:64-79 | a new context has counted nothing, is not in overflow, holds the given option and type flags, and every size and thickness factor is 1 |
| `MapPainter.PaintContext.ObjCount` | src/mapgui/mappainter.h:80-84 | the counter grows by exactly one; the result equals `IsOverflow()` evaluated after the call; the call is one step of `Calls`; a frame already in overflow reports overflow again; `drawFast`, `objectTypes`, `dispOpts` and all twelve factors are unchanged |
| `MapPainter.PaintContext.DOpt` | src/mapgui/mappainter.h:91-94 | the test is true exactly when the frame's display options and `opts` have a flag position in common; it only reads the context |
| `MapPainter.Calls` | src/mapgui/mappainter.h:80-89 | a run of `n` calls reports exactly `n` results |
| `MapPainter.CallsAt` | src/mapgui/mappainter.h:80-83 | call number `i + 1` reports whether the counter, raised `i + 1` times from its start, exceeds 2500 |
| `MapPainter.CallsAppend` | src/mapgui/mappainter.h:80-84 | `m` calls followed by `n` calls report the same as `m + n` calls, the second run starting where the first left the counter |
| `MapPainter.CallsFromZero` | src/mapgui/mappainter.h:77-84 | from a counter at 0, call number `i + 1` reports overflow exactly when `i + 1 > 2500` |
| `MapPainter.FirstOverflowOnCall2501` | src/mapgui/mappainter.h:77-84 | from a counter at 0, calls 1 to 2500 report no overflow and call 2501 reports overflow |
| `MapPainter.CallsSticky` | src/mapgui/mappainter.h:79-89 | once a call in a run reports overflow, every later call in that run does too |
| `MapPainter.OverflowStays` | src/mapgui/mappainter.h:79-89 | if the counter is already over the ceiling, every further call reports overflow |
| `MapPainter.PaintContext.IsOverflow` | src/mapgui/mappainter.h:86-89 | true exactly when the counter exceeds 2500, which is what the last `objCount()` call reported; it only reads the context, and `ObjCount`'s contract ties it to the value a call returns |
| `MapPainter.OverflowTransition` | src/mapgui/mappainter.h:78-83 | the switch from no overflow to overflow happens on the call that takes the counter from 2500 to 2501: on the first call of a run exactly when the counter starts at 2500, and between two consecutive calls exactly when the first of them left the counter at 2500 |
| `MapPainter.IntersectIffSharedFlag` | src/mapgui/mappainter.h:91-94 | the bitwise AND of two masks is nonzero if and only if some bit position is set in both |
| `MapPainter.AndHasSharedFlag` | src/mapgui/mappainter.h:93 | a nonzero AND has a witness bit position below 32 set in both masks |
| `MapPainter.DOptNone` | src/mapgui/mappainter.h:91-94 | asking for no options is always false |
| `MapPainter.DOptMonotone` | src/mapgui/mappainter.h:91-94 | if every flag of `o1` is also a flag of `o2` and `o1` is enabled, then `o2` is enabled |

## Left out

- `ObjCount`: the counter is a C++ `int`. Signed overflow after 2^31 - 1 calls in
  one frame is undefined behaviour and is not modelled: the model's counter is
  unbounded.
- `sz` and `szF` (src/mapgui/mappainter.h:97-125): float multiplication and `std::round`.
- `szFont` (src/mapgui/mappainter.h:128): only declared in this header, and it sets Qt font state.
- `paintCircle`, the two `findTextPos` overloads, `findTextPosRhumb`, both
  `drawLineString` overloads, the three `paintArc` overloads, `paintHold` and
  `paintProcedureTurn` (src/mapgui/mappainter.h:150-189): only declared here.
  Their bodies are in mappainter.cpp, which is not part of this model. They also
  rely on Marble projection, spherical geometry in floats and QPainter calls.
- `FIND_TEXT_POS_STEP`, `CIRCLE_MIN_POINTS` and `CIRCLE_MAX_POINTS`
  (src/mapgui/mappainter.h:191-197): the code that uses them is not part of this
  model. The claim that a circle has between 16 and 72 points is not modelled.
- `setRenderHints`, the layer, painter, viewport, view-context, viewport-rectangle,
  scroll-detail and font fields, and the `MapPainter` base class: Qt and Marble
  plumbing and foreign calls.
- Resetting the counter between frames: the header has no reset. A frame gets a
  fresh context, which the constructor models.
- The header does not keep the size factors non-negative or clamp them. The model
  follows the code and states no such bound.
