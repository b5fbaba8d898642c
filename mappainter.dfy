/**
 * The per-frame paint context that the map painters share: an object counter
 * with a fixed ceiling that tells every painter when the frame has drawn enough,
 * and a test of the frame's display-option bitmask.
 */
module MapPainter {

  /** A Qt flags value (display options, map object types) as its bit pattern; QFlags stores an `int`. */
  type Flags32 = bv32

  // ---------------------------------------------------------------------------
  // Bitmasks as sets of flag positions
  // ---------------------------------------------------------------------------

  /** Is bit `j` of `x` set? Positions run from 0 to 31; nothing is set beyond. */
  predicate Bit(x: Flags32, j: Flags32)
  {
    j < 32 && (x >> j) & 1 == 1
  }

  /** Do the two masks have some flag position set in both? */
  ghost predicate SharesFlag(a: Flags32, b: Flags32)
  {
    exists j :: Bit(a, j) && Bit(b, j)
  }

  /** Is every flag of `a` also a flag of `b`? */
  ghost predicate FlagsWithin(a: Flags32, b: Flags32)
  {
    forall j :: Bit(a, j) ==> Bit(b, j)
  }

  /** The low `k` bits set, all others clear. */
  function LowMask(k: Flags32): Flags32
    requires k <= 32
  {
    if k == 32 then 0xFFFF_FFFF else (1 << k) - 1
  }

  lemma LowMaskStep(k: Flags32)
    requires 0 < k <= 32
    ensures LowMask(k) == LowMask(k - 1) | (1 << (k - 1))
  {
  }

  lemma SingleBit(x: Flags32, j: Flags32)
    requires j < 32
    ensures x & (1 << j) != 0 <==> Bit(x, j)
  {
  }

  lemma AndOverOr(x: Flags32, m: Flags32, b: Flags32)
    ensures x & (m | b) == (x & m) | (x & b)
  {
  }

  lemma BitOfAnd(a: Flags32, b: Flags32, j: Flags32)
    ensures Bit(a & b, j) == (Bit(a, j) && Bit(b, j))
  {
  }

  /** A word with a bit set below `k` has it either below `k - 1` or at `k - 1`. */
  lemma SplitTop(x: Flags32, k: Flags32)
    requires 0 < k <= 32 && x & LowMask(k) != 0
    ensures x & LowMask(k - 1) != 0 || Bit(x, k - 1)
  {
    LowMaskStep(k);
    AndOverOr(x, LowMask(k - 1), 1 << (k - 1));
    SingleBit(x, k - 1);
  }

  /** A word with a bit set below `k` has a flag at some position below `k`. */
  lemma {:induction false} FindBit(x: Flags32, k: Flags32)
    requires k <= 32 && x & LowMask(k) != 0
    ensures exists j :: j < k && Bit(x, j)
    decreases k
  {
    assert k != 0;
    SplitTop(x, k);
    if x & LowMask(k - 1) != 0 {
      FindBit(x, k - 1);
    } else {
      assert Bit(x, k - 1);
    }
  }

  lemma FullMask(x: Flags32)
    ensures x & LowMask(32) == x
  {
  }

  /** A shared flag makes the AND nonzero. */
  lemma SharedBitInAnd(a: Flags32, b: Flags32, j: Flags32)
    requires Bit(a, j) && Bit(b, j)
    ensures a & b != 0
  {
    BitOfAnd(a, b, j);
  }

  /** A nonzero AND has a flag that both masks set. */
  lemma {:induction false} AndHasSharedFlag(a: Flags32, b: Flags32)
    requires a & b != 0
    ensures SharesFlag(a, b)
  {
    FullMask(a & b);
    FindBit(a & b, 32);
    var j :| j < 32 && Bit(a & b, j);
    BitOfAnd(a, b, j);
  }

  /** Two masks have a nonzero AND exactly when they have a flag in common. */
  lemma {:induction false} IntersectIffSharedFlag(a: Flags32, b: Flags32)
    ensures a & b != 0 <==> SharesFlag(a, b)
  {
    if a & b != 0 {
      AndHasSharedFlag(a, b);
    } else if j :| Bit(a, j) && Bit(b, j) {
      SharedBitInAnd(a, b, j);
    }
  }

  // ---------------------------------------------------------------------------
  // The object budget
  // ---------------------------------------------------------------------------

  /** A frame whose counter stands at `count` is over its budget. */
  predicate Overflows(count: int)
  {
    count > PaintContext.MaxObjectCount
  }

  /**
   * What `n` successive calls of the counting operation report, starting from
   * a counter at `start`: each call first raises the counter by one, then tests it.
   */
  function Calls(start: int, n: nat): (r: seq<bool>)
    ensures |r| == n
    decreases n
  {
    if n == 0 then [] else [Overflows(start + 1)] + Calls(start + 1, n - 1)
  }

  /** Call number `i + 1` of a run reports the test on the counter raised `i + 1` times. */
  lemma {:induction false} CallsAt(start: int, n: nat, i: nat)
    requires i < n
    ensures Calls(start, n)[i] == Overflows(start + i + 1)
    decreases n
  {
    if i > 0 {
      CallsAt(start + 1, n - 1, i - 1);
    }
  }

  /** Running `m` calls and then `n` more is the same as running `m + n` calls. */
  lemma {:induction false} CallsAppend(start: int, m: nat, n: nat)
    ensures Calls(start, m + n) == Calls(start, m) + Calls(start + m, n)
    decreases m
  {
    if m > 0 {
      CallsAppend(start + 1, m - 1, n);
      assert Calls(start, m + n) == [Overflows(start + 1)] + Calls(start + 1, (m - 1) + n);
    }
  }

  /** From a fresh counter, call number `i + 1` overflows exactly when `i + 1` exceeds the ceiling. */
  lemma {:induction false} CallsFromZero(n: nat)
    ensures forall i :: 0 <= i < n ==> (Calls(0, n)[i] <==> i + 1 > PaintContext.MaxObjectCount)
  {
    forall i | 0 <= i < n ensures Calls(0, n)[i] <==> i + 1 > PaintContext.MaxObjectCount {
      CallsAt(0, n, i);
    }
  }

  /** From a fresh counter, the first 2500 calls report no overflow and call 2501 does. */
  lemma {:induction false} FirstOverflowOnCall2501(n: nat)
    requires n >= 2501
    ensures forall i :: 0 <= i < 2500 ==> !Calls(0, n)[i]
    ensures Calls(0, n)[2500]
  {
    CallsFromZero(n);
  }

  /** Once a call reports overflow, every later call of the same run does too. */
  lemma {:induction false} CallsSticky(start: int, n: nat, i: nat, j: nat)
    requires i <= j < n
    requires Calls(start, n)[i]
    ensures Calls(start, n)[j]
  {
    CallsAt(start, n, i);
    CallsAt(start, n, j);
  }

  /** A counter already over budget makes every further call report overflow. */
  lemma {:induction false} OverflowStays(start: int, n: nat)
    requires Overflows(start)
    ensures forall i :: 0 <= i < n ==> Calls(start, n)[i]
  {
    forall i | 0 <= i < n ensures Calls(start, n)[i] {
      CallsAt(start, n, i);
    }
  }

  /**
   * The single step from NORMAL to OVERFLOW happens on the call that takes the counter to 2501:
   * on the first call of a run when the counter starts at 2500, later between two consecutive calls.
   */
  lemma {:induction false} OverflowTransition(start: int, n: nat, i: nat)
    requires i < n
    ensures i == 0 ==> ((!Overflows(start) && Calls(start, n)[0]) <==> start == PaintContext.MaxObjectCount)
    ensures i > 0 ==> ((!Calls(start, n)[i - 1] && Calls(start, n)[i]) <==> start + i == PaintContext.MaxObjectCount)
  {
    if i > 0 {
      CallsAt(start, n, i - 1);
    }
    CallsAt(start, n, i);
  }

  // ---------------------------------------------------------------------------
  // The paint context
  // ---------------------------------------------------------------------------

  /** Everything in a paint context that counting objects must leave alone. */
  datatype Settings = Settings(
    drawFast: bool,
    objectTypes: Flags32,
    dispOpts: Flags32,
    multipliers: seq<real>)

  /** State passed to all painters for one paint event. */
  class PaintContext {
    /** The fixed ceiling on objects drawn per frame; above the number of top-level airports. */
    static const MaxObjectCount: int := 2500

    var drawFast: bool             // reduced details are drawn
    var objectTypes: Flags32       // object types that should be drawn
    var dispOpts: Flags32          // display options

    // Size and thickness factors
    var textSizeAircraftAi: real
    var symbolSizeNavaid: real
    var thicknessFlightplan: real
    var textSizeNavaid: real
    var symbolSizeAirport: real
    var symbolSizeAircraftAi: real
    var textSizeFlightplan: real
    var textSizeAircraftUser: real
    var symbolSizeAircraftUser: real
    var textSizeAirport: real
    var thicknessTrail: real
    var thicknessRangeDistance: real

    /** Objects drawn so far in this frame. */
    var objectCount: int

    /** The settings of this context, in declaration order. */
    function Config(): Settings
      reads this
    {
      Settings(drawFast, objectTypes, dispOpts,
               [textSizeAircraftAi, symbolSizeNavaid, thicknessFlightplan, textSizeNavaid,
                symbolSizeAirport, symbolSizeAircraftAi, textSizeFlightplan, textSizeAircraftUser,
                symbolSizeAircraftUser, textSizeAirport, thicknessTrail, thicknessRangeDistance])
    }

    /** A context for a new frame: no object counted yet, every factor 1. */
    constructor (drawFast: bool, objectTypes: Flags32, dispOpts: Flags32)
      ensures objectCount == 0 && !IsOverflow()
      ensures Config() == Settings(drawFast, objectTypes, dispOpts, seq(12, _ => 1.0))
    {
      this.drawFast := drawFast;
      this.objectTypes := objectTypes;
      this.dispOpts := dispOpts;
      textSizeAircraftAi := 1.0;
      symbolSizeNavaid := 1.0;
      thicknessFlightplan := 1.0;
      textSizeNavaid := 1.0;
      symbolSizeAirport := 1.0;
      symbolSizeAircraftAi := 1.0;
      textSizeFlightplan := 1.0;
      textSizeAircraftUser := 1.0;
      symbolSizeAircraftUser := 1.0;
      textSizeAirport := 1.0;
      thicknessTrail := 1.0;
      thicknessRangeDistance := 1.0;
      objectCount := 0;
      new;
      assert Config().multipliers == seq(12, _ => 1.0);
    }

    /** Is the frame over its object budget? It answers what the last counting call reported. */
    predicate IsOverflow()
      reads this
      ensures objectCount >= 1 ==> (IsOverflow() <==> Calls(objectCount - 1, 1)[0])
    {
      Overflows(objectCount)
    }

    /** Counts one more object and reports whether the frame is now over budget. */
    method ObjCount() returns (overflow: bool)
      modifies this`objectCount
      ensures objectCount == old(objectCount) + 1
      ensures overflow == IsOverflow()
      ensures [overflow] == Calls(old(objectCount), 1)
      ensures old(IsOverflow()) ==> overflow
      ensures Config() == old(Config())
    {
      objectCount := objectCount + 1;
      overflow := objectCount > MaxObjectCount;
    }

    /** Does the frame enable any of the display options in `opts`? */
    function DOpt(opts: Flags32): (b: bool)
      reads this
      ensures b <==> SharesFlag(dispOpts, opts)
    {
      IntersectIffSharedFlag(dispOpts, opts);
      dispOpts & opts != 0
    }
  }

  /** No display option is enabled by asking for none. */
  lemma DOptNone(c: PaintContext)
    ensures !c.DOpt(0)
  {
  }

  /** Asking for more options can only turn a yes into a yes. */
  lemma DOptMonotone(c: PaintContext, o1: Flags32, o2: Flags32)
    requires FlagsWithin(o1, o2)
    requires c.DOpt(o1)
    ensures c.DOpt(o2)
  {
  }
}
