/**
 * The vectorised lease draw of src/draw.rs. Vectors are their lanes in memory
 * order; each operation is what the instruction of that name does.
 */
module LeaseDraw {
  import opened ChaCha
  import opened Wrappers

  /** Four 32-bit lanes. */
  datatype V4 = V4(x0: bv32, x1: bv32, x2: bv32, x3: bv32)

  /** Eight 16-bit lanes. */
  datatype V8 = V8(h0: bv16, h1: bv16, h2: bv16, h3: bv16, h4: bv16, h5: bv16, h6: bv16, h7: bv16)

  function At(v: V4, lane: nat): bv32
    requires lane < 4
  {
    if lane == 0 then v.x0 else if lane == 1 then v.x1 else if lane == 2 then v.x2 else v.x3
  }

  function Dup(x: bv32): V4 { V4(x, x, x, x) }

  function Add(a: V4, b: V4): V4 { V4(Plus(a.x0, b.x0), Plus(a.x1, b.x1), Plus(a.x2, b.x2), Plus(a.x3, b.x3)) }

  function Eor(a: V4, b: V4): V4 { V4(Xor(a.x0, b.x0), Xor(a.x1, b.x1), Xor(a.x2, b.x2), Xor(a.x3, b.x3)) }

  // Shift left, and shift right and insert: the insert keeps the bits of the
  // destination that the shifted operand does not reach.

  function Left12(x: bv32): bv32 { x << 12 }
  function Left7(x: bv32): bv32 { x << 7 }

  function Shl12(a: V4): V4 { V4(Left12(a.x0), Left12(a.x1), Left12(a.x2), Left12(a.x3)) }
  function Shl7(a: V4): V4 { V4(Left7(a.x0), Left7(a.x1), Left7(a.x2), Left7(a.x3)) }

  function Insert20(a: bv32, b: bv32): bv32 { (a & (0xFFFF_FFFF ^ (0xFFFF_FFFF >> 20))) | (b >> 20) }
  function Insert25(a: bv32, b: bv32): bv32 { (a & (0xFFFF_FFFF ^ (0xFFFF_FFFF >> 25))) | (b >> 25) }

  function Sri20(a: V4, b: V4): V4 {
    V4(Insert20(a.x0, b.x0), Insert20(a.x1, b.x1), Insert20(a.x2, b.x2), Insert20(a.x3, b.x3))
  }

  function Sri25(a: V4, b: V4): V4 {
    V4(Insert25(a.x0, b.x0), Insert25(a.x1, b.x1), Insert25(a.x2, b.x2), Insert25(a.x3, b.x3))
  }

  // The same 16 bytes read as lanes of another width.

  function Half0(w: bv32): bv16 { (w & 0xFFFF) as bv16 }
  function Half1(w: bv32): bv16 { (w >> 16) as bv16 }

  function AsHalves(v: V4): V8 {
    V8(Half0(v.x0), Half1(v.x0), Half0(v.x1), Half1(v.x1), Half0(v.x2), Half1(v.x2), Half0(v.x3), Half1(v.x3))
  }

  function Join16(lo: bv16, hi: bv16): bv32 { ((hi as bv32) << 16) | (lo as bv32) }

  function FromHalves(h: V8): V4 {
    V4(Join16(h.h0, h.h1), Join16(h.h2, h.h3), Join16(h.h4, h.h5), Join16(h.h6, h.h7))
  }

  /** Halfwords swapped inside each word. */
  function Rev32(h: V8): V8 { V8(h.h1, h.h0, h.h3, h.h2, h.h5, h.h4, h.h7, h.h6) }

  function WordBytes(w: bv32): (b: seq<bv8>)
    ensures |b| == 4
  {
    [Byte0(w), Byte1(w), Byte2(w), Byte3(w)]
  }

  function AsBytes(v: V4): (b: seq<bv8>)
    ensures |b| == 16
  {
    WordBytes(v.x0) + WordBytes(v.x1) + WordBytes(v.x2) + WordBytes(v.x3)
  }

  function Join8(b0: bv8, b1: bv8, b2: bv8, b3: bv8): bv32 {
    (b0 as bv32) | ((b1 as bv32) << 8) | ((b2 as bv32) << 16) | ((b3 as bv32) << 24)
  }

  function FromBytes(b: seq<bv8>): V4
    requires |b| == 16
  {
    V4(Join8(b[0], b[1], b[2], b[3]), Join8(b[4], b[5], b[6], b[7]),
       Join8(b[8], b[9], b[10], b[11]), Join8(b[12], b[13], b[14], b[15]))
  }

  /** One table lookup per byte; an index past the table gives zero. */
  function Lookup(table: seq<bv8>, index: seq<bv8>): (r: seq<bv8>)
    requires |table| == 16 && |index| == 16
    ensures |r| == 16
  {
    seq(16, i requires 0 <= i < 16 => if index[i] as nat < 16 then table[index[i] as nat] else 0)
  }

  const ROTATE_8: seq<bv8> := [3, 0, 1, 2, 7, 4, 5, 6, 11, 8, 9, 10, 15, 12, 13, 14]

  function Rot16(v: V4): V4 {
    FromHalves(Rev32(AsHalves(v)))
  }

  function Rot12(v: V4): V4 { Sri20(Shl12(v), v) }

  function Rot8(v: V4, rotate8: seq<bv8>): V4
    requires |rotate8| == 16
  {
    FromBytes(Lookup(AsBytes(v), rotate8))
  }

  function Rot7(v: V4): V4 { Sri25(Shl7(v), v) }

  // Each vector rotate is the word rotate in every lane.

  lemma Halves(w: bv32)
    ensures Join16(Half1(w), Half0(w)) == Rotate16(w)
  {
  }

  lemma Inserts(w: bv32)
    ensures Insert20(Left12(w), w) == Rotate12(w)
    ensures Insert25(Left7(w), w) == Rotate7(w)
  {
  }

  lemma Shuffles(w: bv32)
    ensures Join8(Byte3(w), Byte0(w), Byte1(w), Byte2(w)) == Rotate8(w)
  {
  }

  lemma Rot16Lane(v: V4, l: nat)
    requires l < 4
    ensures At(Rot16(v), l) == Rotate16(At(v, l))
  {
    Halves(v.x0); Halves(v.x1); Halves(v.x2); Halves(v.x3);
    hide Join16, Half0, Half1, Rotate16;
  }

  lemma Rot12Lane(v: V4, l: nat)
    requires l < 4
    ensures At(Rot12(v), l) == Rotate12(At(v, l))
    ensures At(Rot7(v), l) == Rotate7(At(v, l))
  {
    Inserts(v.x0); Inserts(v.x1); Inserts(v.x2); Inserts(v.x3);
    hide Left12, Left7, Insert20, Insert25, Rotate12, Rotate7;
  }

  /** The rotation's byte order, as indices. */
  lemma ShuffleOrder(k: nat)
    requires k < 4
    ensures |ROTATE_8| == 16
    ensures ROTATE_8[4 * k] as nat == 4 * k + 3 && ROTATE_8[4 * k + 1] as nat == 4 * k
    ensures ROTATE_8[4 * k + 2] as nat == 4 * k + 1 && ROTATE_8[4 * k + 3] as nat == 4 * k + 2
  {
  }

  lemma Rot8Lane(v: V4, l: nat)
    requires l < 4
    ensures |ROTATE_8| == 16
    ensures At(Rot8(v, ROTATE_8), l) == Rotate8(At(v, l))
  {
    Shuffles(At(v, l));
    ShuffleOrder(l);
    hide Join8, Byte0, Byte1, Byte2, Byte3, Rotate8, ROTATE_8;
  }

  lemma AddLane(a: V4, b: V4, l: nat)
    requires l < 4
    ensures At(Add(a, b), l) == Plus(At(a, l), At(b, l))
    ensures At(Eor(a, b), l) == Xor(At(a, l), At(b, l))
  {
    hide Plus, Xor;
  }

  // Rounds: every lane of a group is one block's state.

  /** The state words of four blocks, one block per lane. */
  type State = s: seq<V4> | |s| == 16 witness seq(16, _ => Dup(0))

  function Lane(x: State, l: nat): (r: seq<bv32>)
    requires l < 4
    ensures |r| == 16
  {
    seq(16, i requires 0 <= i < 16 => At(x[i], l))
  }

  function QuadAt(q: Quad<V4>, l: nat): Quad<bv32>
    requires l < 4
  {
    Quad(At(q.a, l), At(q.b, l), At(q.c, l), At(q.d, l))
  }

  function VectorQuarter(q: Quad<V4>, rotate8: seq<bv8>): Quad<V4>
    requires |rotate8| == 16
  {
    var a1 := Add(q.a, q.b);
    var d1 := Rot16(Eor(q.d, a1));
    var c1 := Add(q.c, d1);
    var b1 := Rot12(Eor(q.b, c1));
    var a2 := Add(a1, b1);
    var d2 := Rot8(Eor(d1, a2), rotate8);
    var c2 := Add(c1, d2);
    var b2 := Rot7(Eor(b1, c2));
    Quad(a2, b2, c2, d2)
  }

  lemma QuarterLane(q: Quad<V4>, l: nat)
    requires l < 4
    ensures |ROTATE_8| == 16
    ensures QuadAt(VectorQuarter(q, ROTATE_8), l) == Quarter(QuadAt(q, l))
  {
    ShuffleOrder(0);
    hide Add, Eor, Rot16, Rot12, Rot8, Rot7, At, Plus, Xor, Rotate16, Rotate12, Rotate8, Rotate7, ROTATE_8;
    var a1 := Add(q.a, q.b);
    AddLane(q.a, q.b, l);
    AddLane(q.d, a1, l);
    Rot16Lane(Eor(q.d, a1), l);
    var d1 := Rot16(Eor(q.d, a1));
    AddLane(q.c, d1, l);
    var c1 := Add(q.c, d1);
    AddLane(q.b, c1, l);
    Rot12Lane(Eor(q.b, c1), l);
    var b1 := Rot12(Eor(q.b, c1));
    AddLane(a1, b1, l);
    var a2 := Add(a1, b1);
    AddLane(d1, a2, l);
    Rot8Lane(Eor(d1, a2), l);
    var d2 := Rot8(Eor(d1, a2), ROTATE_8);
    AddLane(c1, d2, l);
    var c2 := Add(c1, d2);
    AddLane(b1, c2, l);
    Rot12Lane(Eor(b1, c2), l);
  }

  /** A quarter-round on vectors is a quarter-round in every lane. */
  lemma QuarterRoundLane(x: State, at: Quad<nat>, l: nat)
    requires Positions(at) && l < 4
    ensures |ROTATE_8| == 16
    ensures Lane(Put(x, at, VectorQuarter(Pull(x, at), ROTATE_8)), l) == QuarterRound(Lane(x, l), at)
  {
    hide Quarter, VectorQuarter, At, Put, Pull, Lane, QuadAt;
    QuarterLane(Pull(x, at), l);
    LanePull(x, at, l);
    LanePut(x, at, VectorQuarter(Pull(x, at), ROTATE_8), l);
  }

  lemma LanePull(x: State, at: Quad<nat>, l: nat)
    requires Positions(at) && l < 4
    ensures QuadAt(Pull(x, at), l) == Pull(Lane(x, l), at)
  {
    hide At;
  }

  lemma LanePut(x: State, at: Quad<nat>, q: Quad<V4>, l: nat)
    requires Positions(at) && l < 4
    ensures Lane(Put(x, at, q), l) == Put(Lane(x, l), at, QuadAt(q, l))
  {
    hide At;
  }

  const GROUPS: nat := 2
  const BLOCKS: nat := 8

  /** All groups' states. */
  type States = s: seq<State> | |s| == GROUPS witness seq(2, _ => seq(16, _ => Dup(0)))

  /** The quarter-round of the source: the same words of every group. */
  method VectorQuarterRound(x: States, at: Quad<nat>, rotate8: seq<bv8>) returns (y: States)
    requires Positions(at) && rotate8 == ROTATE_8
    ensures forall g: nat, l: nat :: g < GROUPS && l < 4 ==> Lane(y[g], l) == QuarterRound(Lane(x[g], l), at)
  {
    hide VectorQuarter, QuarterRound, Lane, Put, Pull;
    y := x;
    ShuffleOrder(0);
    for g := 0 to GROUPS
      invariant forall k: nat, l: nat :: k < g && l < 4 ==> Lane(y[k], l) == QuarterRound(Lane(x[k], l), at)
      invariant forall k: nat :: g <= k < GROUPS ==> y[k] == x[k]
    {
      forall l: nat | l < 4
        ensures Lane(Put(x[g], at, VectorQuarter(Pull(x[g], at), ROTATE_8)), l) == QuarterRound(Lane(x[g], l), at)
      {
        QuarterRoundLane(x[g], at, l);
      }
      y := y[g := Put(y[g], at, VectorQuarter(Pull(y[g], at), rotate8))];
    }
  }

  /** Four double rounds of every group. */
  method VectorRounds(start: States, rotate8: seq<bv8>) returns (x: States)
    requires rotate8 == ROTATE_8
    ensures forall g: nat, l: nat :: g < GROUPS && l < 4 ==> Lane(x[g], l) == Rounds(Lane(start[g], l), 4)
  {
    x := start;
    hide Lane, QuarterRound;
    for n := 0 to 4
      invariant forall g: nat, l: nat :: g < GROUPS && l < 4 ==> Lane(x[g], l) == Rounds(Lane(start[g], l), n)
    {
      ghost var before := x;
      OrderPositions();
      for k := 0 to 8
        invariant forall g: nat, l: nat :: g < GROUPS && l < 4 ==> Lane(x[g], l) == Turns(Lane(before[g], l), k)
      {
        x := VectorQuarterRound(x, ORDER[k], rotate8);
      }
    }
  }

  // Initial states.

  /** Four counter words in each of two groups. */
  method Counters(counter: nat) returns (low: seq<bv32>, high: seq<bv32>)
    ensures |low| == BLOCKS && |high| == BLOCKS
    ensures forall o :: 0 <= o < BLOCKS ==>
      && low[o] == Low((counter + o) % COUNTER)
      && high[o] == High((counter + o) % COUNTER)
  {
    low, high := seq(BLOCKS, _ => 0), seq(BLOCKS, _ => 0);
    hide Low, High;
    for o := 0 to BLOCKS
      invariant |low| == BLOCKS && |high| == BLOCKS
      invariant forall k :: 0 <= k < o ==> low[k] == Low((counter + k) % COUNTER)
      invariant forall k :: 0 <= k < o ==> high[k] == High((counter + k) % COUNTER)
    {
      var block := (counter + o) % COUNTER;
      low, high := low[o := Low(block)], high[o := High(block)];
    }
  }

  function Load(words: seq<bv32>, g: nat): V4
    requires g < GROUPS && |words| == BLOCKS
  {
    V4(words[4 * g], words[4 * g + 1], words[4 * g + 2], words[4 * g + 3])
  }

  /** One group's initial state, from its counter vectors. */
  function Group(key: seq<bv32>, low: V4, high: V4): (x: State)
    requires |key| == 8
  {
    var fixed := CONSTANTS + key;
    var words := seq(12, i requires 0 <= i < 12 => Dup(fixed[i]));
    words + [low, high, Dup(0), Dup(0)]
  }

  lemma GroupLane(key: seq<bv32>, low: V4, high: V4, l: nat, counter: nat)
    requires |key| == 8 && l < 4 && At(low, l) == Low(counter) && At(high, l) == High(counter)
    ensures Lane(Group(key, low, high), l) == Initial(key, counter)
  {
    hide Low, High;
  }

  /** Adding the initial state back, as the source rebuilds it. */
  function AddBack(x: State, start: State): (r: State) {
    seq(16, i requires 0 <= i < 16 => Add(x[i], start[i]))
  }

  /** Each lane of the finished group is one keystream block. */
  lemma FinishedLane(key: seq<bv32>, x: State, start: State, l: nat, counter: nat)
    requires |key| == 8 && l < 4
    requires Lane(start, l) == Initial(key, counter) && Lane(x, l) == Rounds(Initial(key, counter), 4)
    ensures Lane(AddBack(x, start), l) == Block(key, counter)
  {
    hide Plus, Add, At, Initial, Rounds;
    forall i: nat | i < 16
      ensures Lane(AddBack(x, start), l)[i] == Block(key, counter)[i]
    {
      AddLane(x[i], start[i], l);
      assert At(x[i], l) == Lane(x, l)[i] && At(start[i], l) == Lane(start, l)[i];
    }
  }

  // Back to stream order, and down to one byte a word.

  function Trn1(a: V4, b: V4): V4 { V4(a.x0, b.x0, a.x2, b.x2) }
  function Trn2(a: V4, b: V4): V4 { V4(a.x1, b.x1, a.x3, b.x3) }

  // The same on 64-bit lanes, each two adjacent words.

  function Trn1Wide(a: V4, b: V4): V4 { V4(a.x0, a.x1, b.x0, b.x1) }
  function Trn2Wide(a: V4, b: V4): V4 { V4(a.x2, a.x3, b.x2, b.x3) }

  function Transpose(a: V4, b: V4, c: V4, d: V4): (rows: seq<V4>)
    ensures |rows| == 4
    ensures forall l: nat :: l < 4 ==> rows[l] == V4(At(a, l), At(b, l), At(c, l), At(d, l))
  {
    var abEven, abOdd := Trn1(a, b), Trn2(a, b);
    var cdEven, cdOdd := Trn1(c, d), Trn2(c, d);
    [Trn1Wide(abEven, cdEven), Trn1Wide(abOdd, cdOdd), Trn2Wide(abEven, cdEven), Trn2Wide(abOdd, cdOdd)]
  }

  function Narrow32(v: V4): (h: seq<bv16>)
    ensures |h| == 4
  {
    [Half0(v.x0), Half0(v.x1), Half0(v.x2), Half0(v.x3)]
  }

  function LowHalf(h: bv16): bv8 { (h & 0xFF) as bv8 }

  function Narrow16(h: seq<bv16>): (b: seq<bv8>)
    ensures |b| == |h|
  {
    seq(|h|, i requires 0 <= i < |h| => LowHalf(h[i]))
  }

  function And(b: bv8, mask: bv8): bv8 { b & mask }

  function Mask(bytes: seq<bv8>, mask: bv8): (r: seq<bv8>)
    ensures |r| == |bytes|
  {
    seq(|bytes|, i requires 0 <= i < |bytes| => And(bytes[i], mask))
  }

  lemma NarrowTwice(w: bv32)
    ensures LowHalf(Half0(w)) == Byte0(w)
  {
  }

  /** Words `4 * quarter` to `4 * quarter + 3` of one block, narrowed. */
  function Row(x: State, block: nat, quarter: nat): (h: seq<bv16>)
    requires block < 4 && quarter < 4
    ensures |h| == 4
  {
    Narrow32(Transpose(x[4 * quarter], x[4 * quarter + 1], x[4 * quarter + 2], x[4 * quarter + 3])[block])
  }

  /** The low byte of every word of one block, in stream order. */
  function Bytes(x: State, block: nat): (b: seq<bv8>)
    requires block < 4
    ensures |b| == 16
  {
    Narrow16(Row(x, block, 0) + Row(x, block, 1)) + Narrow16(Row(x, block, 2) + Row(x, block, 3))
  }

  lemma RowIs(x: State, block: nat, quarter: nat, k: nat)
    requires block < 4 && quarter < 4 && k < 4
    ensures Row(x, block, quarter)[k] == Half0(At(x[4 * quarter + k], block))
  {
    hide Half0, At, Transpose;
  }

  lemma NarrowIndex(r0: seq<bv16>, r1: seq<bv16>, r2: seq<bv16>, r3: seq<bv16>, quarter: nat, k: nat)
    requires |r0| == 4 && |r1| == 4 && |r2| == 4 && |r3| == 4 && quarter < 4 && k < 4
    ensures (Narrow16(r0 + r1) + Narrow16(r2 + r3))[4 * quarter + k] == LowHalf([r0, r1, r2, r3][quarter][k])
  {
    hide LowHalf;
  }

  lemma RowOf(x: State, block: nat, quarter: nat)
    requires block < 4 && quarter < 4
    ensures [Row(x, block, 0), Row(x, block, 1), Row(x, block, 2), Row(x, block, 3)][quarter] == Row(x, block, quarter)
  {
    hide Row;
  }

  lemma BytesAre(x: State, block: nat, quarter: nat, k: nat)
    requires block < 4 && quarter < 4 && k < 4
    ensures Bytes(x, block)[4 * quarter + k] == Byte0(Lane(x, block)[4 * quarter + k])
  {
    var w := At(x[4 * quarter + k], block);
    assert Lane(x, block)[4 * quarter + k] == w;
    NarrowTwice(w);
    RowIs(x, block, quarter, k);
    RowOf(x, block, quarter);
    NarrowIndex(Row(x, block, 0), Row(x, block, 1), Row(x, block, 2), Row(x, block, 3), quarter, k);
    hide Half0, LowHalf, Byte0, Row, At, Narrow16, Lane;
  }

  // Whole passes.

  /** What one keystream word selects from the table. */
  function Chosen(table: seq<bv8>, mask: bv8, w: bv32): bv8
    requires |table| == 16
  {
    var index := And(Byte0(w), mask) as nat;
    if index < 16 then table[index] else 0
  }

  lemma ChosenAt(table: seq<bv8>, mask: bv8, bytes: seq<bv8>, w: bv32, i: nat)
    requires |table| == 16 && |bytes| == 16 && i < 16
    requires bytes[i] == Byte0(w)
    ensures Lookup(table, Mask(bytes, mask))[i] == Chosen(table, mask, w)
  {
    hide And, Byte0;
  }

  /** Every finished group, all lanes keystream blocks. */
  method Finish(key: seq<bv32>, counter: nat, rotate8: seq<bv8>) returns (x: States)
    requires |key| == 8 && rotate8 == ROTATE_8
    ensures forall g: nat, l: nat :: g < GROUPS && l < 4 ==> Lane(x[g], l) == Block(key, (counter + 4 * g + l) % COUNTER)
  {
    var low, high := Counters(counter);
    hide Low, High, Lane, Block, Rounds, Initial, Group, AddBack, ROTATE_8, At;
    var start: States := [Group(key, Load(low, 0), Load(high, 0)), Group(key, Load(low, 1), Load(high, 1))];
    forall g: nat, l: nat | g < GROUPS && l < 4
      ensures Lane(start[g], l) == Initial(key, (counter + 4 * g + l) % COUNTER)
    {
      LoadAt(low, g, l);
      LoadAt(high, g, l);
      GroupLane(key, Load(low, g), Load(high, g), l, (counter + 4 * g + l) % COUNTER);
    }
    var rounds := VectorRounds(start, rotate8);
    x := [AddBack(rounds[0], start[0]), AddBack(rounds[1], start[1])];
    forall g: nat, l: nat | g < GROUPS && l < 4
      ensures Lane(x[g], l) == Block(key, (counter + 4 * g + l) % COUNTER)
    {
      FinishedLane(key, rounds[g], start[g], l, (counter + 4 * g + l) % COUNTER);
    }
  }

  lemma LoadAt(words: seq<bv32>, g: nat, l: nat)
    requires g < GROUPS && |words| == BLOCKS && l < 4
    ensures At(Load(words, g), l) == words[4 * g + l]
  {
  }

  /** Word `i` of the 128 that a pass from block `counter` covers. */
  function PassWord(key: seq<bv32>, counter: nat, i: nat): bv32
    requires |key| == 8
  {
    Block(key, (counter + i / 16) % COUNTER)[i % 16]
  }

  /** The first `n` blocks of a pass are selected. */
  ghost predicate Passed(out: seq<bv8>, key: seq<bv32>, counter: nat, table: seq<bv8>, mask: bv8, n: nat)
    requires |key| == 8 && |table| == 16
  {
    && |out| == 16 * n
    && forall i: nat :: i < 16 * n ==> out[i] == Chosen(table, mask, PassWord(key, counter, i))
  }

  lemma SelectAt(key: seq<bv32>, counter: nat, x: State, table: seq<bv8>, mask: bv8, n: nat, block: nat, i: nat)
    requires |key| == 8 && |table| == 16 && block < 4 && i < 16
    requires Lane(x, block) == Block(key, (counter + n) % COUNTER)
    ensures Lookup(table, Mask(Bytes(x, block), mask))[i] == Chosen(table, mask, PassWord(key, counter, 16 * n + i))
  {
    hide Block, Lane, Bytes, Mask, Lookup, Chosen;
    BytesAre(x, block, i / 4, i % 4);
    assert 4 * (i / 4) + i % 4 == i;
    ChosenAt(table, mask, Bytes(x, block), PassWord(key, counter, 16 * n + i), i);
  }

  lemma PassedStep(out: seq<bv8>, key: seq<bv32>, counter: nat, x: State, table: seq<bv8>, mask: bv8, n: nat, block: nat)
    requires |key| == 8 && |table| == 16 && block < 4
    requires Lane(x, block) == Block(key, (counter + n) % COUNTER)
    requires Passed(out, key, counter, table, mask, n)
    ensures Passed(out + Lookup(table, Mask(Bytes(x, block), mask)), key, counter, table, mask, n + 1)
  {
    hide Chosen, PassWord, Bytes, Mask, Lookup, Lane, Block;
    var more := Lookup(table, Mask(Bytes(x, block), mask));
    forall i: nat | i < 16 * (n + 1)
      ensures (out + more)[i] == Chosen(table, mask, PassWord(key, counter, i))
    {
      if i >= 16 * n {
        SelectAt(key, counter, x, table, mask, n, block, i - 16 * n);
      }
    }
  }

  lemma PassedNone(key: seq<bv32>, counter: nat, table: seq<bv8>, mask: bv8)
    requires |key| == 8 && |table| == 16
    ensures Passed([], key, counter, table, mask, 0)
  {
  }

  /** Select values for blocks `counter` to `counter + 7`. */
  method Select(key: seq<bv32>, counter: nat, rotate8: seq<bv8>, table: seq<bv8>, mask: bv8) returns (out: seq<bv8>)
    requires |key| == 8 && rotate8 == ROTATE_8 && |table| == 16
    ensures Passed(out, key, counter, table, mask, BLOCKS)
  {
    hide Passed, Chosen, PassWord, Bytes, Mask, Lookup, Lane, Block, ROTATE_8;
    var x := Finish(key, counter, rotate8);
    out := [];
    PassedNone(key, counter, table, mask);
    for g := 0 to GROUPS
      invariant Passed(out, key, counter, table, mask, 4 * g)
    {
      for block := 0 to 4
        invariant Passed(out, key, counter, table, mask, 4 * g + block)
      {
        PassedStep(out, key, counter, x[g], table, mask, 4 * g + block, block);
        out := out + Lookup(table, Mask(Bytes(x[g], block), mask));
      }
    }
  }

  // The draw itself.

  const PASS: nat := 128

  /** The sets of 2, 4, 8 or 16 values. */
  predicate Narrow(n: nat) {
    n == 2 || n == 4 || n == 8 || n == 16
  }

  function MaskOf(n: nat): bv8
    requires 0 < n <= 16
  {
    (n - 1) as bv8
  }

  lemma LowBits2(b: bv8)
    ensures And(b, MaskOf(2)) as nat == (b as nat) % 2
  {
  }

  lemma LowBits4(b: bv8)
    ensures And(b, MaskOf(4)) as nat == (b as nat) % 4
  {
  }

  lemma LowBits8(b: bv8)
    ensures And(b, MaskOf(8)) as nat == (b as nat) % 8
  {
  }

  lemma LowBits16(b: bv8)
    ensures And(b, MaskOf(16)) as nat == (b as nat) % 16
  {
  }

  lemma Adds2(b: nat, m: nat)
    ensures (b + 2 * m) % 2 == b % 2
  {
  }

  lemma Adds4(b: nat, m: nat)
    ensures (b + 4 * m) % 4 == b % 4
  {
  }

  lemma Adds8(b: nat, m: nat)
    ensures (b + 8 * m) % 8 == b % 8
  {
  }

  lemma Adds16(b: nat, m: nat)
    ensures (b + 16 * m) % 16 == b % 16
  {
  }

  lemma LowByte(b0: nat, b1: nat, b2: nat, b3: nat, n: nat)
    requires Narrow(n)
    ensures (b0 + 0x100 * b1 + 0x1_0000 * b2 + 0x100_0000 * b3) % n == b0 % n
  {
    var high := 0x10 * b1 + 0x1000 * b2 + 0x10_0000 * b3;
    if n == 2 {
      Adds2(b0, 8 * high);
    } else if n == 4 {
      Adds4(b0, 4 * high);
    } else if n == 8 {
      Adds8(b0, 2 * high);
    } else {
      Adds16(b0, high);
    }
  }

  /** Only the low bits of a word decide the value. */
  lemma LowBits(w: bv32, n: nat)
    requires Narrow(n)
    ensures And(Byte0(w), MaskOf(n)) as nat == Value(w) % n
  {
    hide Byte0, Byte1, Byte2, Byte3, And;
    LowByte(Byte0(w) as nat, Byte1(w) as nat, Byte2(w) as nat, Byte3(w) as nat, n);
    LowBits2(Byte0(w));
    LowBits4(Byte0(w));
    LowBits8(Byte0(w));
    LowBits16(Byte0(w));
  }

  /** The lookup table: the allowed values, then zeros. */
  function TableOf(allowed: seq<bv8>): (t: seq<bv8>)
    requires |allowed| <= 16
    ensures |t| == 16
  {
    allowed + seq(16 - |allowed|, _ => 0)
  }

  lemma ChosenIsPick(allowed: seq<bv8>, w: bv32)
    requires Narrow(|allowed|)
    ensures Chosen(TableOf(allowed), MaskOf(|allowed|), w) == Pick(allowed, w)
  {
    LowBits(w, |allowed|);
    hide And, Byte0, MaskOf, Value;
  }

  lemma Wraps(c: nat, k: nat)
    ensures (c % COUNTER + k) % COUNTER == (c + k) % COUNTER
  {
  }

  /** A pass reads the stream, wherever the 64-bit counter stands. */
  lemma PassIsStream(key: seq<bv32>, c: nat, i: nat)
    requires |key| == 8
    ensures PassWord(key, c % COUNTER, i) == Stream(key, 16 * c + i)
  {
    hide Block;
    Wraps(c, i / 16);
    SixteenUp(c, i);
  }

  lemma SixteenUp(c: nat, i: nat)
    ensures (16 * c + i) / 16 == c + i / 16 && (16 * c + i) % 16 == i % 16
  {
  }

  /** The selected bytes are the picks of the stream from word `16 * c`. */
  lemma PassedIsPicks(out: seq<bv8>, key: seq<bv32>, c: nat, allowed: seq<bv8>)
    requires |key| == 8 && Narrow(|allowed|)
    requires Passed(out, key, c % COUNTER, TableOf(allowed), MaskOf(|allowed|), BLOCKS)
    ensures |out| == PASS && forall i: nat :: i < PASS ==> out[i] == Pick(allowed, Stream(key, 16 * c + i))
  {
    hide Chosen, PassWord, Stream, Pick, TableOf, MaskOf;
    forall i: nat | i < PASS
      ensures out[i] == Pick(allowed, Stream(key, 16 * c + i))
    {
      ChosenIsPick(allowed, PassWord(key, c % COUNTER, i));
      PassIsStream(key, c, i);
    }
  }

  /** `s[..till]` holds what the words from `base` on select. */
  ghost predicate Drawn(s: seq<bv8>, till: nat, base: nat, key: seq<bv32>, allowed: seq<bv8>)
    requires |key| == 8 && allowed != []
  {
    till <= |s| && forall i: nat :: i < till ==> s[i] == Pick(allowed, Stream(key, base + i))
  }

  lemma DrawnExtend(s: seq<bv8>, t: seq<bv8>, done: nat, more: seq<bv8>, base: nat, c: nat, skip: nat,
                    key: seq<bv32>, allowed: seq<bv8>)
    requires |key| == 8 && allowed != [] && Drawn(s, done, base, key, allowed)
    requires skip + |more| <= PASS && base + done == 16 * c + skip
    requires forall i: nat :: i < |more| ==> more[i] == Pick(allowed, Stream(key, 16 * c + (skip + i)))
    requires |t| == |s| && done + |more| <= |s| && t[..done] == s[..done] && t[done..done + |more|] == more
    ensures Drawn(t, done + |more|, base, key, allowed)
  {
    hide Pick, Stream;
    forall i: nat | i < done + |more|
      ensures t[i] == Pick(allowed, Stream(key, base + i))
    {
      if i < done {
        assert t[i] == t[..done][i] == s[..done][i];
      } else {
        assert t[i] == t[done..done + |more|][i - done];
        assert base + i == 16 * c + (skip + (i - done));
      }
    }
  }

  /** Copies `values` over `out` from `at`. */
  method Store(out: array<bv8>, at: nat, values: seq<bv8>)
    requires at + |values| <= out.Length
    modifies out
    ensures out[..at] == old(out[..at]) && out[at..at + |values|] == values
  {
    for i := 0 to |values|
      invariant out[..at] == old(out[..at]) && out[at..at + i] == values[..i]
    {
      out[at + i] := values[i];
      assert out[at..at + i + 1] == out[at..at + i] + [values[i]];
      assert values[..i + 1] == values[..i] + [values[i]];
    }
  }

  /** One pass from block `c`, its words from `skip` on stored at `done`. */
  method Pass(key: seq<bv32>, ghost c: nat, counter: nat, skip: nat, table: seq<bv8>, mask: bv8,
              out: array<bv8>, done: nat, count: nat, ghost base: nat, ghost allowed: seq<bv8>)
    requires |key| == 8 && Narrow(|allowed|) && table == TableOf(allowed) && mask == MaskOf(|allowed|)
    requires counter == c % COUNTER && skip + count <= PASS && done + count <= out.Length
    requires base + done == 16 * c + skip && Drawn(out[..], done, base, key, allowed)
    modifies out
    ensures Drawn(out[..], done + count, base, key, allowed)
  {
    var selected := Select(key, counter, ROTATE_8, table, mask);
    PassedIsPicks(selected, key, c, allowed);
    hide Drawn, Pick, Stream, TableOf, MaskOf, Passed;
    var words := selected[skip..skip + count];
    ghost var before := out[..];
    Store(out, done, words);
    DrawnExtend(before, out[..], done, words, base, c, skip, key, allowed);
  }

  /** The fill for 2, 4, 8 or 16 values: a partial first pass, whole passes, a
      partial last pass. */
  method VectorFill(key: seq<bv32>, firstWord: nat, allowed: seq<bv8>, out: array<bv8>)
    requires |key| == 8 && Narrow(|allowed|) && firstWord < COUNTER
    modifies out
    ensures Drawn(out[..], out.Length, firstWord, key, allowed)
  {
    var table, mask := TableOf(allowed), MaskOf(|allowed|);
    var counter := firstWord / 16;
    ghost var c := counter;
    var skip := firstWord % 16;
    var done := 0;
    assert Drawn(out[..], 0, firstWord, key, allowed);
    hide Drawn, TableOf, MaskOf;
    if skip != 0 {
      var count := Min(out.Length, PASS - skip);
      Pass(key, c, counter, skip, table, mask, out, 0, count, firstWord, allowed);
      c := c + BLOCKS;
      counter := (counter + BLOCKS) % COUNTER;
      done := count;
    }
    while out.Length - done >= PASS
      invariant done <= out.Length && Drawn(out[..], done, firstWord, key, allowed)
      invariant counter == c % COUNTER
      invariant done < out.Length ==> firstWord + done == 16 * c
    {
      Pass(key, c, counter, 0, table, mask, out, done, PASS, firstWord, allowed);
      Wraps(c, BLOCKS);
      c := c + BLOCKS;
      counter := (counter + BLOCKS) % COUNTER;
      done := done + PASS;
    }
    if done < out.Length {
      Pass(key, c, counter, 0, table, mask, out, done, out.Length - done, firstWord, allowed);
    }
  }

  datatype DrawError = EmptyAllowedValues

  /** The key: the nonce as eight little-endian words. */
  function Key(nonce: seq<bv8>): (k: seq<bv32>)
    requires |nonce| == 32
    ensures |k| == 8
  {
    seq(8, i requires 0 <= i < 8 => Join8(nonce[4 * i], nonce[4 * i + 1], nonce[4 * i + 2], nonce[4 * i + 3]))
  }

  /** Byte `k` of a word, least significant first. */
  function ByteAt(w: bv32, k: nat): bv8
    requires k < 4
  {
    if k == 0 then Byte0(w) else if k == 1 then Byte1(w) else if k == 2 then Byte2(w) else Byte3(w)
  }

  /** Every byte of the nonce is the key's, in order. */
  lemma KeyBytes(nonce: seq<bv8>, b: nat)
    requires |nonce| == 32 && b < 32
    ensures ByteAt(Key(nonce)[b / 4], b % 4) == nonce[b]
  {
    var i := 4 * (b / 4);
    JoinedBytes(nonce[i], nonce[i + 1], nonce[i + 2], nonce[i + 3]);
    hide Join8, Byte0, Byte1, Byte2, Byte3;
    assert b == i + b % 4;
  }

  lemma JoinedBytes(b0: bv8, b1: bv8, b2: bv8, b3: bv8)
    ensures var w := Join8(b0, b1, b2, b3);
            Byte0(w) == b0 && Byte1(w) == b1 && Byte2(w) == b2 && Byte3(w) == b3
  {
  }

  predicate PowerOfTwo(n: nat) {
    n == 1 || (n > 0 && n % 2 == 0 && PowerOfTwo(n / 2))
  }

  /** The set sizes the vector path takes are 2, 4, 8 and 16. */
  lemma SmallPowers(n: nat)
    requires 1 < n <= 16
    ensures PowerOfTwo(n) <==> Narrow(n)
  {
    if Narrow(n) {
      assert PowerOfTwo(1) && PowerOfTwo(2) && PowerOfTwo(4) && PowerOfTwo(8) && PowerOfTwo(16);
    }
    if n % 2 == 0 && n > 2 && (n / 2) % 2 == 0 && n > 4 && (n / 4) % 2 == 0 && n > 8 {
      assert PowerOfTwo(n / 2) && PowerOfTwo(n / 2 / 2) && PowerOfTwo(n / 2 / 2 / 2);
    }
  }

  /** The draw for other set sizes: one word at a time. */
  method ReferenceFill(key: seq<bv32>, firstWord: nat, allowed: seq<bv8>, out: array<bv8>)
    requires |key| == 8 && allowed != []
    modifies out
    ensures Drawn(out[..], out.Length, firstWord, key, allowed)
  {
    hide Stream, Pick;
    for i := 0 to out.Length
      invariant Drawn(out[..], i, firstWord, key, allowed)
    {
      out[i] := Pick(allowed, Stream(key, firstWord + i));
    }
  }

  /** Every word selects the only value there is. */
  lemma OnlyOne(s: seq<bv8>, base: nat, key: seq<bv32>, allowed: seq<bv8>)
    requires |key| == 8 && |allowed| == 1 && forall i :: 0 <= i < |s| ==> s[i] == allowed[0]
    ensures Drawn(s, |s|, base, key, allowed)
  {
    hide Stream, Value;
  }

  method Fill(nonce: seq<bv8>, firstWord: nat, allowed: seq<bv8>, out: array<bv8>) returns (r: Result<(), DrawError>)
    requires |nonce| == 32 && firstWord < COUNTER
    modifies out
    ensures r.Err? <==> out.Length > 0 && allowed == []
    ensures r.Ok? && out.Length > 0 ==> Drawn(out[..], out.Length, firstWord, Key(nonce), allowed)
  {
    hide Drawn;
    if out.Length == 0 {
      return Ok(());
    }
    if |allowed| == 1 {
      for i := 0 to out.Length
        invariant forall k :: 0 <= k < i ==> out[k] == allowed[0]
      {
        out[i] := allowed[0];
      }
      OnlyOne(out[..], firstWord, Key(nonce), allowed);
      return Ok(());
    }
    if PowerOfTwo(|allowed|) && |allowed| <= 16 {
      SmallPowers(|allowed|);
      VectorFill(Key(nonce), firstWord, allowed, out);
      return Ok(());
    }
    if allowed == [] {
      return Err(EmptyAllowedValues);
    }
    ReferenceFill(Key(nonce), firstWord, allowed, out);
    return Ok(());
  }

  /** Fields from the first `nodes` words, couplings from the words after:
      exactly the word-by-word draw, and an error exactly when a value is
      needed from an empty set. */
  method DrawUnits(nonce: seq<bv8>, nodes: nat, edges: nat, allowedH: seq<bv8>, allowedJ: seq<bv8>)
    returns (r: Result<(seq<bv8>, seq<bv8>), DrawError>)
    requires |nonce| == 32 && nodes < COUNTER
    ensures r.Err? <==> (nodes > 0 && allowedH == []) || (edges > 0 && allowedJ == [])
    ensures r.Ok? ==> |r.value.0| == nodes && |r.value.1| == edges
    ensures r.Ok? ==> forall i: nat :: i < nodes ==> r.value.0[i] == Pick(allowedH, Stream(Key(nonce), i))
    ensures r.Ok? ==> forall i: nat :: i < edges ==> r.value.1[i] == Pick(allowedJ, Stream(Key(nonce), nodes + i))
  {
    hide Stream, Pick, Key;
    if (nodes > 0 && allowedH == []) || (edges > 0 && allowedJ == []) {
      return Err(EmptyAllowedValues);
    }
    var h, j := new bv8[nodes], new bv8[edges];
    var fields := Fill(nonce, 0, allowedH, h);
    if fields.Err? {
      return Err(EmptyAllowedValues);
    }
    var couplings := Fill(nonce, nodes, allowedJ, j);
    if couplings.Err? {
      return Err(EmptyAllowedValues);
    }
    r := Ok((h[..], j[..]));
  }
}
