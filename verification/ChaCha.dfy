/**
 * The ChaCha8 keystream, word by word: the quarter-round of section 2.1 of
 * RFC 8439, eight rounds, and a 64-bit block counter in words 12 and 13.
 */
module ChaCha {

  const WORD: nat := 0x1_0000_0000
  const COUNTER: nat := 0x1_0000_0000_0000_0000

  function Plus(a: bv32, b: bv32): bv32 { a + b }
  function Xor(a: bv32, b: bv32): bv32 { a ^ b }
  function Rotate16(x: bv32): bv32 { (x << 16) | (x >> 16) }
  function Rotate12(x: bv32): bv32 { (x << 12) | (x >> 20) }
  function Rotate8(x: bv32): bv32 { (x << 8) | (x >> 24) }
  function Rotate7(x: bv32): bv32 { (x << 7) | (x >> 25) }

  datatype Quad<T> = Quad(a: T, b: T, c: T, d: T)

  function Quarter(q: Quad<bv32>): Quad<bv32> {
    var a1 := Plus(q.a, q.b);
    var d1 := Rotate16(Xor(q.d, a1));
    var c1 := Plus(q.c, d1);
    var b1 := Rotate12(Xor(q.b, c1));
    var a2 := Plus(a1, b1);
    var d2 := Rotate8(Xor(d1, a2));
    var c2 := Plus(c1, d2);
    var b2 := Rotate7(Xor(b1, c2));
    Quad(a2, b2, c2, d2)
  }

  /** Four distinct positions of a 16-word state. */
  predicate Positions(at: Quad<nat>) {
    && at.a < 16 && at.b < 16 && at.c < 16 && at.d < 16
    && at.a != at.b && at.a != at.c && at.a != at.d && at.b != at.c && at.b != at.d && at.c != at.d
  }

  function Put<T>(s: seq<T>, at: Quad<nat>, q: Quad<T>): (r: seq<T>)
    requires |s| == 16 && Positions(at)
    ensures |r| == 16
  {
    s[at.a := q.a][at.b := q.b][at.c := q.c][at.d := q.d]
  }

  function Pull<T>(s: seq<T>, at: Quad<nat>): Quad<T>
    requires |s| == 16 && Positions(at)
  {
    Quad(s[at.a], s[at.b], s[at.c], s[at.d])
  }

  function QuarterRound(s: seq<bv32>, at: Quad<nat>): (r: seq<bv32>)
    requires |s| == 16 && Positions(at)
    ensures |r| == 16
  {
    Put(s, at, Quarter(Pull(s, at)))
  }

  /** The columns, then the diagonals. */
  const ORDER: seq<Quad<nat>> :=
    [Quad(0, 4, 8, 12), Quad(1, 5, 9, 13), Quad(2, 6, 10, 14), Quad(3, 7, 11, 15),
     Quad(0, 5, 10, 15), Quad(1, 6, 11, 12), Quad(2, 7, 8, 13), Quad(3, 4, 9, 14)]

  lemma OrderPositions()
    ensures |ORDER| == 8 && forall k :: 0 <= k < 8 ==> Positions(ORDER[k])
  {
  }

  /** The first `k` quarter-rounds of a double round. */
  function Turns(s: seq<bv32>, k: nat): (r: seq<bv32>)
    requires |s| == 16 && k <= 8
    ensures |r| == 16
  {
    if k == 0 then s else (OrderPositions(); QuarterRound(Turns(s, k - 1), ORDER[k - 1]))
  }

  /** `n` double rounds. */
  function Rounds(s: seq<bv32>, n: nat): (r: seq<bv32>)
    requires |s| == 16
    ensures |r| == 16
  {
    if n == 0 then s else Turns(Rounds(s, n - 1), 8)
  }

  function Low(counter: nat): bv32 {
    (counter % WORD) as bv32
  }

  function High(counter: nat): bv32 {
    ((counter / WORD) % WORD) as bv32
  }

  const CONSTANTS: seq<bv32> := [0x6170_7865, 0x3320_646e, 0x7962_2d32, 0x6b20_6574]

  function Initial(key: seq<bv32>, counter: nat): (s: seq<bv32>)
    requires |key| == 8
    ensures |s| == 16
  {
    CONSTANTS + key + [Low(counter), High(counter), 0, 0]
  }

  function Block(key: seq<bv32>, counter: nat): (s: seq<bv32>)
    requires |key| == 8
    ensures |s| == 16
  {
    var start := Initial(key, counter);
    seq(16, i requires 0 <= i < 16 => Plus(Rounds(start, 4)[i], start[i]))
  }

  /** Keystream word `w`. */
  function Stream(key: seq<bv32>, w: nat): bv32
    requires |key| == 8
  {
    Block(key, (w / 16) % COUNTER)[w % 16]
  }

  /** The key fills words 4 to 11, and the block's number words 12 and 13, low half
      first. */
  lemma StartWords(key: seq<bv32>, counter: nat)
    requires |key| == 8
    ensures var s := Initial(key, counter);
            && s[4..12] == key
            && s[12] == (counter % 0x1_0000_0000) as bv32 && s[13] == (counter / 0x1_0000_0000 % 0x1_0000_0000) as bv32
            && s[14] == 0 && s[15] == 0
  {
  }

  /** Keystream words come block by block, sixteen of each; the block's number
      wraps at 64 bits. */
  lemma StreamWord(key: seq<bv32>, block: nat, i: nat)
    requires |key| == 8 && i < 16
    ensures block < 0x1_0000_0000_0000_0000 ==> Stream(key, 16 * block + i) == Block(key, block)[i]
    ensures Stream(key, 16 * block + i) == Stream(key, 16 * (block + 0x1_0000_0000_0000_0000) + i)
  {
    hide Block;
    assert (16 * block + i) / 16 == block && (16 * (block + 0x1_0000_0000_0000_0000) + i) / 16 == block + 0x1_0000_0000_0000_0000;
  }

  // A word's bytes, least significant first.

  function Byte0(w: bv32): bv8 { (w & 0xFF) as bv8 }
  function Byte1(w: bv32): bv8 { ((w >> 8) & 0xFF) as bv8 }
  function Byte2(w: bv32): bv8 { ((w >> 16) & 0xFF) as bv8 }
  function Byte3(w: bv32): bv8 { ((w >> 24) & 0xFF) as bv8 }

  /** The unsigned value of a word, by its bytes. */
  function Value(w: bv32): nat {
    Byte0(w) as nat + 0x100 * (Byte1(w) as nat) + 0x1_0000 * (Byte2(w) as nat) + 0x100_0000 * (Byte3(w) as nat)
  }

  // The parts of a word, as numbers.

  function Low24(w: bv32): nat { (w & 0xFF_FFFF) as nat }
  function Low16(w: bv32): nat { (w & 0xFFFF) as nat }
  function Part3(w: bv32): nat { (w & 0xFF00_0000) as nat }
  function Part2(w: bv32): nat { (w & 0xFF_0000) as nat }
  function Part1(w: bv32): nat { (w & 0xFF00) as nat }
  function Part0(w: bv32): nat { (w & 0xFF) as nat }

  lemma TopSplit(w: bv32)
    ensures w as nat == Low24(w) + Part3(w)
  {
  }

  lemma MiddleSplit(w: bv32)
    ensures Low24(w) == Low16(w) + Part2(w)
  {
  }

  lemma LowSplit(w: bv32)
    ensures Low16(w) == Part0(w) + Part1(w)
  {
  }

  lemma PartValues(w: bv32)
    ensures Part0(w) == Byte0(w) as nat && Part1(w) == 0x100 * (Byte1(w) as nat)
  {
  }

  lemma HighPartValues(w: bv32)
    ensures Part2(w) == 0x1_0000 * (Byte2(w) as nat) && Part3(w) == 0x100_0000 * (Byte3(w) as nat)
  {
  }

  /** Which is the word read as a number. */
  lemma ValueIsWord(w: bv32)
    ensures Value(w) == w as nat
  {
    hide Byte0, Byte1, Byte2, Byte3, Low24, Low16, Part0, Part1, Part2, Part3;
    TopSplit(w);
    MiddleSplit(w);
    LowSplit(w);
    PartValues(w);
    HighPartValues(w);
  }

  /** The value a keystream word selects. */
  function Pick<T>(allowed: seq<T>, w: bv32): T
    requires allowed != []
  {
    allowed[Value(w) % |allowed|]
  }

  /** The source's own words: the value at the word modulo the set's size. */
  lemma PickIsModulo<T>(allowed: seq<T>, w: bv32)
    requires allowed != []
    ensures Pick(allowed, w) == allowed[(w as nat) % |allowed|]
  {
    ValueIsWord(w);
    hide Value;
  }
}
