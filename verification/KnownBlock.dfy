/**
 * A known keystream block: ChaCha8 under the zero key at counter zero, worked out
 * on the state written as four rows. It fixes the constants, the order of the
 * quarter-rounds and the rotations.
 */
module KnownBlock {
  import opened ChaCha

  /** The quarter-round example of section 2.1.1 of RFC 8439. */
  lemma QuarterExample()
    ensures Quarter(Quad(0x1111_1111, 0x0102_0304, 0x9b8d_6f43, 0x0123_4567))
         == Quad(0xea2a_92f4, 0xcb1c_f8ce, 0x4581_472e, 0x5881_c4bb)
  {
  }

  /** The text whose bytes the first four words are. */
  const TEXT: string := "expand 32-byte k"

  lemma ConstantsSpell(i: nat)
    requires i < 4
    ensures |CONSTANTS| == 4 && |TEXT| == 16
    ensures Byte0(CONSTANTS[i]) as int == TEXT[4 * i] as int && Byte1(CONSTANTS[i]) as int == TEXT[4 * i + 1] as int
    ensures Byte2(CONSTANTS[i]) as int == TEXT[4 * i + 2] as int && Byte3(CONSTANTS[i]) as int == TEXT[4 * i + 3] as int
  {
    assert i == 0 || i == 1 || i == 2 || i == 3;
  }

  // A double round on rows.

  datatype Rows = Rows(w: Quad<bv32>, x: Quad<bv32>, y: Quad<bv32>, z: Quad<bv32>)

  function Flat(m: Rows): (s: seq<bv32>)
    ensures |s| == 16
  {
    [m.w.a, m.w.b, m.w.c, m.w.d, m.x.a, m.x.b, m.x.c, m.x.d, m.y.a, m.y.b, m.y.c, m.y.d, m.z.a, m.z.b, m.z.c, m.z.d]
  }

  /** A quarter-round on every column. */
  function Columns(m: Rows): Rows {
    var p := Quarter(Quad(m.w.a, m.x.a, m.y.a, m.z.a));
    var q := Quarter(Quad(m.w.b, m.x.b, m.y.b, m.z.b));
    var r := Quarter(Quad(m.w.c, m.x.c, m.y.c, m.z.c));
    var s := Quarter(Quad(m.w.d, m.x.d, m.y.d, m.z.d));
    Rows(Quad(p.a, q.a, r.a, s.a), Quad(p.b, q.b, r.b, s.b), Quad(p.c, q.c, r.c, s.c), Quad(p.d, q.d, r.d, s.d))
  }

  /** Row `i` turned left by `i` places. */
  function Skewed(m: Rows): Rows {
    Rows(m.w, Quad(m.x.b, m.x.c, m.x.d, m.x.a), Quad(m.y.c, m.y.d, m.y.a, m.y.b), Quad(m.z.d, m.z.a, m.z.b, m.z.c))
  }

  function Straight(m: Rows): Rows {
    Rows(m.w, Quad(m.x.d, m.x.a, m.x.b, m.x.c), Quad(m.y.c, m.y.d, m.y.a, m.y.b), Quad(m.z.b, m.z.c, m.z.d, m.z.a))
  }

  /** The columns, and then the columns of the skewed rows, which are the
      diagonals. */
  function DoubleRound(m: Rows): Rows {
    Straight(Columns(Skewed(Columns(m))))
  }

  /** The first four turns are on the columns, and all eight a double round. */
  lemma ColumnTurns(m: Rows)
    ensures Turns(Flat(m), 4) == Flat(Columns(m))
  {
    hide Quarter, Turns;
    OrderPositions();
    FourTurns(Flat(m), 0);
  }

  lemma FourTurns(s: seq<bv32>, k: nat)
    requires |s| == 16 && k <= 4 && |ORDER| == 8 && forall i :: 0 <= i < 8 ==> Positions(ORDER[i])
    ensures Turns(s, 0) == s
    ensures Turns(s, k + 4)
         == QuarterRound(QuarterRound(QuarterRound(QuarterRound(Turns(s, k), ORDER[k]), ORDER[k + 1]), ORDER[k + 2]),
                         ORDER[k + 3])
  {
    hide QuarterRound, ORDER;
    assert Turns(s, k + 2) == QuarterRound(Turns(s, k + 1), ORDER[k + 1]);
    assert Turns(s, k + 3) == QuarterRound(Turns(s, k + 2), ORDER[k + 2]);
  }

  lemma RowTurns(m: Rows)
    ensures Turns(Flat(m), 8) == Flat(DoubleRound(m))
  {
    hide Quarter, Turns, Columns, Flat;
    OrderPositions();
    ColumnTurns(m);
    FourTurns(Flat(m), 4);
    DiagonalTurns(Columns(m));
  }

  lemma DiagonalTurns(m: Rows)
    ensures |ORDER| == 8 && forall i :: 0 <= i < 8 ==> Positions(ORDER[i])
    ensures QuarterRound(QuarterRound(QuarterRound(QuarterRound(Flat(m), ORDER[4]), ORDER[5]), ORDER[6]), ORDER[7])
         == Flat(Straight(Columns(Skewed(m))))
  {
    hide Quarter;
    OrderPositions();
  }

  // The zero key.

  const STATE_0: Rows :=
    Rows(Quad(0x6170_7865, 0x3320_646e, 0x7962_2d32, 0x6b20_6574),
         Quad(0, 0, 0, 0),
         Quad(0, 0, 0, 0),
         Quad(0, 0, 0, 0))
  const STATE_1: Rows :=
    Rows(Quad(0xe45f_d249, 0x1bb8_20a6, 0xe31a_88ea, 0xe667_a9fe),
         Quad(0x2a3b_f673, 0x86bf_4098, 0x460b_500a, 0xfa16_9886),
         Quad(0x538d_ca0e, 0x0c43_9641, 0x00fa_16bc, 0x8a08_812a),
         Quad(0x6bbf_8b09, 0xc330_13d6, 0xbb9f_9849, 0x87c6_2165))
  const STATE_2: Rows :=
    Rows(Quad(0xb20e_0da6, 0x2121_9e43, 0x79c6_9196, 0x8eb9_d107),
         Quad(0x28bf_a54e, 0x0e8a_389f, 0x7919_a4b4, 0x323f_2639),
         Quad(0x6972_7d19, 0x12e7_96ec, 0xd187_5d88, 0x602b_b1ec),
         Quad(0x601c_8a8d, 0x18cf_3767, 0x60d1_0ebc, 0x17aa_36ca))
  const STATE_3: Rows :=
    Rows(Quad(0x0287_a2a1, 0xd2dc_39ef, 0xf2ec_f51e, 0xc387_6afe),
         Quad(0x9276_b821, 0x37cc_b7a7, 0x1fe6_c459, 0xe5f9_5617),
         Quad(0xd7b1_8523, 0xa095_2ff2, 0x131f_6ff5, 0x6f38_a9cc),
         Quad(0x5c42_7a5f, 0x1d92_8d7b, 0xf4d2_b4da, 0x1a64_0884))
  const STATE_4: Rows :=
    Rows(Quad(0xce7e_87d9, 0xa31f_fb1b, 0x6f56_2e4d, 0x3684_a3ab),
         Quad(0xc30e_842c, 0x3b7f_9ace, 0x88e1_1b18, 0x1e1a_71ef),
         Quad(0x72e1_4c98, 0x416f_21b9, 0x6753_449f, 0x1956_6d45),
         Quad(0xa342_4a31, 0x01b0_86da, 0xb8fd_7b38, 0x42fe_0c0e))

  lemma Round1()
    ensures DoubleRound(STATE_0) == STATE_1
  {
    assert Quarter(Quad(0x6170_7865, 0, 0, 0))
        == Quad(0xb787_7feb, 0x4a7d_5c86, 0x5a83_fd3f, 0xe21e_9bcf);
    assert Quarter(Quad(0x3320_646e, 0, 0, 0))
        == Quad(0x1652_6ab4, 0xfae0_ea21, 0xa0c7_c792, 0x3c59_9472);
    assert Quarter(Quad(0x7962_2d32, 0, 0, 0))
        == Quad(0xa0f8_5005, 0x66e1_1e68, 0xf75b_e0ef, 0xca29_678d);
    assert Quarter(Quad(0x6b20_6574, 0, 0, 0))
        == Quad(0xb1d2_6bcb, 0xe3a8_51a6, 0x0b75_56f4, 0xa600_ebd4);
    assert Quarter(Quad(0xb787_7feb, 0xfae0_ea21, 0xf75b_e0ef, 0xa600_ebd4))
        == Quad(0xe45f_d249, 0x86bf_4098, 0x00fa_16bc, 0x87c6_2165);
    assert Quarter(Quad(0x1652_6ab4, 0x66e1_1e68, 0x0b75_56f4, 0xe21e_9bcf))
        == Quad(0x1bb8_20a6, 0x460b_500a, 0x8a08_812a, 0x6bbf_8b09);
    assert Quarter(Quad(0xa0f8_5005, 0xe3a8_51a6, 0x5a83_fd3f, 0x3c59_9472))
        == Quad(0xe31a_88ea, 0xfa16_9886, 0x538d_ca0e, 0xc330_13d6);
    assert Quarter(Quad(0xb1d2_6bcb, 0x4a7d_5c86, 0xa0c7_c792, 0xca29_678d))
        == Quad(0xe667_a9fe, 0x2a3b_f673, 0x0c43_9641, 0xbb9f_9849);
  }

  lemma Round2()
    ensures DoubleRound(STATE_1) == STATE_2
  {
    assert Quarter(Quad(0xe45f_d249, 0x2a3b_f673, 0x538d_ca0e, 0x6bbf_8b09))
        == Quad(0x9c2f_e493, 0x287e_635e, 0x31c4_e711, 0x9a81_b7df);
    assert Quarter(Quad(0x1bb8_20a6, 0x86bf_4098, 0x0c43_9641, 0xc330_13d6))
        == Quad(0xede8_70d7, 0x2643_df1a, 0x7f3d_8827, 0x0011_909f);
    assert Quarter(Quad(0xe31a_88ea, 0x460b_500a, 0x00fa_16bc, 0xbb9f_9849))
        == Quad(0xf8bd_996f, 0x2a5f_aac7, 0x41c3_7f2e, 0x000b_d5b8);
    assert Quarter(Quad(0xe667_a9fe, 0xfa16_9886, 0x8a08_812a, 0x87c6_2165))
        == Quad(0xd784_8403, 0x65f2_f4d2, 0x53cd_a496, 0x65e3_bbb4);
    assert Quarter(Quad(0x9c2f_e493, 0x2643_df1a, 0x41c3_7f2e, 0x65e3_bbb4))
        == Quad(0xb20e_0da6, 0x0e8a_389f, 0xd187_5d88, 0x17aa_36ca);
    assert Quarter(Quad(0xede8_70d7, 0x2a5f_aac7, 0x53cd_a496, 0x9a81_b7df))
        == Quad(0x2121_9e43, 0x7919_a4b4, 0x602b_b1ec, 0x601c_8a8d);
    assert Quarter(Quad(0xf8bd_996f, 0x65f2_f4d2, 0x31c4_e711, 0x0011_909f))
        == Quad(0x79c6_9196, 0x323f_2639, 0x6972_7d19, 0x18cf_3767);
    assert Quarter(Quad(0xd784_8403, 0x287e_635e, 0x7f3d_8827, 0x000b_d5b8))
        == Quad(0x8eb9_d107, 0x28bf_a54e, 0x12e7_96ec, 0x60d1_0ebc);
  }

  lemma Round3()
    ensures DoubleRound(STATE_2) == STATE_3
  {
    assert Quarter(Quad(0xb20e_0da6, 0x28bf_a54e, 0x6972_7d19, 0x601c_8a8d))
        == Quad(0x13f7_fb89, 0x83ec_4004, 0x302d_9015, 0x8e41_582b);
    assert Quarter(Quad(0x2121_9e43, 0x0e8a_389f, 0x12e7_96ec, 0x18cf_3767))
        == Quad(0x9f18_d690, 0x911e_b07e, 0x924e_c2ce, 0x9de1_f47e);
    assert Quarter(Quad(0x79c6_9196, 0x7919_a4b4, 0xd187_5d88, 0x60d1_0ebc))
        == Quad(0x3791_0d80, 0x56bb_ff1b, 0x721d_a0c8, 0x679f_b10f);
    assert Quarter(Quad(0x8eb9_d107, 0x323f_2639, 0x602b_b1ec, 0x17aa_36ca))
        == Quad(0x5be9_6878, 0xc2e1_700f, 0x8575_b3d8, 0x63bf_2a9a);
    assert Quarter(Quad(0x13f7_fb89, 0x911e_b07e, 0x721d_a0c8, 0x63bf_2a9a))
        == Quad(0x0287_a2a1, 0x37cc_b7a7, 0x131f_6ff5, 0x1a64_0884);
    assert Quarter(Quad(0x9f18_d690, 0x56bb_ff1b, 0x8575_b3d8, 0x8e41_582b))
        == Quad(0xd2dc_39ef, 0x1fe6_c459, 0x6f38_a9cc, 0x5c42_7a5f);
    assert Quarter(Quad(0x3791_0d80, 0xc2e1_700f, 0x302d_9015, 0x9de1_f47e))
        == Quad(0xf2ec_f51e, 0xe5f9_5617, 0xd7b1_8523, 0x1d92_8d7b);
    assert Quarter(Quad(0x5be9_6878, 0x83ec_4004, 0x924e_c2ce, 0x679f_b10f))
        == Quad(0xc387_6afe, 0x9276_b821, 0xa095_2ff2, 0xf4d2_b4da);
  }

  lemma Round4()
    ensures DoubleRound(STATE_3) == STATE_4
  {
    assert Quarter(Quad(0x0287_a2a1, 0x9276_b821, 0xd7b1_8523, 0x5c42_7a5f))
        == Quad(0x345e_4165, 0x4360_2812, 0xbbd9_26f3, 0xc389_d914);
    assert Quarter(Quad(0xd2dc_39ef, 0x37cc_b7a7, 0xa095_2ff2, 0x1d92_8d7b))
        == Quad(0xf9b1_a43a, 0x9efa_8aca, 0x7a35_47b1, 0x5cb3_0085);
    assert Quarter(Quad(0xf2ec_f51e, 0x1fe6_c459, 0x131f_6ff5, 0xf4d2_b4da))
        == Quad(0xcbee_ad69, 0x8126_a76e, 0x6418_bebc, 0x434b_68c6);
    assert Quarter(Quad(0xc387_6afe, 0xe5f9_5617, 0x6f38_a9cc, 0x1a64_0884))
        == Quad(0xda3b_3ee8, 0xf68a_0869, 0xe357_69c3, 0xaa8d_0c13);
    assert Quarter(Quad(0x345e_4165, 0x9efa_8aca, 0x6418_bebc, 0xaa8d_0c13))
        == Quad(0xce7e_87d9, 0x3b7f_9ace, 0x6753_449f, 0x42fe_0c0e);
    assert Quarter(Quad(0xf9b1_a43a, 0x8126_a76e, 0xe357_69c3, 0xc389_d914))
        == Quad(0xa31f_fb1b, 0x88e1_1b18, 0x1956_6d45, 0xa342_4a31);
    assert Quarter(Quad(0xcbee_ad69, 0xf68a_0869, 0xbbd9_26f3, 0x5cb3_0085))
        == Quad(0x6f56_2e4d, 0x1e1a_71ef, 0x72e1_4c98, 0x01b0_86da);
    assert Quarter(Quad(0xda3b_3ee8, 0x4360_2812, 0x7a35_47b1, 0x434b_68c6))
        == Quad(0x3684_a3ab, 0xc30e_842c, 0x416f_21b9, 0xb8fd_7b38);
  }

  const ZERO_KEY: seq<bv32> := [0, 0, 0, 0, 0, 0, 0, 0]

  /** The first sixteen words under the zero key. */
  const ZERO_BLOCK: Rows :=
    Rows(Quad(0x2fef_003e, 0xd640_5f89, 0xe8b8_5b7f, 0xa1a5_091f),
         Quad(0xc30e_842c, 0x3b7f_9ace, 0x88e1_1b18, 0x1e1a_71ef),
         Quad(0x72e1_4c98, 0x416f_21b9, 0x6753_449f, 0x1956_6d45),
         Quad(0xa342_4a31, 0x01b0_86da, 0xb8fd_7b38, 0x42fe_0c0e))

  lemma ZeroKeyBlock()
    ensures |ZERO_KEY| == 8 && Block(ZERO_KEY, 0) == Flat(ZERO_BLOCK)
  {
    hide Turns, DoubleRound, Flat, Added, Initial, STATE_0, STATE_1, STATE_2, STATE_3, STATE_4, ZERO_BLOCK, Plus;
    ZeroStart();
    Round1();
    Round2();
    Round3();
    Round4();
    RowTurns(STATE_0);
    RowTurns(STATE_1);
    RowTurns(STATE_2);
    RowTurns(STATE_3);
    FourRounds(Flat(STATE_0));
    FlatAdded(STATE_4, STATE_0);
    AddedBack();
  }

  lemma FourRounds(s: seq<bv32>)
    requires |s| == 16
    ensures Rounds(s, 4) == Turns(Turns(Turns(Turns(s, 8), 8), 8), 8)
  {
    hide Turns;
    assert Rounds(s, 2) == Turns(Rounds(s, 1), 8);
  }

  lemma ZeroStart()
    ensures |ZERO_KEY| == 8 && Initial(ZERO_KEY, 0) == Flat(STATE_0)
  {
  }

  function Added(m: Rows, n: Rows): Rows {
    Rows(AddedRow(m.w, n.w), AddedRow(m.x, n.x), AddedRow(m.y, n.y), AddedRow(m.z, n.z))
  }

  function AddedRow(m: Quad<bv32>, n: Quad<bv32>): Quad<bv32> {
    Quad(Plus(m.a, n.a), Plus(m.b, n.b), Plus(m.c, n.c), Plus(m.d, n.d))
  }

  lemma FlatAdded(m: Rows, n: Rows)
    ensures seq(16, i requires 0 <= i < 16 => Plus(Flat(m)[i], Flat(n)[i])) == Flat(Added(m, n))
  {
    hide Plus, Flat, Added;
    var sums := seq(16, i requires 0 <= i < 16 => Plus(Flat(m)[i], Flat(n)[i]));
    forall i: nat | i < 16
      ensures sums[i] == Flat(Added(m, n))[i]
    {
      AddedAt(m, n, i);
    }
  }

  lemma AddedAt(m: Rows, n: Rows, i: nat)
    requires i < 16
    ensures Plus(Flat(m)[i], Flat(n)[i]) == Flat(Added(m, n))[i]
  {
    hide Plus, Flat;
    FlatAt(m, i);
    FlatAt(n, i);
    FlatAt(Added(m, n), i);
  }

  function RowAt(q: Quad<bv32>, i: nat): bv32 {
    if i == 0 then q.a else if i == 1 then q.b else if i == 2 then q.c else q.d
  }

  lemma FlatAt(m: Rows, i: nat)
    requires i < 16
    ensures Flat(m)[i] == RowAt(if i < 4 then m.w else if i < 8 then m.x else if i < 12 then m.y else m.z, i % 4)
  {
    assert i == 0 || i == 1 || i == 2 || i == 3 || i == 4 || i == 5 || i == 6 || i == 7
        || i == 8 || i == 9 || i == 10 || i == 11 || i == 12 || i == 13 || i == 14 || i == 15;
  }

  lemma AddedBack()
    ensures Added(STATE_4, STATE_0) == ZERO_BLOCK
  {
  }
}
