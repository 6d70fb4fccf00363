/** The deterministic generator: a 64-bit linear congruential state with the
    PCG-XSH-RR 64/32 output permutation (technical report HMC-CS-2014-0905). */
module Pcg32 {
  import opened Arithmetic
  import opened Bits
  import opened Counting
  import opened FullPeriod

  const MULTIPLIER: nat := 6_364_136_223_846_793_005
  const DEFAULT_STREAM: nat := 1_442_695_040_888_963_407
  const M32: nat := 0x1_0000_0000
  const M64: nat := 0x1_0000_0000_0000_0000

  type U32 = x: nat | x < M32
  type U64 = x: nat | x < M64
  type OddU64 = x: nat | x < M64 && x % 2 == 1 witness 1

  /** A generator's value: what a snapshot holds. */
  datatype Generator = Generator(state: U64, increment: OddU64)

  /** The state transition, wrapping at 64 bits. */
  function Stepped(g: Generator): Generator {
    g.(state := Step(MULTIPLIER, g.increment, M64, g.state))
  }

  /** The output permutation of a state's 64 bits: exclusive-or the word with
      itself shifted right by 18, keep bits 27 to 58, and rotate right by the
      number in the top five bits. */
  function Permute(word: seq<bool>): (out: seq<bool>)
    requires |word| == 64
    ensures |out| == 32
  {
    RotateRight(XorShifted(word[27..59], word[59..]), Number(word[59..]))
  }

  function XorShifted(middle: seq<bool>, top: seq<bool>): (out: seq<bool>)
    requires |middle| == 32 && |top| == 5
    ensures |out| == 32
  {
    seq(32, i requires 0 <= i < 32 =>
      middle[i] != (if i < 14 then middle[i + 18] else if i < 19 then top[i - 14] else false))
  }

  function RotateRight(bits: seq<bool>, count: nat): (out: seq<bool>)
    requires count <= |bits|
    ensures |out| == |bits|
  {
    bits[count..] + bits[..count]
  }

  /** The 32-bit output of a state. */
  function Output(state: U64): U32 {
    Pow2Values();
    Number(Permute(Word(64, state)))
  }

  /** The generator after `n` steps. */
  function Skip(g: Generator, n: nat): Generator {
    if n == 0 then g else Stepped(Skip(g, n - 1))
  }

  /** The `n`th output from now. */
  function Draw(g: Generator, n: nat): U32 {
    Output(Skip(g, n).state)
  }

  lemma {:induction false} SkipShift(g: Generator, m: nat, n: nat)
    ensures Skip(g, m + n) == Skip(Skip(g, m), n)
  {
    if n > 0 {
      SkipShift(g, m, n - 1);
    }
  }

  lemma {:induction false} SkipIsOrbit(g: Generator, n: nat)
    ensures Skip(g, n).increment == g.increment
    ensures Skip(g, n).state == Orbit(MULTIPLIER, g.increment, M64, g.state, n)
  {
    if n > 0 {
      SkipIsOrbit(g, n - 1);
    }
  }

  /** Full period, first half: no state recurs within 2^64 steps. */
  lemma StatesDistinct(g: Generator, i: nat, j: nat)
    requires i < j < M64
    ensures Skip(g, i).state != Skip(g, j).state
  {
    Pow2Values();
    SkipIsOrbit(g, i);
    SkipIsOrbit(g, j);
    OrbitInjective(64, MULTIPLIER, g.increment, g.state, i, j);
  }

  /** Full period, second half: every state is reached within 2^64 steps. */
  lemma EveryStateReached(g: Generator, state: U64)
    ensures exists n: nat :: n < M64 && Skip(g, n).state == state
  {
    Pow2Values();
    OrbitReachesAll(64, MULTIPLIER, g.increment, g.state, state);
    var n: nat :| n < M64 && Orbit(MULTIPLIER, g.increment, M64, g.state, n) == state;
    SkipIsOrbit(g, n);
  }

  // ---- What the output is, as a number ----

  lemma MixedBit(state: U64, i: nat)
    requires i < 32
    ensures var word := Word(64, state);
            XorShifted(word[27..59], word[59..])[i] <==> Bit(state, 27 + i) != Bit(state, 45 + i)
  {
    hide Word, Bit;
    Pow2Values();
    var word := Word(64, state);
    WordBit(64, state, 27 + i);
    BitIsBinary(state, 27 + i);
    BitIsBinary(state, 45 + i);
    assert word[27..59][i] == word[27 + i];
    if i < 19 {
      WordBit(64, state, 45 + i);
      if i < 14 {
        assert word[27..59][i + 18] == word[45 + i];
      } else {
        assert word[59..][i - 14] == word[45 + i];
      }
    } else {
      NoHighBits(state, 64, 45 + i);
    }
  }

  lemma BitIsBinary(x: nat, k: nat)
    ensures Bit(x, k) == 0 || Bit(x, k) == 1
  {
  }

  /** Every bit of every output, from the bits of the state: bit `j` is bit
      `27 + k` of the state exclusive-or bit `45 + k`, which is zero above 63,
      where `k` is `j` plus the number in the state's top five bits, modulo 32. */
  lemma OutputBits(state: U64, j: nat)
    requires j < 32
    ensures var k := (j + state / Pow2(59)) % 32;
            Bit(Output(state), j) == 1 <==> Bit(state, 27 + k) != Bit(state, 45 + k)
  {
    hide Bit, Word, XorShifted, Permute, Pow2;
    var word := Word(64, state);
    var r := TopBits(state);
    var k := (j + r) % 32;
    NumberBit(Permute(word), j);
    PermutedBit(word, j);
    MixedBit(state, k);
  }

  /** The number in the state's top five bits. */
  lemma TopBits(state: U64) returns (r: nat)
    ensures r == state / Pow2(59) == Number(Word(64, state)[59..]) && r < 32
  {
    Pow2Values();
    Pow2Sum(59, 5);
    r := state / Pow2(59);
    DroppedWord(64, state, 59);
    DivisionBound(state, Pow2(59), 32);
    NumberOfWord(5, r);
  }

  lemma PermutedBit(word: seq<bool>, j: nat)
    requires |word| == 64 && j < 32
    ensures Number(word[59..]) < 32
    ensures Permute(word)[j] == XorShifted(word[27..59], word[59..])[(j + Number(word[59..])) % 32]
  {
    hide XorShifted, Number;
    assert Pow2(5) == 32;
    var r := Number(word[59..]);
    assert (j + r) % 32 == if j + r < 32 then j + r else j + r - 32;
  }

  lemma DivisionBound(x: nat, m: nat, n: nat)
    requires m > 0 && x < m * n
    ensures x / m < n
  {
    QuotientRemainder(x, m);
    if x / m >= n {
      NonNegativeProduct(m, x / m - n);
      Distribute(m, n, x / m - n);
    }
  }

  // ---- Rejection sampling ----

  /** The smallest accepted output: 2^32 modulo the bound, computed as the
      wrapping negation of the bound modulo the bound. */
  function Threshold(bound: U32): U32
    requires bound > 0
  {
    (M32 - bound) % bound
  }

  predicate Accepted(g: Generator, bound: U32, n: nat)
    requires bound > 0
  {
    Draw(g, n) >= Threshold(bound)
  }

  lemma ThresholdIsRemainder(bound: U32)
    requires bound > 0
    ensures Threshold(bound) == M32 % bound
    ensures Threshold(bound) < bound
    ensures Threshold(bound) <= 0x8000_0000
  {
    QuotientRemainder(M32 - bound, bound);
    var q := (M32 - bound) / bound;
    Distribute(bound, q, 1);
    UniqueDivision(M32, bound, q + 1, Threshold(bound));
    if bound > 0x8000_0000 {
      UniqueDivision(M32 - bound, bound, 0, M32 - bound);
    }
  }

  /** The state whose only bit is bit 58. Its output has bit 31 set, so no
      threshold rejects it. */
  const SURE: U64 := 0x0400_0000_0000_0000

  lemma SureOutput()
    ensures Output(SURE) >= 0x8000_0000
  {
    Pow2Values();
    Pow2Sum(27, 31);
    assert Pow2(58) == SURE;
    SingleBit(64, 58);
    LoneBit58(Word(64, SURE));
  }

  lemma LoneBit58(word: seq<bool>)
    requires |word| == 64
    requires forall i | 0 <= i < 64 :: word[i] == (i == 58)
    ensures Number(Permute(word)) >= Pow2(31)
  {
    NumberOfZeros(word[59..]);
    var mixed := XorShifted(word[27..59], word[59..]);
    assert word[27..59][31] == word[58];
    assert mixed[31];
    assert RotateRight(mixed, 0) == mixed;
    NumberAtLeast(mixed, 31);
  }

  /** How many steps lead from `g` to the state that no threshold rejects:
      the termination measure of the rejection loop. */
  ghost function Distance(g: Generator): (n: nat)
    ensures n < M64 && Skip(g, n).state == SURE
  {
    EveryStateReached(g, SURE);
    var n: nat :| n < M64 && Skip(g, n).state == SURE;
    n
  }

  lemma DistanceShrinks(g: Generator)
    requires g.state != SURE
    ensures Distance(Stepped(g)) == Distance(g) - 1
  {
    var n, m := Distance(g), Distance(Stepped(g));
    assert n > 0;
    assert Skip(g, 1) == Stepped(g);
    SkipShift(g, 1, n - 1);
    SkipShift(g, 1, m);
    if n - 1 < m {
      StatesDistinct(Stepped(g), n - 1, m);
    } else if m < n - 1 {
      StatesDistinct(Stepped(g), m, n - 1);
    }
  }

  /** From every state and for every bound some output is accepted. */
  lemma RejectionEnds(g: Generator, bound: U32)
    requires bound > 0
    ensures exists n: nat :: n < M64 && Accepted(g, bound, n)
  {
    var n := Distance(g);
    SureIsAccepted(Skip(g, n), bound);
    assert Accepted(g, bound, n);
  }

  lemma SureIsAccepted(g: Generator, bound: U32)
    requires bound > 0 && g.state == SURE
    ensures Accepted(g, bound, 0)
  {
    SureOutput();
    ThresholdIsRemainder(bound);
  }

  lemma RejectedDraw(g: Generator, bound: U32)
    requires bound > 0 && Output(g.state) < Threshold(bound)
    ensures Distance(Stepped(g)) == Distance(g) - 1
  {
    if g.state == SURE {
      SureIsAccepted(g, bound);
    }
    DistanceShrinks(g);
  }

  // ---- Uniformity ----

  lemma XorShiftedInjective(a: seq<bool>, b: seq<bool>, top: seq<bool>)
    requires |a| == |b| == 32 && |top| == 5
    requires XorShifted(a, top) == XorShifted(b, top)
    ensures a == b
  {
    forall i | 14 <= i < 32 ensures a[i] == b[i] {
      assert XorShifted(a, top)[i] == XorShifted(b, top)[i];
    }
    forall i | 0 <= i < 14 ensures a[i] == b[i] {
      assert XorShifted(a, top)[i] == XorShifted(b, top)[i];
      assert a[i + 18] == b[i + 18];
    }
  }

  lemma RotateInjective(a: seq<bool>, b: seq<bool>, count: nat)
    requires |a| == |b| && count <= |a|
    requires RotateRight(a, count) == RotateRight(b, count)
    ensures a == b
  {
    var n := |a| - count;
    assert a == RotateRight(a, count)[n..] + RotateRight(a, count)[..n];
    assert b == RotateRight(b, count)[n..] + RotateRight(b, count)[..n];
  }

  /** The output of the word whose top bits are `top` and whose bits 27 to 58
      are the low bits of `middle`; the bits below do not matter. */
  function Mixed(top: seq<bool>, middle: nat): U32
    requires |top| == 5
  {
    Pow2Values();
    Number(RotateRight(XorShifted(Word(32, middle), top), Number(top)))
  }

  lemma MixedInjective(top: seq<bool>, x: nat, y: nat)
    requires |top| == 5 && x < M32 && y < M32
    requires Mixed(top, x) == Mixed(top, y)
    ensures x == y
  {
    Pow2Values();
    var a, b := XorShifted(Word(32, x), top), XorShifted(Word(32, y), top);
    WordOfNumber(RotateRight(a, Number(top)));
    WordOfNumber(RotateRight(b, Number(top)));
    RotateInjective(a, b, Number(top));
    XorShiftedInjective(Word(32, x), Word(32, y), top);
    NumberOfWord(32, x);
    NumberOfWord(32, y);
  }

  lemma MixedOnto(top: seq<bool>, out: U32)
    requires |top| == 5
    ensures exists x: nat :: x < M32 && Mixed(top, x) == out
  {
    Pow2Values();
    var table := seq(M32, x requires 0 <= x < M32 => Mixed(top, x));
    forall i, j | 0 <= i < j < M32 ensures table[i] != table[j] {
      if table[i] == table[j] {
        MixedInjective(top, i, j);
      }
    }
    Onto(table, out);
    var x :| 0 <= x < M32 && table[x] == out;
    assert Mixed(top, x) == out;
  }

  /** The middle bits that give `out` under the top bits `top`. */
  ghost function MiddleFor(top: seq<bool>, out: U32): (x: nat)
    requires |top| == 5
    ensures x < M32 && Mixed(top, x) == out
  {
    MixedOnto(top, out);
    var x: nat :| x < M32 && Mixed(top, x) == out;
    x
  }

  /** The word with top bits `high`, low bits `low` and output `out`. */
  ghost function WordFor(out: U32, high: nat, low: nat): (word: seq<bool>)
    ensures |word| == 64
  {
    Word(27, low) + Word(32, MiddleFor(Word(5, high), out)) + Word(5, high)
  }

  lemma WordForParts(out: U32, high: nat, low: nat)
    ensures WordFor(out, high, low)[..27] == Word(27, low)
    ensures WordFor(out, high, low)[27..59] == Word(32, MiddleFor(Word(5, high), out))
    ensures WordFor(out, high, low)[59..] == Word(5, high)
    ensures Number(Permute(WordFor(out, high, low))) == out
  {
  }

  lemma WordForInjective(out: U32, high: nat, low: nat, high': nat, low': nat)
    requires high < 32 && high' < 32 && low < 0x800_0000 && low' < 0x800_0000
    requires WordFor(out, high, low) == WordFor(out, high', low')
    ensures high == high' && low == low'
  {
    Pow2Values();
    WordForParts(out, high, low);
    WordForParts(out, high', low');
    NumberOfWord(5, high);
    NumberOfWord(5, high');
    NumberOfWord(27, low);
    NumberOfWord(27, low');
  }

  lemma WordForOnto(low: seq<bool>, middle: seq<bool>, top: seq<bool>)
    requires |low| == 27 && |middle| == 32 && |top| == 5
    ensures WordFor(Mixed(top, Number(middle)), Number(top), Number(low)) == low + middle + top
  {
    Pow2Values();
    WordOfNumber(low);
    WordOfNumber(middle);
    WordOfNumber(top);
    var out := Mixed(top, Number(middle));
    MixedInjective(top, Number(middle), MiddleFor(top, out));
  }

  lemma PermuteIsMixed(word: seq<bool>)
    requires |word| == 64
    ensures Number(Permute(word)) == Mixed(word[59..], Number(word[27..59]))
  {
    WordOfNumber(word[27..59]);
  }

  lemma SplitWord(word: seq<bool>) returns (low: seq<bool>, middle: seq<bool>, top: seq<bool>)
    requires |word| == 64
    ensures |low| == 27 && |middle| == 32 && |top| == 5
    ensures word == low + middle + top && word[59..] == top && word[27..59] == middle
  {
    low, middle, top := word[..27], word[27..59], word[59..];
  }

  lemma WordFromParts(word: seq<bool>) returns (high: nat, low: nat)
    requires |word| == 64
    ensures high < Pow2(5) && low < Pow2(27) && Number(Permute(word)) < Pow2(32) == M32
    ensures WordFor(Number(Permute(word)), high, low) == word
  {
    var bottom, middle, top := SplitWord(word);
    Pow2Values();
    PermuteIsMixed(word);
    WordForOnto(bottom, middle, top);
    high, low := Number(top), Number(bottom);
  }

  /** The `j`th of the 2^32 states whose output is `out`. */
  ghost function StateFor(out: U32, j: nat): U64 {
    Pow2Values();
    Number(WordFor(out, j / 0x800_0000, j % 0x800_0000))
  }

  lemma StateForOutput(out: U32, j: nat)
    ensures Output(StateFor(out, j)) == out
  {
    WordOfNumber(WordFor(out, j / 0x800_0000, j % 0x800_0000));
    WordForParts(out, j / 0x800_0000, j % 0x800_0000);
  }

  lemma StateForInjective(out: U32, i: nat, j: nat)
    requires i < M32 && j < M32
    requires StateFor(out, i) == StateFor(out, j)
    ensures i == j
  {
    WordOfNumber(WordFor(out, i / 0x800_0000, i % 0x800_0000));
    WordOfNumber(WordFor(out, j / 0x800_0000, j % 0x800_0000));
    WordForInjective(out, i / 0x800_0000, i % 0x800_0000, j / 0x800_0000, j % 0x800_0000);
  }

  lemma StateForOnto(state: U64) returns (j: nat)
    ensures j < M32 && StateFor(Output(state), j) == state
  {
    Pow2Values();
    NumberOfWord(64, state);
    var high, low := WordFromParts(Word(64, state));
    j := JoinIndex(high, low);
    StateForParts(Output(state), high, low, j);
  }

  lemma StateForParts(out: U32, high: nat, low: nat, j: nat)
    requires j / 0x800_0000 == high && j % 0x800_0000 == low
    ensures StateFor(out, j) == Number(WordFor(out, high, low))
  {
  }

  lemma JoinIndex(high: nat, low: nat) returns (j: nat)
    requires high < 32 && low < 0x800_0000
    ensures j < M32 && j / 0x800_0000 == high && j % 0x800_0000 == low
  {
    j := 0x800_0000 * high + low;
  }

  /** The outputs of all states, in order of state. */
  ghost function Outputs(): (table: seq<nat>)
    ensures |table| == M64
    ensures forall s | 0 <= s < M64 :: table[s] == Output(s)
  {
    seq(M64, s requires 0 <= s < M64 => Output(s) as nat)
  }

  ghost function StateMap(out: U32): (h: map<nat, nat>)
    ensures h.Keys == Below(M32)
    ensures forall j | j in h :: h[j] == StateFor(out, j)
  {
    map j | j in Below(M32) :: StateFor(out, j) as nat
  }

  lemma StateMapInjective(out: U32, i: nat, j: nat)
    requires i in Below(M32) && j in Below(M32) && i != j
    ensures StateMap(out)[i] != StateMap(out)[j]
  {
    if StateFor(out, i) == StateFor(out, j) {
      StateForInjective(out, i, j);
    }
  }

  lemma StateMapCovers(out: U32, s: nat)
    ensures s in Positions(Outputs(), {out as nat}) <==> exists j :: j in Below(M32) && StateMap(out)[j] == s
  {
    if s in Positions(Outputs(), {out as nat}) {
      var j := StateForOnto(s);
      assert j in Below(M32) && StateMap(out)[j] == s;
    }
    if j :| j in Below(M32) && StateMap(out)[j] == s {
      StateForOutput(out, j);
    }
  }

  /** The permutation is balanced: every 32-bit value is the output of
      exactly 2^32 states. */
  lemma OutputsBalanced(out: U32)
    ensures |Positions(Outputs(), {out as nat})| == M32
  {
    var h, states := StateMap(out), Positions(Outputs(), {out as nat});
    forall i, j | i in Below(M32) && j in Below(M32) && i != j ensures h[i] != h[j] {
      StateMapInjective(out, i, j);
    }
    forall s: nat ensures s in states <==> exists j :: j in Below(M32) && h[j] == s {
      StateMapCovers(out, s);
    }
    MatchedSizes(Below(M32), states, h);
    BelowSize(M32);
  }

  /** The next 2^64 states of a generator, and the next 2^64 outputs. */
  ghost function StatesAhead(g: Generator): (table: seq<nat>)
    ensures |table| == M64
    ensures forall i | 0 <= i < M64 :: table[i] == Skip(g, i).state
  {
    seq(M64, i requires 0 <= i < M64 => Skip(g, i).state as nat)
  }

  ghost function DrawsAhead(g: Generator): (table: seq<nat>)
    ensures |table| == M64
    ensures forall i | 0 <= i < M64 :: table[i] == Draw(g, i)
  {
    seq(M64, i requires 0 <= i < M64 => Draw(g, i) as nat)
  }

  /** From any state of any stream, every 32-bit value is drawn exactly 2^32
      times in the next 2^64 draws. */
  lemma DrawsBalanced(g: Generator, out: U32)
    ensures |Positions(DrawsAhead(g), {out as nat})| == M32
  {
    forall i, j | 0 <= i < j < M64 ensures StatesAhead(g)[i] != StatesAhead(g)[j] {
      StatesDistinct(g, i, j);
    }
    Reindex(Outputs(), StatesAhead(g), DrawsAhead(g), {out as nat});
    OutputsBalanced(out);
  }

  /** The accepted outputs that give the residue `r`. */
  ghost function AcceptedOutputs(bound: U32, r: nat): (s: set<nat>)
    requires bound > 0
    ensures forall v: nat :: v in s <==> v < M32 && v >= Threshold(bound) && v % bound == r
  {
    set v | v in Below(M32) && v >= Threshold(bound) && v % bound == r
  }

  /** The `k`th accepted output that gives the residue `r`. */
  function NthAccepted(bound: U32, r: nat, k: nat): nat
    requires bound > 0
  {
    bound * (k + FirstMultiple(bound, r)) + r
  }

  function FirstMultiple(bound: U32, r: nat): nat
    requires bound > 0
  {
    if r < Threshold(bound) then 1 else 0
  }

  lemma NthAcceptedInjective(bound: U32, r: nat, i: nat, j: nat)
    requires r < bound && i != j
    ensures NthAccepted(bound, r, i) != NthAccepted(bound, r, j)
  {
    var first := FirstMultiple(bound, r);
    if i < j {
      GapIsLarge(bound, i + first, j + first);
    } else {
      GapIsLarge(bound, j + first, i + first);
    }
  }

  lemma NthAcceptedIsAccepted(bound: U32, r: nat, k: nat)
    requires r < bound && k < M32 / bound
    ensures NthAccepted(bound, r, k) in AcceptedOutputs(bound, r)
  {
    ThresholdIsRemainder(bound);
    var q, threshold := M32 / bound, Threshold(bound);
    QuotientRemainder(M32, bound);
    UniqueDivision(NthAccepted(bound, r, k), bound, k + FirstMultiple(bound, r), r);
    GapIsLarge(bound, k, q);
    Distribute(bound, k, 1);
    NonNegativeProduct(bound, k);
  }

  lemma SharesAndThreshold(bound: U32)
    requires bound > 0
    ensures M32 == bound * (M32 / bound) + Threshold(bound)
    ensures Threshold(bound) < bound
  {
    ThresholdIsRemainder(bound);
    QuotientRemainder(M32, bound);
  }

  lemma Residue(v: nat, m: nat) returns (q: nat)
    requires m > 0
    ensures v == m * q + v % m
  {
    QuotientRemainder(v, m);
    q := v / m;
  }

  lemma AcceptedIsNth(bound: U32, size: nat, r: nat, v: nat) returns (k: nat)
    requires r < bound && v in AcceptedOutputs(bound, r)
    requires M32 == bound * size + Threshold(bound) && Threshold(bound) < bound
    ensures k < size && v == NthAccepted(bound, r, k)
  {
    var q := Residue(v, bound);
    k := AcceptedQuotient(bound, size, r, q, v);
  }

  lemma AcceptedQuotient(bound: U32, size: nat, r: nat, q: nat, v: nat) returns (k: nat)
    requires r < bound && Threshold(bound) < bound
    requires M32 == bound * size + Threshold(bound)
    requires v == bound * q + r
    requires Threshold(bound) <= v < M32
    ensures k < size && v == NthAccepted(bound, r, k)
  {
    QuotientWindow(bound, size, Threshold(bound), q, r);
    k := q - FirstMultiple(bound, r);
    assert k + FirstMultiple(bound, r) == q;
  }

  lemma QuotientWindow(m: nat, size: nat, t: nat, q: nat, r: nat)
    requires t < m && r < m
    requires t <= m * q + r < m * size + t
    ensures if r < t then 1 <= q <= size else q < size
  {
    if q > size {
      GapIsLarge(m, size, q);
    }
  }

  ghost function AcceptedMap(bound: U32, r: nat): (h: map<nat, nat>)
    requires bound > 0
    ensures h.Keys == Below(M32 / bound)
    ensures forall k | k in h :: h[k] == NthAccepted(bound, r, k)
  {
    map k | k in Below(M32 / bound) :: NthAccepted(bound, r, k)
  }

  /** Every residue below the bound has the same number of accepted outputs. */
  lemma BelowIsUnbiased(bound: U32, r: nat)
    requires r < bound
    ensures |AcceptedOutputs(bound, r)| == M32 / bound
  {
    var size := M32 / bound;
    var h := AcceptedMap(bound, r);
    forall i, j | i in Below(size) && j in Below(size) && i != j ensures h[i] != h[j] {
      NthAcceptedInjective(bound, r, i, j);
    }
    forall v ensures v in AcceptedOutputs(bound, r) <==> exists k :: k in Below(size) && h[k] == v {
      if v in AcceptedOutputs(bound, r) {
        SharesAndThreshold(bound);
        var k := AcceptedIsNth(bound, size, r, v);
        assert k in Below(size) && h[k] == v;
      }
      if k :| k in Below(size) && h[k] == v {
        NthAcceptedIsAccepted(bound, r, k);
      }
    }
    MatchedSizes(Below(size), AcceptedOutputs(bound, r), h);
    BelowSize(size);
  }

  /** Over a full period `below` is exactly uniform: from any state of any
      stream, every residue below the bound is accepted equally often. */
  lemma UniformOverPeriod(g: Generator, bound: U32, r: nat)
    requires r < bound
    ensures |Positions(DrawsAhead(g), AcceptedOutputs(bound, r))| == M32 / bound * M32
  {
    forall v | v in AcceptedOutputs(bound, r) ensures |Positions(DrawsAhead(g), {v})| == M32 {
      DrawsBalanced(g, v);
    }
    EqualShares(DrawsAhead(g), AcceptedOutputs(bound, r), M32);
    BelowIsUnbiased(bound, r);
  }

  // ---- Seeding ----

  /** The increment of a stream: shifted left within 64 bits and made odd. */
  function StreamIncrement(stream: U64): OddU64 {
    2 * stream % M64 + 1
  }

  /** Two selectors name the same stream exactly when they agree in their low
      63 bits: the shift drops the top one. */
  lemma StreamsCollide(a: U64, b: U64)
    ensures StreamIncrement(a) == StreamIncrement(b) <==> a % 0x8000_0000_0000_0000 == b % 0x8000_0000_0000_0000
  {
    StreamHalf(a);
    StreamHalf(b);
  }

  lemma StreamHalf(a: U64)
    ensures StreamIncrement(a) == 2 * (a % 0x8000_0000_0000_0000) + 1
  {
  }

  function Add64(x: U64, y: U64): U64 {
    (x + y) % M64
  }

  /** What seeding leaves behind: step from zero, add the seed, step again. */
  function Seeded(seed: U64, stream: U64): Generator {
    var g := Stepped(Generator(0, StreamIncrement(stream)));
    Stepped(g.(state := Add64(g.state, seed)))
  }

  /** Where seed 42 on stream 54 starts, and where it goes from there. */
  lemma KnownStates()
    ensures Seeded(42, 54) == Generator(0x1857_06b8_2c2e_03f8, 109)
    ensures Stepped(Seeded(42, 54)).state == 0x2b47_fed8_8766_bb05
  {
    assert StreamIncrement(54) == 109;
  }

  /** The step loses no state. */
  lemma StepInjective(g: Generator, h: Generator)
    requires Stepped(g) == Stepped(h)
    ensures g == h
  {
    if g != h {
      EveryStateReached(g, h.state);
      var n: nat :| n < M64 && Skip(g, n).state == h.state;
      SkipIsOrbit(g, n);
      assert Skip(g, n) == h;
      assert Skip(g, 1) == Stepped(g);
      SkipShift(g, 1, n);
      SkipShift(g, n, 1);
      assert Skip(h, 1) == Stepped(h);
      NoReturn(Stepped(g), n);
    }
  }

  lemma NoReturn(g: Generator, n: nat)
    requires Skip(g, n) == g && n < M64
    ensures n == 0
  {
    if n > 0 {
      StatesDistinct(g, 0, n);
    }
  }

  /** On one stream, different seeds start at different states. */
  lemma SeedsSeparate(a: U64, b: U64, stream: U64)
    requires a != b
    ensures Seeded(a, stream) != Seeded(b, stream)
  {
    var g := Stepped(Generator(0, StreamIncrement(stream)));
    var x, y := g.(state := Add64(g.state, a)), g.(state := Add64(g.state, b));
    AddInjective(g.state, a, b);
    if Stepped(x) == Stepped(y) {
      StepInjective(x, y);
    }
  }

  lemma AddInjective(x: U64, a: U64, b: U64)
    requires a != b
    ensures Add64(x, a) != Add64(x, b)
  {
  }

  // ---- When two streams overlap ----

  /** Somewhere two generators are in the same state and go on to the same
      state: from there they draw the same numbers for ever. */
  ghost predicate Overlap(g: Generator, h: Generator) {
    exists n: nat, m: nat :: Meet(g, n, h, m)
  }

  ghost predicate Meet(g: Generator, n: nat, h: Generator, m: nat) {
    Skip(g, n).state == Skip(h, m).state && Skip(g, n + 1).state == Skip(h, m + 1).state
  }

  lemma SameStepSameIncrement(x: nat, i: U64, j: U64)
    requires (x + i) % M64 == (x + j) % M64
    ensures i == j
  {
    var d := i - j;
    assert (x + i) - (x + j) == d;
    assert d % M64 == 0;
  }

  /** Two generators overlap exactly when their increments agree. */
  lemma OverlapIffSameIncrement(g: Generator, h: Generator)
    ensures Overlap(g, h) <==> g.increment == h.increment
  {
    hide Meet, Stepped, Step, Skip;
    if g.increment == h.increment {
      SameIncrementMeets(g, h);
    }
    if Overlap(g, h) {
      var n: nat, m: nat :| Meet(g, n, h, m);
      MeetingSharesIncrement(g, n, h, m);
    }
  }

  lemma SameIncrementMeets(g: Generator, h: Generator)
    requires g.increment == h.increment
    ensures Overlap(g, h)
  {
    hide Step, Stepped;
    EveryStateReached(h, g.state);
    var m: nat :| m < M64 && Skip(h, m).state == g.state;
    SkipIsOrbit(h, m);
    assert Skip(g, 0) == g == Skip(h, m);
    assert Skip(g, 0 + 1) == Stepped(g) && Skip(h, m + 1) == Stepped(Skip(h, m));
    assert Meet(g, 0, h, m);
  }

  lemma OneMoreStepped(g: Generator, n: nat)
    ensures Skip(g, n + 1).state == (MULTIPLIER * Skip(g, n).state + g.increment) % M64
  {
    SkipIsOrbit(g, n);
  }

  lemma MeetingSharesIncrement(g: Generator, n: nat, h: Generator, m: nat)
    requires Meet(g, n, h, m)
    ensures g.increment == h.increment
  {
    hide Skip, Step, Stepped;
    OneMoreStepped(g, n);
    OneMoreStepped(h, m);
    SameStepSameIncrement(MULTIPLIER * Skip(g, n).state, g.increment, h.increment);
  }

  /** Whatever their seeds, the generators of two selectors overlap exactly when
      the selectors agree in their low 63 bits. */
  lemma StreamsOverlapIff(a: U64, b: U64, seedA: U64, seedB: U64)
    ensures Overlap(Seeded(seedA, a), Seeded(seedB, b))
            <==> a % 0x8000_0000_0000_0000 == b % 0x8000_0000_0000_0000
  {
    hide Overlap;
    OverlapIffSameIncrement(Seeded(seedA, a), Seeded(seedB, b));
    StreamsCollide(a, b);
  }

  /** Two distinct selectors whose generators always overlap. */
  lemma DistinctStreamsOverlap(seedA: U64, seedB: U64)
    ensures Overlap(Seeded(seedA, 0), Seeded(seedB, 0x8000_0000_0000_0000))
  {
    hide Overlap;
    StreamsOverlapIff(0, 0x8000_0000_0000_0000, seedA, seedB);
  }

  // ---- Real-valued draws ----

  /** A draw in [0, 1): the top 24 output bits over 2^24. */
  function Unit(out: U32): (u: real)
    ensures 0.0 <= u < 1.0
    ensures u * 16777216.0 == (out / 256) as real
  {
    (out / 256) as real / 256.0 / 65536.0
  }

  /** A draw in [low, high), or `low` without a draw when the range is empty. */
  function Range(g: Generator, low: real, high: real): (r: (real, Generator))
    ensures low <= r.0 && (low < high ==> r.0 < high)
  {
    if high <= low then (low, g)
    else
      (low + Scaled(high - low, Unit(Output(g.state))), Stepped(g))
  }

  function Scaled(width: real, u: real): (x: real)
    requires width > 0.0 && 0.0 <= u < 1.0
    ensures 0.0 <= x < width
  {
    width * u
  }

  // ---- The generator as the program holds it ----

  /** A draw from a range is one of 2^24 evenly spaced values, the one that
      the top 24 bits of a single output number; an empty range takes none. */
  lemma RangeIsEven(g: Generator, low: real, high: real)
    ensures var (x, after) := Range(g, low, high);
            if low < high then
              (x - low) * 16777216.0 == (high - low) * (Output(g.state) / 256) as real && after == Stepped(g)
            else
              x == low && after == g
  {
    hide Output, Stepped;
    if low < high {
      var u := Unit(Output(g.state));
      EvenlySpaced(high - low, u);
    }
  }

  lemma EvenlySpaced(width: real, u: real)
    requires width > 0.0 && 0.0 <= u < 1.0
    ensures Scaled(width, u) * 16777216.0 == width * (u * 16777216.0)
  {
  }

  ghost predicate IsFirstAccepted(g: Generator, bound: U32, n: nat)
    requires bound > 0
  {
    Accepted(g, bound, n) && AllRejected(g, bound, n)
  }

  ghost predicate AllRejected(g: Generator, bound: U32, n: nat)
    requires bound > 0
  {
    forall k: nat | k < n :: !Accepted(g, bound, k)
  }

  /** `r` is the residue of the first accepted output, and `after` is the
      generator just past it. */
  ghost predicate IsFirstResidue(g: Generator, bound: U32, r: nat, after: Generator)
    requires bound > 0
  {
    exists n: nat :: IsFirstAccepted(g, bound, n) && r == Draw(g, n) % bound && after == Skip(g, n + 1)
  }

  lemma LoopAccepts(start: Generator, bound: U32, n: nat)
    requires bound > 0 && AllRejected(start, bound, n)
    requires Output(Skip(start, n).state) >= Threshold(bound)
    ensures IsFirstResidue(start, bound, Output(Skip(start, n).state) % bound, Stepped(Skip(start, n)))
    ensures Output(Skip(start, n).state) % bound < bound
  {
    assert IsFirstAccepted(start, bound, n);
    assert Skip(start, n + 1) == Stepped(Skip(start, n));
  }

  lemma LoopRejects(start: Generator, bound: U32, n: nat)
    requires bound > 0 && AllRejected(start, bound, n)
    requires Output(Skip(start, n).state) < Threshold(bound)
    ensures AllRejected(start, bound, n + 1)
    ensures Skip(start, n + 1) == Stepped(Skip(start, n))
    ensures Distance(Skip(start, n + 1)) == Distance(Skip(start, n)) - 1
  {
    RejectedDraw(Skip(start, n), bound);
  }

  class Rng {
    var state: U64
    const increment: OddU64

    function Value(): Generator
      reads this
    {
      Generator(state, increment)
    }

    constructor WithStream(seed: U64, stream: U64)
      ensures Value() == Seeded(seed, stream)
    {
      state := 0;
      increment := StreamIncrement(stream);
      new;
      Step();
      state := Add64(state, seed);
      Step();
    }

    /** Restores a snapshot; the increment is forced odd again. */
    constructor FromSnapshot(saved: U64, savedIncrement: U64)
      ensures state == saved
      ensures savedIncrement % 2 == 1 ==> increment == savedIncrement
      ensures savedIncrement % 2 == 0 ==> increment == savedIncrement + 1
    {
      state := saved;
      increment := if savedIncrement % 2 == 1 then savedIncrement else savedIncrement + 1;
    }

    method Step()
      modifies this`state
      ensures Value() == Stepped(old(Value()))
    {
      state := (MULTIPLIER * state + increment) % M64;
    }

    method NextU32() returns (out: U32)
      modifies this`state
      ensures out == Output(old(state))
      ensures Value() == Stepped(old(Value()))
    {
      var before := state;
      Step();
      out := Output(before);
    }

    /** The rejection loop. It has no bound of its own; it ends because the
        steps left until the state nobody rejects go down by one each time. */
    method Below(bound: U32) returns (r: U32)
      modifies this`state
      ensures bound == 0 ==> r == 0 && Value() == old(Value())
      ensures bound > 0 ==> r < bound && IsFirstResidue(old(Value()), bound, r, Value())
    {
      if bound == 0 {
        return 0;
      }
      var threshold := Threshold(bound);
      ghost var start := Value();
      ghost var n: nat := 0;
      while true
        invariant Value() == Skip(start, n) && AllRejected(start, bound, n)
        decreases Distance(Skip(start, n))
      {
        var value := NextU32();
        if value >= threshold {
          LoopAccepts(start, bound, n);
          return value % bound;
        }
        LoopRejects(start, bound, n);
        n := n + 1;
      }
    }

    method NextUnit() returns (u: real)
      modifies this`state
      ensures u == Unit(Output(old(state))) && 0.0 <= u < 1.0
      ensures Value() == Stepped(old(Value()))
    {
      var out := NextU32();
      u := (out / 256) as real / 256.0 / 65536.0;
    }

    method RangeReal(low: real, high: real) returns (r: real)
      modifies this`state
      ensures (r, Value()) == Range(old(Value()), low, high)
    {
      if high <= low {
        return low;
      }
      var u := NextUnit();
      r := low + Scaled(high - low, u);
    }
  }
}
