/**
 The XTEA scrambler that turns a lock owner's address into the ID that userspace sees
 (fuse_lock_owner_id in old/fuse/file.c). u32 arithmetic is written out as remainders by 2^32.
 */
module OwnerScramble {

  const WORD := 0x1_0000_0000

  type u32 = x: nat | x < WORD
  type u64 = x: nat | x < WORD * WORD

  const DELTA: u32 := 0x9E37_79B9
  const ROUNDS: nat := 32

  /** fc->scramble_key. */
  datatype Key = Key(k0: u32, k1: u32, k2: u32, k3: u32)

  /** The two halves of a 64-bit value, low half first. */
  datatype Halves = Halves(v0: u32, v1: u32)

  function Add(a: u32, b: nat): u32 { (a + b) % WORD }

  function Sub(a: u32, b: nat): u32 { (a - b) % WORD }

  /** The bitwise exclusive or. */
  function Xor(a: nat, b: nat): nat
    decreases a + b
  {
    if a == 0 && b == 0 then 0 else 2 * Xor(a / 2, b / 2) + (a + b) % 2
  }

  function Shl4(v: u32): u32 { v * 16 % WORD }

  function Shr5(v: u32): u32 { v / 32 }

  /** k[i & 3]. */
  function Word(k: Key, i: nat): u32 {
    match i % 4
    case 0 => k.k0
    case 1 => k.k1
    case 2 => k.k2
    case _ => k.k3
  }

  /** (v << 4 ^ v >> 5) + v. */
  function Mix(v: u32): u32 { Add(v, Xor(Shl4(v), Shr5(v))) }

  /** What a round adds to the low half, and then to the high half. */
  function Low(k: Key, v1: u32, sum: u32): nat { Xor(Mix(v1), Add(sum, Word(k, sum))) }

  function High(k: Key, v0: u32, sum: u32): nat { Xor(Mix(v0), Add(sum, Word(k, sum / 2048))) }

  function SumAfter(n: nat): u32 { if n == 0 then 0 else Add(SumAfter(n - 1), DELTA) }

  /** One round, which begins with the given sum. */
  function Round(k: Key, h: Halves, sum: u32): Halves {
    var v0 := Add(h.v0, Low(k, h.v1, sum));
    Halves(v0, Add(h.v1, High(k, v0, Add(sum, DELTA))))
  }

  /** The round undone: high half first. */
  function Unround(k: Key, h: Halves, sum: u32): Halves {
    var v1 := Sub(h.v1, High(k, h.v0, Add(sum, DELTA)));
    Halves(Sub(h.v0, Low(k, v1, sum)), v1)
  }

  function Rounds(k: Key, h: Halves, n: nat): Halves
    decreases n
  {
    if n == 0 then h else Round(k, Rounds(k, h, n - 1), SumAfter(n - 1))
  }

  function Unrounds(k: Key, h: Halves, n: nat): Halves
    decreases n
  {
    if n == 0 then h else Unrounds(k, Unround(k, h, SumAfter(n - 1)), n - 1)
  }

  lemma SumModulo(a: u32, x: int, q: int)
    requires x == a + q * WORD
    ensures x % WORD == a
  {
  }

  /** Subtraction undoes wrapping addition, and the other way round. */
  lemma AddSub(a: u32, b: nat)
    ensures Sub(Add(a, b), b) == a && Add(Sub(a, b), b) == a
  {
    SumModulo(a, Add(a, b) - b, -((a + b) / WORD));
    SumModulo(a, Sub(a, b) + b, -((a - b) / WORD));
  }

  lemma RoundUndone(k: Key, h: Halves, sum: u32)
    ensures Unround(k, Round(k, h, sum), sum) == h
    ensures Round(k, Unround(k, h, sum), sum) == h
  {
    var next := Add(sum, DELTA);
    var v0 := Add(h.v0, Low(k, h.v1, sum));
    AddSub(h.v1, High(k, v0, next));
    AddSub(h.v0, Low(k, h.v1, sum));
    var v1 := Sub(h.v1, High(k, h.v0, next));
    AddSub(h.v1, High(k, h.v0, next));
    AddSub(h.v0, Low(k, v1, sum));
  }

  /** For every key, any number of rounds has an explicit inverse. */
  lemma {:induction false} RoundsUndone(k: Key, h: Halves, n: nat)
    ensures Unrounds(k, Rounds(k, h, n), n) == h
    decreases n
  {
    if n > 0 {
      RoundUndone(k, Rounds(k, h, n - 1), SumAfter(n - 1));
      RoundsUndone(k, h, n - 1);
    }
  }

  /** The inverse works from the other side as well. */
  lemma {:induction false} UnroundsUndone(k: Key, h: Halves, n: nat)
    ensures Rounds(k, Unrounds(k, h, n), n) == h
    decreases n
  {
    if n > 0 {
      RoundUndone(k, h, SumAfter(n - 1));
      UnroundsUndone(k, Unround(k, h, SumAfter(n - 1)), n - 1);
    }
  }

  // ---------------------------------------------------------------- what the rounds are made of

  /** Bit i of a number. */
  function Bit(a: nat, i: nat): nat { if i == 0 then a % 2 else Bit(a / 2, i - 1) }

  lemma Halve(x: nat, b: nat)
    requires b < 2
    ensures (2 * x + b) / 2 == x && (2 * x + b) % 2 == b
  {
  }

  lemma Parity(a: nat, b: nat)
    ensures (a + b) % 2 == if a % 2 == b % 2 then 0 else 1
  {
    assert a + b == 2 * (a / 2 + b / 2) + (a % 2 + b % 2);
  }

  lemma XorHalves(a: nat, b: nat)
    ensures Xor(a, b) / 2 == Xor(a / 2, b / 2) && Xor(a, b) % 2 == if a % 2 == b % 2 then 0 else 1
  {
    var bit, rest := (a + b) % 2, Xor(a / 2, b / 2);
    assert bit == if a % 2 == b % 2 then 0 else 1 by { Parity(a, b); }
    assert Xor(a, b) == 2 * rest + bit;
    Halve(rest, bit);
  }

  lemma {:induction false} XorBits(a: nat, b: nat, i: nat)
    ensures Bit(Xor(a, b), i) == if Bit(a, i) == Bit(b, i) then 0 else 1
  {
    XorHalves(a, b);
    if i > 0 { XorBits(a / 2, b / 2, i - 1); }
  }

  lemma {:induction false} XorZero(a: nat)
    ensures Xor(0, a) == a && Xor(a, 0) == a
  {
    if a > 0 { XorZero(a / 2); }
  }

  /** The constant is the golden ratio's: the whole part of 2^31 * (sqrt(5) - 1). */
  lemma DeltaIsGolden()
    ensures (DELTA + WORD / 2) * (DELTA + WORD / 2) <= 5 * (WORD / 2) * (WORD / 2) < (DELTA + 1 + WORD / 2) * (DELTA + 1 + WORD / 2)
  {
  }

  lemma ModPlus(x: nat, y: nat)
    ensures (x % WORD + y) % WORD == (x + y) % WORD
  {
    var z := x % WORD + y;
    assert x + y == (x / WORD + z / WORD) * WORD + z % WORD;
    SumModulo(z % WORD, x + y, x / WORD + z / WORD);
  }

  lemma {:induction false} SumOfRounds(n: nat)
    ensures SumAfter(n) == n * DELTA % WORD
  {
    if n > 0 {
      SumOfRounds(n - 1);
      ModPlus((n - 1) * DELTA, DELTA);
    }
  }

  /** Where the halves do not matter: to a low half beside which the high one is zero, a round adds its sum and the word of
      the key that the two lowest bits of the sum name; to a high half beside which the low one comes out as zero, the
      next sum and the word that its bits 11 and 12 name. */
  lemma KeySchedule(k: Key, h: Halves, sum: u32)
    ensures h.v1 == 0 ==> Round(k, h, sum).v0 == Add(h.v0, Add(sum, [k.k0, k.k1, k.k2, k.k3][sum % 4]))
    ensures Round(k, h, sum).v0 == 0 ==>
      var next := Add(sum, DELTA);
      Round(k, h, sum).v1 == Add(h.v1, Add(next, [k.k0, k.k1, k.k2, k.k3][next / 2048 % 4]))
  {
    assert Mix(0) == 0 by { XorZero(0); }
    XorZero(Add(sum, Word(k, sum)));
    XorZero(Add(Add(sum, DELTA), Word(k, Add(sum, DELTA) / 2048)));
  }

  /** Where the key does not matter: with a sum that the key's words take away, each half gets the mix of the other. */
  lemma HalvesMixed(k: Key, h: Halves, sum: u32)
    ensures Add(sum, Word(k, sum)) == 0 ==> Round(k, h, sum).v0 == Add(h.v0, Add(h.v1, Xor(h.v1 * 16 % WORD, h.v1 / 32)))
    ensures Add(Add(sum, DELTA), Word(k, Add(sum, DELTA) / 2048)) == 0 ==>
      var v0 := Round(k, h, sum).v0;
      Round(k, h, sum).v1 == Add(h.v1, Add(v0, Xor(v0 * 16 % WORD, v0 / 32)))
  {
    XorZero(Mix(h.v1));
    XorZero(Mix(Round(k, h, sum).v0));
  }

  // ---------------------------------------------------------------- 64-bit values

  function Split(v: u64): Halves { Halves(v % WORD, v / WORD) }

  function Join(h: Halves): u64 { h.v0 + h.v1 * WORD }

  lemma SplitJoin(v: u64, h: Halves)
    ensures Join(Split(v)) == v
    ensures Split(Join(h)) == h
  {
  }

  function Scramble(k: Key, v: u64): u64 { Join(Rounds(k, Split(v), ROUNDS)) }

  function Unscramble(k: Key, v: u64): u64 { Join(Unrounds(k, Split(v), ROUNDS)) }

  /** The scrambler is a bijection for every key. */
  lemma ScrambleUndone(k: Key, v: u64)
    ensures Unscramble(k, Scramble(k, v)) == v && Scramble(k, Unscramble(k, v)) == v
  {
    SplitJoin(v, Rounds(k, Split(v), ROUNDS));
    SplitJoin(v, Unrounds(k, Split(v), ROUNDS));
    RoundsUndone(k, Split(v), ROUNDS);
    UnroundsUndone(k, Split(v), ROUNDS);
  }

  /** So distinct lock owners get distinct IDs. */
  lemma DistinctOwners(k: Key, a: u64, b: u64)
    requires a != b
    ensures Scramble(k, a) != Scramble(k, b)
  {
    ScrambleUndone(k, a);
    ScrambleUndone(k, b);
  }

  /** fuse_lock_owner_id. */
  method LockOwnerId(k: Key, id: u64) returns (r: u64)
    ensures r == Scramble(k, id)
  {
    var v0: u32, v1: u32 := id % WORD, id / WORD;
    var sum: u32 := 0;
    var i: nat := 0;
    while i < ROUNDS
      invariant i <= ROUNDS && sum == SumAfter(i)
      invariant Halves(v0, v1) == Rounds(k, Split(id), i)
    {
      v0 := Add(v0, Xor(Add(v1, Xor(Shl4(v1), Shr5(v1))), Add(sum, Word(k, sum))));
      sum := Add(sum, DELTA);
      v1 := Add(v1, Xor(Add(v0, Xor(Shl4(v0), Shr5(v0))), Add(sum, Word(k, sum / 2048))));
      i := i + 1;
    }
    r := v0 + v1 * WORD;
  }
}
