/**
 * The seeded generator behind the demo transactions
 * (apps/api/src/demo/demo-data.ts): the committed sample has to be the head of
 * the full volume, row for row.
 *
 * Floating point is exact here: a draw is a 32-bit word over 2^32, and `** 0.7`
 * is any map of [0, 1) into itself.
 */
module Transactions {
  import opened Wrappers

  const WORDS: int := 0x1_0000_0000

  type Word = w: int | 0 <= w < WORDS

  // ---------------------------------------------------------------------------
  // The generator: xmur3 seeds mulberry32
  // ---------------------------------------------------------------------------

  const INCREMENT: Word := 0x6d2b79f5

  function ToWord(b: bv32): Word {
    b as int
  }

  function CharCode(c: char): bv32 {
    ((c as int) % WORDS) as bv32
  }

  function AbsorbOne(h: bv32, code: bv32): bv32 {
    var m := (h ^ code) * 3432918353;
    (m << 13) | (m >> 19)
  }

  function Absorb(h: bv32, str: string): bv32
    decreases |str|
  {
    if str == [] then h else Absorb(AbsorbOne(h, CharCode(str[0])), str[1..])
  }

  /** xmur3's finish. */
  function Finish(h: bv32): bv32 {
    var h1 := (h ^ (h >> 16)) * 2246822507;
    var h2 := (h1 ^ (h1 >> 13)) * 3266489909;
    h2 ^ (h2 >> 16)
  }

  /** The first word of `xmur3(str)`. */
  function Xmur3(str: string): Word {
    ToWord(Finish(Absorb(1779033703 ^ ((|str| % WORDS) as bv32), str)))
  }

  function MulberryBits(b: bv32): bv32 {
    var t := (b ^ (b >> 15)) * (1 | b);
    var t1 := (t + (t ^ (t >> 7)) * (61 | t)) ^ t;
    t1 ^ (t1 >> 14)
  }

  /** What mulberry32 makes of its counter. */
  function Mulberry(a: Word): Word {
    ToWord(MulberryBits(a as bv32))
  }

  /** The mixers at points where their values are known. */
  lemma KnownMixes()
    ensures MulberryBits(0) == 0 && MulberryBits(1) == 63 && MulberryBits(0x12345678) == 2642302375
    ensures MulberryBits(0x6d2b79f5) == 1144304738 && MulberryBits(0xffffffff) == 142530043
    ensures Finish(1779033703) == 167010153 && Finish(AbsorbOne(1779033703 ^ 1, 97)) == 519299066
    ensures Finish(AbsorbOne(AbsorbOne(1779033703 ^ 2, 97), 98)) == 3242940723
  {
  }

  /** A string is absorbed character by character, from a start that depends on its
      length; so the seeds of the empty string and of "a" are known. */
  lemma KnownSeeds()
    ensures Xmur3("") == 167010153
    ensures Xmur3("a") == 519299066
  {
    KnownMixes();
    assert "a"[1..] == "";
    assert CharCode('a') == 97;
    assert Absorb(1779033703 ^ 1, "a") == AbsorbOne(1779033703 ^ 1, 97);
  }

  function Advance(a: Word, draws: nat): Word {
    (a + draws * INCREMENT) % WORDS
  }

  /** Draw number `k`, counted from 1, of a generator whose counter is `a`. */
  function Draw(mix: Word -> Word, a: Word, k: nat): (u: real)
    ensures 0.0 <= u < 1.0
  {
    var w: int := mix(Advance(a, k));
    w as real / WORDS as real
  }

  /** A draw spread over [0, n). */
  function Scale(u: real, n: real): (x: real)
    ensures 0.0 <= u < 1.0 && n > 0.0 ==> 0.0 <= x < n
  {
    assert n - u * n == (1.0 - u) * n;
    u * n
  }

  /** An integer in [min, max] for a draw `u`. */
  function IntOf(u: real, min: int, max: int): int {
    min + Scale(u, (max - min + 1) as real).Floor
  }

  /** `Math.round`. */
  function Round(x: real): int {
    (x + 0.5).Floor
  }

  /** A value in [min, max) for a draw `u`, to two decimals. */
  function RangeOf(u: real, min: real, max: real): real {
    Round((min + Scale(u, max - min)) * 100.0) as real / 100.0
  }

  function At(items: seq<string>, i: int): Option<string> {
    if 0 <= i < |items| then Some(items[i]) else None
  }

  // ---------------------------------------------------------------------------
  // The rows
  // ---------------------------------------------------------------------------

  const DAY_MS: int := 86400000
  const ANCHOR_MS: int := 1788134400000
  const HISTORY_START_MS: int := ANCHOR_MS - 30 * 30 * DAY_MS
  const SPAN: int := ANCHOR_MS - HISTORY_START_MS

  const CHANNELS: seq<string> := ["online", "field-sales", "distributor", "retail"]

  datatype Refs = Refs(customerIds: seq<string>, productIds: seq<string>, siteIds: seq<string>)

  datatype Transaction = Transaction(
    transactionId: string,
    customerId: Option<string>,
    productId: Option<string>,
    siteId: Option<string>,
    occurredMs: int,
    quantity: int,
    amount: real,
    channel: Option<string>)

  const DRAWS_PER_ROW: nat := 7

  function Digit(d: nat): char
    requires d < 10
  {
    "0123456789"[d]
  }

  function Decimal(n: nat): string {
    if n < 10 then [Digit(n)] else Decimal(n / 10) + [Digit(n % 10)]
  }

  /** `String(n).padStart(width, "0")`. */
  function Pad(n: nat, width: nat): string {
    Zeros(if |Decimal(n)| < width then width - |Decimal(n)| else 0) + Decimal(n)
  }

  function Zeros(k: nat): string {
    if k == 0 then "" else "0" + Zeros(k - 1)
  }

  function AmountOf(quantity: int, price: real): real {
    Round(quantity as real * price * 100.0) as real / 100.0
  }

  /** The object literal of one row, from the values drawn for it. */
  function Assemble(i: nat, refs: Refs, t: real, quantity: int, price: real,
                    customer: int, product: int, site: int, channel: int): Transaction {
    Transaction(
      "TXN-" + Pad(i, 9),
      At(refs.customerIds, customer),
      At(refs.productIds, product),
      At(refs.siteIds, site),
      HISTORY_START_MS + Scale(t, SPAN as real).Floor,
      quantity,
      AmountOf(quantity, price),
      At(CHANNELS, channel))
  }

  /** Row `i`, made from the seven draws of a generator whose counter is `a`. */
  function Row(mix: Word -> Word, skew: real -> real, a: Word, i: nat, refs: Refs): Transaction {
    Assemble(i, refs, skew(Draw(mix, a, 1)), IntOf(Draw(mix, a, 2), 1, 40), RangeOf(Draw(mix, a, 3), 8.0, 400.0),
             IntOf(Draw(mix, a, 4), 0, |refs.customerIds| - 1),
             IntOf(Draw(mix, a, 5), 0, |refs.productIds| - 1),
             IntOf(Draw(mix, a, 6), 0, |refs.siteIds| - 1),
             IntOf(Draw(mix, a, 7), 0, |CHANNELS| - 1))
  }

  function Maker(mix: Word -> Word, skew: real -> real, refs: Refs): (Word, nat) -> Transaction {
    (w: Word, i: nat) => Row(mix, skew, w, i, refs)
  }

  /** Rows number `i` to `count`, each made at the counter it is reached with and
      leaving the counter seven draws on. */
  function Rows(make: (Word, nat) -> Transaction, a: Word, i: nat, count: nat): seq<Transaction>
    decreases count + 1 - i
  {
    if i > count then [] else [make(a, i)] + Rows(make, Advance(a, DRAWS_PER_ROW), i + 1, count)
  }

  function Synthesize(mix: Word -> Word, skew: real -> real, a: Word, count: nat, refs: Refs): seq<Transaction> {
    Rows(Maker(mix, skew, refs), a, 1, count)
  }

  // ---------------------------------------------------------------------------
  // Determinism
  // ---------------------------------------------------------------------------

  lemma AdvanceTwice(a: Word, j: nat, k: nat)
    ensures Advance(Advance(a, j), k) == Advance(a, j + k)
  {
    ModAbsorbs(a + j * INCREMENT, k * INCREMENT);
    assert (j + k) * INCREMENT == j * INCREMENT + k * INCREMENT;
  }

  lemma ModAbsorbs(x: int, y: int)
    ensures (x % WORDS + y) % WORDS == (x + y) % WORDS
  {
    var q := x / WORDS;
    assert x == q * WORDS + x % WORDS;
    var z := x % WORDS + y;
    assert x + y == z + q * WORDS;
    assert (x + y) - (x + y) % WORDS == (x + y) / WORDS * WORDS;
  }

  /** The row at index `j` depends on the seed, the refs and `j` alone: it is made
      `7 j` draws on, whatever the row count. */
  lemma {:induction false} RowsAreRandomAccess(make: (Word, nat) -> Transaction, a: Word, i: nat, count: nat, j: nat)
    requires i + j <= count
    ensures |Rows(make, a, i, count)| == count + 1 - i
    ensures Rows(make, a, i, count)[j] == make(Advance(a, DRAWS_PER_ROW * j), i + j)
    decreases count - i
  {
    if i < count {
      var next := Advance(a, DRAWS_PER_ROW);
      if j == 0 {
        RowsAreRandomAccess(make, next, i + 1, count, 0);
        AdvanceNone(a);
      } else {
        RowsAreRandomAccess(make, next, i + 1, count, j - 1);
        AdvanceRow(a, j);
      }
    } else {
      AdvanceNone(a);
    }
  }

  lemma AdvanceNone(a: Word)
    ensures Advance(a, DRAWS_PER_ROW * 0) == a
  {
  }

  lemma AdvanceRow(a: Word, j: nat)
    requires j > 0
    ensures Advance(Advance(a, DRAWS_PER_ROW), DRAWS_PER_ROW * (j - 1)) == Advance(a, DRAWS_PER_ROW * j)
  {
    AdvanceTwice(a, DRAWS_PER_ROW, DRAWS_PER_ROW * (j - 1));
  }

  /** The sample is the head of the volume. */
  lemma SampleIsAPrefix(mix: Word -> Word, skew: real -> real, a: Word, n: nat, m: nat, refs: Refs)
    requires n <= m
    ensures Synthesize(mix, skew, a, n, refs) <= Synthesize(mix, skew, a, m, refs)
  {
    RowsPrefix(Maker(mix, skew, refs), a, n, m);
  }

  lemma RowsPrefix(make: (Word, nat) -> Transaction, a: Word, n: nat, m: nat)
    requires n <= m
    ensures Rows(make, a, 1, n) <= Rows(make, a, 1, m)
  {
    var short, long := Rows(make, a, 1, n), Rows(make, a, 1, m);
    if n > 0 { RowsAreRandomAccess(make, a, 1, n, 0); }
    if m > 0 { RowsAreRandomAccess(make, a, 1, m, 0); }
    forall j | 0 <= j < n ensures short[j] == long[j] {
      RowsAreRandomAccess(make, a, 1, n, j);
      RowsAreRandomAccess(make, a, 1, m, j);
    }
  }

  // ---------------------------------------------------------------------------
  // Integrity of every row
  // ---------------------------------------------------------------------------

  lemma IntStaysInBounds(u: real, min: int, max: int)
    requires 0.0 <= u < 1.0 && min <= max
    ensures min <= IntOf(u, min, max) <= max
  {
    var x := Scale(u, (max - min + 1) as real);
    assert x.Floor as real <= x < (max - min + 1) as real;
  }

  /** Each integer of the range has its own equal share of the draws. */
  lemma IntIsUniform(u: real, min: int, max: int, k: int)
    requires 0.0 <= u < 1.0 && min <= k <= max
    ensures var size := (max - min + 1) as real;
      IntOf(u, min, max) == k <==> (k - min) as real <= u * size < (k - min + 1) as real
  {
    var x := u * (max - min + 1) as real;
    assert x.Floor as real <= x < x.Floor as real + 1.0;
  }

  predicate InCents(amount: real, cents: int) {
    amount == cents as real / 100.0
  }

  /** A ranged draw is spread evenly, to half of its last decimal. */
  lemma RangeIsUniform(u: real, min: real, max: real)
    ensures -0.005 <= RangeOf(u, min, max) - (min + u * (max - min)) <= 0.005
    ensures exists cents: int :: InCents(RangeOf(u, min, max), cents)
  {
    var x := (min + u * (max - min)) * 100.0;
    var cents := Round(x);
    assert cents as real <= x + 0.5 < cents as real + 1.0;
    assert InCents(RangeOf(u, min, max), cents);
  }

  lemma RangeStaysInBounds(u: real, min: int, max: int)
    requires 0.0 <= u < 1.0 && min < max
    ensures min as real <= RangeOf(u, min as real, max as real) <= max as real
  {
    var x := Scale(u, max as real - min as real);
    RoundStaysInBounds((min as real + x) * 100.0, 100 * min, 100 * max);
  }

  lemma RoundStaysInBounds(x: real, min: int, max: int)
    requires min as real <= x <= max as real
    ensures min <= Round(x) <= max
  {
    assert Round(x) as real <= x + 0.5 < Round(x) as real + 1.0;
  }

  /** `skew` maps [0, 1) into itself, as `** 0.7` does. */
  ghost predicate KeepsUnit(skew: real -> real) {
    forall u :: 0.0 <= u < 1.0 ==> 0.0 <= skew(u) < 1.0
  }

  predicate NonEmpty(refs: Refs) {
    |refs.customerIds| > 0 && |refs.productIds| > 0 && |refs.siteIds| > 0
  }

  predicate Sound(row: Transaction, refs: Refs) {
    && row.customerId.Some? && row.customerId.value in refs.customerIds
    && row.productId.Some? && row.productId.value in refs.productIds
    && row.siteId.Some? && row.siteId.value in refs.siteIds
    && row.channel.Some? && row.channel.value in CHANNELS
    && HISTORY_START_MS <= row.occurredMs < ANCHOR_MS
    && 1 <= row.quantity <= 40
    && 8.0 <= row.amount <= 16000.0
  }

  /** An empty list has no key to draw: the index 0 misses it. */
  lemma EmptyListHasNoKey(u: real)
    requires 0.0 <= u < 1.0
    ensures At([], IntOf(u, 0, -1)).None?
  {
  }

  lemma AmountStaysInBounds(quantity: int, price: real)
    requires 1 <= quantity <= 40 && 8.0 <= price <= 400.0
    ensures 8.0 <= Round(quantity as real * price * 100.0) as real / 100.0 <= 16000.0
  {
    var total := quantity as real * price * 100.0;
    assert 1.0 * price <= quantity as real * price <= 40.0 * price;
    RoundStaysInBounds(total, 800, 1600000);
  }

  lemma AssembledIsSound(i: nat, refs: Refs, t: real, quantity: int, price: real,
                         customer: int, product: int, site: int, channel: int)
    requires 0.0 <= t < 1.0 && 1 <= quantity <= 40 && 8.0 <= price <= 400.0
    requires 0 <= customer < |refs.customerIds| && 0 <= product < |refs.productIds|
    requires 0 <= site < |refs.siteIds| && 0 <= channel < |CHANNELS|
    ensures Sound(Assemble(i, refs, t, quantity, price, customer, product, site, channel), refs)
  {
    AmountStaysInBounds(quantity, price);
    var offset := Scale(t, SPAN as real);
    assert offset.Floor as real <= offset < offset.Floor as real + 1.0;
  }

  lemma RowIsSound(mix: Word -> Word, skew: real -> real, a: Word, i: nat, refs: Refs)
    requires NonEmpty(refs) && KeepsUnit(skew)
    ensures Sound(Row(mix, skew, a, i, refs), refs)
  {
    IntStaysInBounds(Draw(mix, a, 2), 1, 40);
    RangeStaysInBounds(Draw(mix, a, 3), 8, 400);
    IntStaysInBounds(Draw(mix, a, 4), 0, |refs.customerIds| - 1);
    IntStaysInBounds(Draw(mix, a, 5), 0, |refs.productIds| - 1);
    IntStaysInBounds(Draw(mix, a, 6), 0, |refs.siteIds| - 1);
    IntStaysInBounds(Draw(mix, a, 7), 0, |CHANNELS| - 1);
    AssembledIsSound(i, refs, skew(Draw(mix, a, 1)),
                     IntOf(Draw(mix, a, 2), 1, 40), RangeOf(Draw(mix, a, 3), 8.0, 400.0),
                     IntOf(Draw(mix, a, 4), 0, |refs.customerIds| - 1),
                     IntOf(Draw(mix, a, 5), 0, |refs.productIds| - 1),
                     IntOf(Draw(mix, a, 6), 0, |refs.siteIds| - 1),
                     IntOf(Draw(mix, a, 7), 0, |CHANNELS| - 1));
  }

  /** Item `items[i]`, where a draw `u` has index `i`. */
  predicate Picks(key: Option<string>, items: seq<string>, u: real) {
    exists i :: 0 <= i < |items| && i as real <= u * |items| as real < (i + 1) as real && key == Some(items[i])
  }

  lemma PickedAt(items: seq<string>, u: real)
    requires items != [] && 0.0 <= u < 1.0
    ensures Picks(At(items, IntOf(u, 0, |items| - 1)), items, u)
  {
    var i := IntOf(u, 0, |items| - 1);
    IntStaysInBounds(u, 0, |items| - 1);
    IntIsUniform(u, 0, |items| - 1, i);
  }

  /** From 1 to 40, each its equal share. */
  predicate Counted(quantity: int, u: real) {
    (quantity - 1) as real <= u * 40.0 < quantity as real
  }

  lemma CountedAt(u: real)
    requires 0.0 <= u < 1.0
    ensures Counted(IntOf(u, 1, 40), u)
  {
    IntStaysInBounds(u, 1, 40);
    IntIsUniform(u, 1, 40, IntOf(u, 1, 40));
  }

  /** A row's first draw decides its time and the second its quantity. */
  lemma RowFollowsItsFirstDraws(mix: Word -> Word, skew: real -> real, a: Word, i: nat, refs: Refs)
    ensures Row(mix, skew, a, i, refs).transactionId == "TXN-" + Pad(i, 9)
    ensures Timed(Row(mix, skew, a, i, refs).occurredMs, skew(Draw(mix, a, 1)))
    ensures Counted(Row(mix, skew, a, i, refs).quantity, Draw(mix, a, 2))
  {
    TimedAt(skew(Draw(mix, a, 1)));
    CountedAt(Draw(mix, a, 2));
  }

  /** The third decides the unit price, and with the quantity the amount, which is
      exactly their product. */
  lemma RowIsPriced(mix: Word -> Word, skew: real -> real, a: Word, i: nat, refs: Refs)
    ensures Priced(Row(mix, skew, a, i, refs).amount, Row(mix, skew, a, i, refs).quantity, Draw(mix, a, 3))
  {
    var u4, u5, u6, u7 := Draw(mix, a, 4), Draw(mix, a, 5), Draw(mix, a, 6), Draw(mix, a, 7);
    AssembledIsPriced(i, refs, skew(Draw(mix, a, 1)), IntOf(Draw(mix, a, 2), 1, 40), Draw(mix, a, 3),
                      IntOf(u4, 0, |refs.customerIds| - 1), IntOf(u5, 0, |refs.productIds| - 1),
                      IntOf(u6, 0, |refs.siteIds| - 1), IntOf(u7, 0, |CHANNELS| - 1));
  }

  lemma AssembledIsPriced(i: nat, refs: Refs, t: real, quantity: int, u3: real,
                          customer: int, product: int, site: int, channel: int)
    ensures var row := Assemble(i, refs, t, quantity, RangeOf(u3, 8.0, 400.0), customer, product, site, channel);
      Priced(row.amount, row.quantity, u3)
  {
    PricedAt(quantity, u3);
  }

  /** The fourth decides the customer, the fifth the product, the sixth the site and
      the seventh the channel. */
  lemma RowFollowsItsLastDraws(mix: Word -> Word, skew: real -> real, a: Word, i: nat, refs: Refs)
    requires NonEmpty(refs)
    ensures var row := Row(mix, skew, a, i, refs);
      && Picks(row.customerId, refs.customerIds, Draw(mix, a, 4))
      && Picks(row.productId, refs.productIds, Draw(mix, a, 5))
      && Picks(row.siteId, refs.siteIds, Draw(mix, a, 6))
      && Picks(row.channel, ["online", "field-sales", "distributor", "retail"], Draw(mix, a, 7))
  {
    PickedAt(refs.customerIds, Draw(mix, a, 4));
    PickedAt(refs.productIds, Draw(mix, a, 5));
    PickedAt(refs.siteIds, Draw(mix, a, 6));
    PickedAt(CHANNELS, Draw(mix, a, 7));
  }

  /** A time `t` of the way through the thirty months before 31 August 2026, UTC. */
  predicate Timed(ms: int, t: real) {
    var offset := (ms - (1788134400000 - 900 * 86400000)) as real;
    offset <= t * (900 * 86400000) as real < offset + 1.0
  }

  lemma TimedAt(t: real)
    ensures Timed(HISTORY_START_MS + Scale(t, SPAN as real).Floor, t)
  {
    var x := t * (900 * 86400000) as real;
    assert SPAN == 900 * 86400000 && Scale(t, SPAN as real) == x;
    assert x.Floor as real <= x < x.Floor as real + 1.0;
  }

  /** A price from 8 to 400 in whole cents, times the quantity. */
  ghost predicate Priced(amount: real, quantity: int, u: real) {
    exists cents: int :: PriceInCents(cents, u) && amount == (quantity * cents) as real / 100.0
  }

  predicate PriceInCents(cents: int, u: real) {
    -0.005 <= cents as real / 100.0 - (8.0 + u * 392.0) <= 0.005
  }

  lemma PricedAt(quantity: int, u: real)
    ensures Priced(AmountOf(quantity, RangeOf(u, 8.0, 400.0)), quantity, u)
  {
    RangeIsUniform(u, 8.0, 400.0);
    var cents: int :| InCents(RangeOf(u, 8.0, 400.0), cents);
    assert PriceInCents(cents, u);
    var total := quantity as real * (cents as real / 100.0) * 100.0;
    assert total == (quantity * cents) as real;
    assert Round(total) == quantity * cents;
  }

  // ---------------------------------------------------------------------------
  // Distinct ids
  // ---------------------------------------------------------------------------

  function DigitValue(c: char): nat {
    if '0' <= c <= '9' then (c as int - '0' as int) as nat else 0
  }

  /** The number a decimal numeral stands for, leading zeros allowed. */
  function Value(s: string): nat {
    if s == "" then 0 else 10 * Value(s[..|s| - 1]) + DigitValue(s[|s| - 1])
  }

  lemma {:induction false} DecimalValue(n: nat)
    ensures Value(Decimal(n)) == n
  {
    if n >= 10 {
      DecimalValue(n / 10);
      assert Decimal(n)[..|Decimal(n)| - 1] == Decimal(n / 10);
    } else {
      assert Decimal(n)[..0] == "";
    }
  }

  lemma {:induction false} ZerosValue(k: nat, s: string)
    ensures Value(Zeros(k) + s) == Value(s)
    decreases |s|, k
  {
    if s != "" {
      var front := s[..|s| - 1];
      assert (Zeros(k) + s)[..|Zeros(k) + s| - 1] == Zeros(k) + front;
      ZerosValue(k, front);
    } else {
      assert Zeros(k) + "" == Zeros(k);
      ZerosAreZero(k);
    }
  }

  lemma {:induction false} ZerosAreZero(k: nat)
    ensures Value(Zeros(k)) == 0
  {
    if k > 0 {
      ZerosAreZero(k - 1);
      ZerosEndInZero(k - 1);
      assert Zeros(k)[..|Zeros(k)| - 1] == Zeros(k - 1);
    }
  }

  lemma {:induction false} ZerosEndInZero(k: nat)
    ensures "0" + Zeros(k) == Zeros(k) + "0"
  {
    if k > 0 { ZerosEndInZero(k - 1); }
  }

  /** The padded numeral of a row number reads back as the number. */
  lemma PadReadsBack(n: nat, width: nat)
    ensures Value(Pad(n, width)) == n
    ensures |Pad(n, width)| == if |Decimal(n)| < width then width else |Decimal(n)|
  {
    DecimalValue(n);
    var k := if |Decimal(n)| < width then width - |Decimal(n)| else 0;
    ZerosValue(k, Decimal(n));
    ZerosLength(k);
  }

  /** A row number below a billion fills its nine places exactly. */
  lemma NinePlaces(n: nat)
    requires n < 1000000000
    ensures |Pad(n, 9)| == 9
  {
    DecimalLength(n, 9);
    PadReadsBack(n, 9);
  }

  function PowerOfTen(k: nat): nat {
    if k == 0 then 1 else 10 * PowerOfTen(k - 1)
  }

  lemma {:induction false} DecimalLength(n: nat, k: nat)
    requires k > 0 && n < PowerOfTen(k)
    ensures |Decimal(n)| <= k
  {
    if n >= 10 {
      assert n / 10 < PowerOfTen(k - 1);
      DecimalLength(n / 10, k - 1);
    }
  }

  lemma {:induction false} ZerosLength(k: nat)
    ensures |Zeros(k)| == k
  {
    if k > 0 { ZerosLength(k - 1); }
  }

  lemma SynthesizedRow(mix: Word -> Word, skew: real -> real, a: Word, n: nat, refs: Refs, j: nat)
    requires j < n
    ensures |Synthesize(mix, skew, a, n, refs)| == n
    ensures Synthesize(mix, skew, a, n, refs)[j] == Row(mix, skew, Advance(a, DRAWS_PER_ROW * j), 1 + j, refs)
  {
    RowsAreRandomAccess(Maker(mix, skew, refs), a, 1, n, j);
  }

  /** For any seed and non-empty refs, every row is sound. */
  lemma EveryRowIsSound(mix: Word -> Word, skew: real -> real, a: Word, n: nat, refs: Refs, j: nat)
    requires NonEmpty(refs) && KeepsUnit(skew) && j < n
    ensures |Synthesize(mix, skew, a, n, refs)| == n
    ensures Sound(Synthesize(mix, skew, a, n, refs)[j], refs)
  {
    SynthesizedRow(mix, skew, a, n, refs, j);
    RowIsSound(mix, skew, Advance(a, DRAWS_PER_ROW * j), 1 + j, refs);
  }

  lemma RowId(mix: Word -> Word, skew: real -> real, a: Word, i: nat, refs: Refs)
    ensures Row(mix, skew, a, i, refs).transactionId == "TXN-" + Pad(i, 9)
    ensures Value(Row(mix, skew, a, i, refs).transactionId[4..]) == i
  {
    PadReadsBack(i, 9);
    assert ("TXN-" + Pad(i, 9))[4..] == Pad(i, 9);
  }

  lemma SynthesizedId(mix: Word -> Word, skew: real -> real, a: Word, n: nat, refs: Refs, j: nat)
    requires j < n
    ensures |Synthesize(mix, skew, a, n, refs)| == n
    ensures var id := Synthesize(mix, skew, a, n, refs)[j].transactionId; |id| >= 4 && Value(id[4..]) == 1 + j
  {
    SynthesizedRow(mix, skew, a, n, refs, j);
    RowId(mix, skew, Advance(a, DRAWS_PER_ROW * j), 1 + j, refs);
  }

  /** No two rows share an id, however many there are. */
  lemma IdsAreDistinct(mix: Word -> Word, skew: real -> real, a: Word, n: nat, refs: Refs, j: nat, k: nat)
    requires j < n && k < n
    ensures |Synthesize(mix, skew, a, n, refs)| == n
    ensures var rows := Synthesize(mix, skew, a, n, refs);
      rows[j].transactionId == rows[k].transactionId <==> j == k
  {
    SynthesizedId(mix, skew, a, n, refs, j);
    SynthesizedId(mix, skew, a, n, refs, k);
  }

  // ---------------------------------------------------------------------------
  // The generator over mutable state
  // ---------------------------------------------------------------------------

  /** The counter `mulberry32` closes over, advanced by every draw. */
  class Rng {
    var counter: Word
    const mix: Word -> Word

    constructor (seed: Word, mix: Word -> Word)
      ensures counter == seed && this.mix == mix
    {
      counter, this.mix := seed, mix;
    }

    method Float() returns (u: real)
      modifies this`counter
      ensures counter == Advance(old(counter), 1) && u == Draw(mix, old(counter), 1)
      ensures counter == (old(counter) + 1831565813) % 4294967296
      ensures u * 4294967296.0 == (mix(counter) as int) as real
    {
      counter := (counter + INCREMENT) % WORDS;
      var w: int := mix(counter);
      u := w as real / WORDS as real;
    }

    method Int(min: int, max: int) returns (n: int)
      modifies this`counter
      ensures counter == Advance(old(counter), 1) && n == IntOf(Draw(mix, old(counter), 1), min, max)
      ensures min <= max ==> min <= n <= max
    {
      var u := Float();
      n := IntOf(u, min, max);
      if min <= max { IntStaysInBounds(u, min, max); }
    }

    method Range(min: real, max: real) returns (v: real)
      modifies this`counter
      ensures counter == Advance(old(counter), 1) && v == RangeOf(Draw(mix, old(counter), 1), min, max)
    {
      var u := Float();
      v := RangeOf(u, min, max);
    }
  }

  /** One pass of the generator's loop: seven draws, in the order they are made. */
  method NextRow(rng: Rng, skew: real -> real, i: nat, refs: Refs) returns (row: Transaction)
    modifies rng
    ensures row == Row(rng.mix, skew, old(rng.counter), i, refs)
    ensures rng.counter == Advance(old(rng.counter), DRAWS_PER_ROW)
  {
    ghost var a, mix := rng.counter, rng.mix;
    DrawsFollow(mix, a);
    var u := rng.Float();
    var t := skew(u);
    var quantity := rng.Int(1, 40);
    var price := rng.Range(8.0, 400.0);
    var customer := rng.Int(0, |refs.customerIds| - 1);
    var product := rng.Int(0, |refs.productIds| - 1);
    var site := rng.Int(0, |refs.siteIds| - 1);
    var channel := rng.Int(0, |CHANNELS| - 1);
    row := Assemble(i, refs, t, quantity, price, customer, product, site, channel);
  }

  /** Seven single draws are the seven draws of the row. */
  lemma DrawsFollow(mix: Word -> Word, a: Word)
    ensures forall k :: 1 <= k <= 7 ==>
      Advance(Advance(a, k - 1), 1) == Advance(a, k) && Draw(mix, Advance(a, k - 1), 1) == Draw(mix, a, k)
    ensures Advance(a, 0) == a
  {
    forall k | 1 <= k <= 7
      ensures Advance(Advance(a, k - 1), 1) == Advance(a, k) && Draw(mix, Advance(a, k - 1), 1) == Draw(mix, a, k)
    {
      AdvanceTwice(a, k - 1, 1);
    }
  }

  lemma RowsUnroll(make: (Word, nat) -> Transaction, a: Word, i: nat, count: nat, out: seq<Transaction>)
    requires i <= count
    ensures out + Rows(make, a, i, count) == (out + [make(a, i)]) + Rows(make, Advance(a, DRAWS_PER_ROW), i + 1, count)
  {
  }

  lemma MakerMakes(mix: Word -> Word, skew: real -> real, refs: Refs, a: Word, i: nat)
    ensures Maker(mix, skew, refs)(a, i) == Row(mix, skew, a, i, refs)
  {
  }

  method Generate(rng: Rng, rowCount: nat, skew: real -> real, refs: Refs) returns (out: seq<Transaction>)
    modifies rng
    ensures out == Synthesize(rng.mix, skew, old(rng.counter), rowCount, refs)
  {
    ghost var a, make := rng.counter, Maker(rng.mix, skew, refs);
    out := [];
    var i := 1;
    while i <= rowCount
      invariant 1 <= i <= rowCount + 1
      invariant Rows(make, a, 1, rowCount) == out + Rows(make, rng.counter, i, rowCount)
    {
      RowsUnroll(make, rng.counter, i, rowCount, out);
      MakerMakes(rng.mix, skew, refs, rng.counter, i);
      var row := NextRow(rng, skew, i, refs);
      out := out + [row];
      i := i + 1;
    }
    assert out + [] == out;
  }

  method SynthesizeTransactions(rowCount: nat, seed: string, skew: real -> real, refs: Refs)
    returns (out: seq<Transaction>)
    ensures out == Synthesize(Mulberry, skew, Xmur3(seed + ":transactions"), rowCount, refs)
  {
    var rng := new Rng(Xmur3(seed + ":transactions"), Mulberry);
    out := Generate(rng, rowCount, skew, refs);
  }
}
