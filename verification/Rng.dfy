/** The deterministic byte stream, rejection sampling and the shuffled wall of
    engine/rng.py. SHA-256 of a seed and a block number is an arbitrary function. */
module Rng {
  import opened Lists
  import opened Tiles
  import opened FisherYates

  type Byte = b: int | 0 <= b < 256

  type Block = s: seq<Byte> | |s| == 32 witness seq(32, _ => 0)

  type Hash = (nat, nat) -> Block

  /** Seeds and block numbers are 128-bit. */
  const SEED_LIMIT: nat := 0x1_0000_0000_0000_0000_0000_0000_0000_0000
  const STREAM_LENGTH: nat := 32 * SEED_LIMIT

  // --- the stream ---

  /** The one infinite stream of a seed. */
  function StreamByte(sha: Hash, seed: nat, k: nat): Byte { sha(seed, k / 32)[k % 32] }

  function Stream(sha: Hash, seed: nat, cursor: nat, n: nat): (s: seq<Byte>)
    ensures |s| == n
  {
    seq<Byte>(n, i requires 0 <= i < n => StreamByte(sha, seed, cursor + i))
  }

  predicate GoodSeed(seed: int) { 0 <= seed < SEED_LIMIT }

  /** What a read at a cursor gives. A block number that needs more than 16 bytes
      does not fit the hash input. */
  function Read(sha: Hash, seed: int, cursor: int, n: int): Result<seq<Byte>> {
    if !GoodSeed(seed) || cursor < 0 || n < 0 then Err(BadArgument)
    else if n > 0 && cursor + n > STREAM_LENGTH then Err(Overflow)
    else Ok(Stream(sha, seed, cursor, n))
  }

  /** rng_bytes: whole blocks are appended until the slice is covered. */
  method RngBytes(sha: Hash, seed: int, cursor: int, n: int) returns (r: Result<seq<Byte>>)
    ensures r == Read(sha, seed, cursor, n)
  {
    if seed < 0 || seed >= SEED_LIMIT || cursor < 0 || n < 0 {
      return Err(BadArgument);
    }
    if n == 0 {
      return Ok([]);
    }
    var block, offset := cursor / 32, cursor % 32;
    ghost var first := block;
    var out := [];
    while |out| < n + offset
      invariant first <= block && |out| == 32 * (block - first)
      invariant block == first || (32 * (block - 1) < cursor + n && block <= SEED_LIMIT)
      invariant forall k :: 0 <= k < |out| ==> out[k] == StreamByte(sha, seed, 32 * first + k)
      decreases n + offset - |out|
    {
      if block >= SEED_LIMIT {
        return Err(Overflow);
      }
      forall k | 0 <= k < 32
        ensures sha(seed, block)[k] == StreamByte(sha, seed, 32 * block + k)
      {
        assert (32 * block + k) / 32 == block;
      }
      out := out + sha(seed, block);
      block := block + 1;
    }
    assert out[offset..offset + n] == Stream(sha, seed, cursor, n);
    r := Ok(out[offset..offset + n]);
  }

  /** Reads are slices of one stream: a read split in two, at any place, gives the
      same bytes as the whole read, and fails exactly when one half fails. */
  lemma StreamCoherence(sha: Hash, seed: int, cursor: nat, n: nat, m: nat)
    ensures var whole := Read(sha, seed, cursor, n + m);
            var first := Read(sha, seed, cursor, n);
            var second := Read(sha, seed, cursor + n, m);
            && (whole.Ok? <==> first.Ok? && second.Ok?)
            && (whole.Ok? ==> whole.value == first.value + second.value)
  {
  }

  /** Block b of the stream is the hash of the seed and b. */
  lemma BlocksInOrder(sha: Hash, seed: nat, b: nat)
    requires GoodSeed(seed) && b < SEED_LIMIT
    ensures Read(sha, seed, 32 * b, 32) == Ok(sha(seed, b))
  {
    forall k | 0 <= k < 32 ensures Stream(sha, seed, 32 * b, 32)[k] == sha(seed, b)[k] {
      assert (32 * b + k) / 32 == b && (32 * b + k) % 32 == k;
      assert StreamByte(sha, seed, 32 * b + k) == sha(seed, b)[k];
    }
    assert Stream(sha, seed, 32 * b, 32) == sha(seed, b);
  }

  // --- how many bytes a sample takes ---

  function Pow2(k: nat): (p: nat)
    ensures p > 0
  {
    if k == 0 then 1 else 2 * Pow2(k - 1)
  }

  lemma {:induction false} Pow2Grows(j: nat, k: nat)
    requires j <= k
    ensures Pow2(j) <= Pow2(k)
    decreases k
  {
    if j < k {
      Pow2Grows(j, k - 1);
    }
  }

  /** int.bit_length */
  function BitLength(x: nat): nat { if x == 0 then 0 else 1 + BitLength(x / 2) }

  lemma {:induction false} BitLengthBounds(x: nat)
    requires x > 0
    ensures BitLength(x) >= 1 && Pow2(BitLength(x) - 1) <= x < Pow2(BitLength(x))
  {
    if x > 1 {
      BitLengthBounds(x / 2);
    }
  }

  /** Whole bytes per try, for n possible results. */
  function BytesNeeded(n: nat): nat
    requires n >= 2
  {
    (BitLength(n - 1) + 7) / 8
  }

  function ByteRange(n: nat): nat
    requires n >= 2
  {
    Pow2(BytesNeeded(n) * 8)
  }

  /** Enough bytes to reach every result, and no fewer would do. */
  lemma BytesNeededIsMinimal(n: nat)
    requires n >= 2
    ensures BytesNeeded(n) >= 1
    ensures n <= ByteRange(n)
    ensures forall b: nat :: Pow2(b * 8) >= n ==> BytesNeeded(n) <= b
  {
    var bits := BitLength(n - 1);
    var needed := BytesNeeded(n);
    BitLengthBounds(n - 1);
    Pow2Grows(bits, needed * 8);
    forall b: nat | Pow2(b * 8) >= n
      ensures needed <= b
    {
      if b < needed {
        Pow2Grows(b * 8, bits - 1);
      }
    }
  }

  // --- big-endian numbers ---

  /** int.from_bytes(chunk, "big") */
  function BigEndian(bytes: seq<Byte>): nat {
    if bytes == [] then 0 else 256 * BigEndian(bytes[..|bytes| - 1]) + bytes[|bytes| - 1]
  }

  function Digits(v: nat, b: nat): (bytes: seq<Byte>)
    ensures |bytes| == b
  {
    if b == 0 then [] else Digits(v / 256, b - 1) + [v % 256]
  }

  lemma Pow2Byte(b: nat)
    ensures Pow2((b + 1) * 8) == 256 * Pow2(b * 8)
  {
    assert (b + 1) * 8 == b * 8 + 8;
    var p := b * 8;
    assert Pow2(p + 2) == 4 * Pow2(p);
    assert Pow2(p + 4) == 4 * Pow2(p + 2);
    assert Pow2(p + 6) == 4 * Pow2(p + 4);
    assert Pow2(p + 8) == 4 * Pow2(p + 6);
  }

  /** Strings of b bytes and numbers below 256^b correspond one to one. */
  lemma {:induction false} BytesAreNumbers(bytes: seq<Byte>)
    ensures BigEndian(bytes) < Pow2(|bytes| * 8)
    ensures Digits(BigEndian(bytes), |bytes|) == bytes
  {
    if bytes != [] {
      var front := bytes[..|bytes| - 1];
      BytesAreNumbers(front);
      Pow2Byte(|front|);
      assert BigEndian(bytes) / 256 == BigEndian(front);
      assert bytes == front + [bytes[|bytes| - 1]];
    }
  }

  lemma LastByte(front: seq<Byte>, last: Byte)
    ensures BigEndian(front + [last]) == 256 * BigEndian(front) + last
    ensures BigEndian([]) == 0 && BigEndian([last]) == last
  {
    assert (front + [last])[..|front|] == front;
    assert [last][..0] == [] && BigEndian([]) == 0;
  }

  /** The first byte is the most significant one. */
  lemma {:induction false} MostSignificantFirst(b: Byte, rest: seq<Byte>)
    ensures BigEndian([b] + rest) == b * Pow2(|rest| * 8) + BigEndian(rest)
    decreases |rest|
  {
    if rest == [] {
      LastByte([], b);
      assert [b] + rest == [b] && Pow2(0) == 1;
    } else {
      hide BigEndian;
      hide Pow2;
      var front, last := rest[..|rest| - 1], rest[|rest| - 1];
      assert rest == front + [last];
      MostSignificantFirst(b, front);
      OneByteLonger(b, front, last);
    }
  }

  lemma OneByteLonger(b: Byte, front: seq<Byte>, last: Byte)
    requires BigEndian([b] + front) == b * Pow2(|front| * 8) + BigEndian(front)
    ensures BigEndian([b] + (front + [last])) == b * Pow2((|front| + 1) * 8) + BigEndian(front + [last])
  {
    hide BigEndian;
    hide Pow2;
    var p, q := Pow2(|front| * 8), Pow2((|front| + 1) * 8);
    Pow2Byte(|front|);
    LastByte(front, last);
    LastByte([b] + front, last);
    assert [b] + (front + [last]) == ([b] + front) + [last];
    OneDigitMore(b, p, BigEndian(front), last, BigEndian([b] + (front + [last])), q, BigEndian(front + [last]));
  }

  lemma OneDigitMore(b: nat, p: nat, low: nat, last: nat, whole: nat, q: nat, rest: nat)
    requires whole == 256 * (b * p + low) + last && q == 256 * p && rest == 256 * low + last
    ensures whole == b * q + rest
  {
    assert 256 * (b * p) == b * (256 * p);
  }

  lemma {:induction false} NumbersAreBytes(v: nat, b: nat)
    requires v < Pow2(b * 8)
    ensures BigEndian(Digits(v, b)) == v
    decreases b
  {
    if b > 0 {
      Pow2Byte(b - 1);
      NumbersAreBytes(v / 256, b - 1);
      assert Digits(v, b)[..b - 1] == Digits(v / 256, b - 1);
    }
  }

  // --- no bias ---

  /** Raw values from here on are rejected. */
  function Threshold(n: nat): nat
    requires n >= 2
  {
    RemainderFits(ByteRange(n), n);
    ByteRange(n) - ByteRange(n) % n
  }

  lemma RemainderFits(x: nat, n: nat)
    requires n > 0
    ensures x % n <= x && x % n < n
  {
    if x < n {
      assert x / n == 0;
    }
  }

  function Residues(limit: nat, n: nat, r: nat): set<nat>
    requires n > 0
  {
    set v: nat | v < limit && v % n == r
  }

  lemma ModOfMultiple(n: nat, k: nat, d: nat)
    requires d < n
    ensures (n * k + d) % n == d
  {
    ModUnique(n * k + d, n, k, d);
  }

  lemma Distribute(n: int, a: int, b: int)
    ensures n * (a + b) == n * a + n * b
  {
  }

  lemma MulAtLeast(n: nat, x: int)
    requires x >= 1
    ensures n * x >= n
  {
  }

  /** Division with remainder is unique. */
  lemma ModUnique(v: nat, n: nat, k: nat, d: nat)
    requires d < n && v == n * k + d
    ensures v / n == k && v % n == d
  {
    var q := v / n;
    if q > k {
      Distribute(n, k, q - k);
      MulAtLeast(n, q - k);
    } else if q < k {
      Distribute(n, q, k - q);
      MulAtLeast(n, k - q);
    }
  }

  /** The next n numbers hold residue r once. */
  lemma OneMorePeriod(n: nat, k: nat, r: nat)
    requires r < n
    ensures |Residues(n * (k + 1), n, r)| == |Residues(n * k, n, r)| + 1
  {
    Distribute(n, k, 1);
    ModOfMultiple(n, k, r);
    forall w: nat | n * k <= w < n * k + n && w % n == r
      ensures w == n * k + r
    {
      ModOfMultiple(n, k, w - n * k);
    }
    assert Residues(n * (k + 1), n, r) == Residues(n * k, n, r) + {n * k + r};
  }

  lemma NoResidues(n: nat, r: nat)
    requires n > 0
    ensures |Residues(n * 0, n, r)| == 0
  {
    assert Residues(0, n, r) == {};
  }

  /** Below n * k every residue of n occurs exactly k times. */
  lemma {:induction false} EachResidueKTimes(n: nat, k: nat, r: nat)
    requires r < n
    ensures |Residues(n * k, n, r)| == k
    decreases k
  {
    hide Residues;
    if k == 0 {
      NoResidues(n, r);
    } else {
      EachResidueKTimes(n, k - 1, r);
      OneMorePeriod(n, k - 1, r);
    }
  }

  /** The sampler is unbiased: every residue has the same number of accepted raw
      values, and more than half of all raw values are accepted. */
  lemma SamplerIsUnbiased(n: nat)
    requires n >= 2
    ensures Threshold(n) <= ByteRange(n) < 2 * Threshold(n)
    ensures forall r: nat :: r < n ==> |Residues(Threshold(n), n, r)| == Threshold(n) / n
  {
    BytesNeededIsMinimal(n);
    var range := ByteRange(n);
    var k := range / n;
    assert range == n * k + range % n;
    assert Threshold(n) == n * k;
    MulAtLeast(n, k);
    ModUnique(n * k, n, k, 0);
    forall r: nat | r < n
      ensures |Residues(Threshold(n), n, r)| == Threshold(n) / n
    {
      EachResidueKTimes(n, k, r);
    }
  }

  // --- sampling ---

  /** The rejection loop from a cursor on, for n possible results. */
  function Sample(sha: Hash, seed: nat, cursor: nat, n: nat): (r: Result<(nat, nat)>)
    requires n >= 2 && GoodSeed(seed)
    ensures r.Ok? ==> r.value.0 < n && cursor < r.value.1 <= STREAM_LENGTH
    ensures r.Err? ==> r.error == Overflow
    decreases STREAM_LENGTH + 1 - cursor
  {
    BytesNeededIsMinimal(n);
    var b := BytesNeeded(n);
    if cursor + b > STREAM_LENGTH then Err(Overflow)
    else
      var value := BigEndian(Stream(sha, seed, cursor, b));
      if value < Threshold(n) then Ok((value % n, cursor + b)) else Sample(sha, seed, cursor + b, n)
  }

  function Uniform(sha: Hash, seed: int, cursor: int, upper: int): Result<(int, int)> {
    if upper < 0 then Err(BadArgument)
    else if upper == 0 then Ok((0, cursor))
    else if !GoodSeed(seed) || cursor < 0 then Err(BadArgument)
    else
      match Sample(sha, seed, cursor, upper + 1)
      case Ok(p) => Ok((p.0, p.1))
      case Err(e) => Err(e)
  }

  /** uniform_int: a loop that ends because the stream does. */
  method UniformInt(sha: Hash, seed: int, cursor: int, upper: int) returns (r: Result<(int, int)>)
    ensures r == Uniform(sha, seed, cursor, upper)
  {
    if upper < 0 {
      return Err(BadArgument);
    }
    var n := upper + 1;
    if n <= 1 {
      return Ok((0, cursor));
    }
    BytesNeededIsMinimal(n);
    hide Stream;
    hide BigEndian;
    hide Pow2;
    hide BitLength;
    var bits := BitLength(n - 1);
    var needed := (bits + 7) / 8;
    var pow2 := Pow2(needed * 8);
    var threshold := pow2 - pow2 % n;
    var at := cursor;
    while true
      invariant GoodSeed(seed) && cursor >= 0 ==> at >= 0 && Sample(sha, seed, cursor, n) == Sample(sha, seed, at, n)
      invariant !(GoodSeed(seed) && cursor >= 0) ==> at == cursor
      decreases STREAM_LENGTH + 1 - at
    {
      var chunk := RngBytes(sha, seed, at, needed);
      if chunk.Err? {
        return Err(chunk.error);
      }
      at := at + needed;
      var value := BigEndian(chunk.value);
      if value < threshold {
        return Ok((value % n, at));
      }
    }
  }

  /** The raw value of try k. */
  function TryValue(sha: Hash, seed: nat, cursor: nat, n: nat, k: nat): nat
    requires n >= 2
  {
    BigEndian(Stream(sha, seed, cursor + k * BytesNeeded(n), BytesNeeded(n)))
  }

  /** Try k is the first accepted one, inside the stream, and gives this result. */
  ghost predicate ReturnsOnTry(sha: Hash, seed: nat, cursor: nat, n: nat, k: nat, value: nat, after: nat)
    requires n >= 2
  {
    && after == cursor + (k + 1) * BytesNeeded(n) <= STREAM_LENGTH
    && (forall i: nat :: i < k ==> TryValue(sha, seed, cursor, n, i) >= Threshold(n))
    && TryValue(sha, seed, cursor, n, k) < Threshold(n)
    && value == TryValue(sha, seed, cursor, n, k) % n
  }

  lemma NextTry(sha: Hash, seed: nat, cursor: nat, n: nat, i: nat)
    requires n >= 2
    ensures TryValue(sha, seed, cursor + BytesNeeded(n), n, i) == TryValue(sha, seed, cursor, n, i + 1)
  {
  }

  /** A sample that starts one try later. */
  lemma LaterTry(sha: Hash, seed: nat, cursor: nat, n: nat, k: nat, value: nat, after: nat)
    requires n >= 2 && TryValue(sha, seed, cursor, n, 0) >= Threshold(n)
    ensures ReturnsOnTry(sha, seed, cursor, n, k + 1, value, after) <==>
            ReturnsOnTry(sha, seed, cursor + BytesNeeded(n), n, k, value, after)
  {
    hide TryValue;
    var later := cursor + BytesNeeded(n);
    Distribute(BytesNeeded(n), k + 1, 1);
    NextTry(sha, seed, cursor, n, k);
    if ReturnsOnTry(sha, seed, later, n, k, value, after) {
      forall i: nat | i < k + 1
        ensures TryValue(sha, seed, cursor, n, i) >= Threshold(n)
      {
        if i > 0 {
          NextTry(sha, seed, cursor, n, i - 1);
        }
      }
    }
    if ReturnsOnTry(sha, seed, cursor, n, k + 1, value, after) {
      forall i: nat | i < k
        ensures TryValue(sha, seed, later, n, i) >= Threshold(n)
      {
        NextTry(sha, seed, cursor, n, i);
      }
    }
  }

  ghost predicate ReturnsOnSome(sha: Hash, seed: nat, cursor: nat, n: nat, value: nat, after: nat)
    requires n >= 2
  {
    exists k: nat :: ReturnsOnTry(sha, seed, cursor, n, k, value, after)
  }

  lemma NoTryLeft(sha: Hash, seed: nat, cursor: nat, n: nat, value: nat, after: nat)
    requires n >= 2 && cursor + BytesNeeded(n) > STREAM_LENGTH
    ensures !ReturnsOnSome(sha, seed, cursor, n, value, after)
  {
    hide TryValue;
    hide Threshold;
    hide BytesNeeded;
    forall k: nat | true
      ensures !ReturnsOnTry(sha, seed, cursor, n, k, value, after)
    {
      MulAtLeast(BytesNeeded(n), k + 1);
    }
  }

  /** Nothing comes after an accepted first try. */
  lemma FirstTryCounts(sha: Hash, seed: nat, cursor: nat, n: nat, value: nat, after: nat)
    requires n >= 2 && cursor + BytesNeeded(n) <= STREAM_LENGTH
    requires TryValue(sha, seed, cursor, n, 0) < Threshold(n)
    ensures ReturnsOnSome(sha, seed, cursor, n, value, after) <==>
            value == TryValue(sha, seed, cursor, n, 0) % n && after == cursor + BytesNeeded(n)
  {
    hide TryValue;
    hide Threshold;
    hide BytesNeeded;
    if ReturnsOnSome(sha, seed, cursor, n, value, after) {
      var k: nat :| ReturnsOnTry(sha, seed, cursor, n, k, value, after);
      assert k == 0;
    }
    if value == TryValue(sha, seed, cursor, n, 0) % n && after == cursor + BytesNeeded(n) {
      assert ReturnsOnTry(sha, seed, cursor, n, 0, value, after);
    }
  }

  lemma LaterTryCounts(sha: Hash, seed: nat, cursor: nat, n: nat, value: nat, after: nat)
    requires n >= 2 && TryValue(sha, seed, cursor, n, 0) >= Threshold(n)
    ensures ReturnsOnSome(sha, seed, cursor, n, value, after) <==>
            ReturnsOnSome(sha, seed, cursor + BytesNeeded(n), n, value, after)
  {
    hide TryValue;
    hide Threshold;
    hide BytesNeeded;
    if ReturnsOnSome(sha, seed, cursor + BytesNeeded(n), n, value, after) {
      var k: nat :| ReturnsOnTry(sha, seed, cursor + BytesNeeded(n), n, k, value, after);
      LaterTry(sha, seed, cursor, n, k, value, after);
    }
    if ReturnsOnSome(sha, seed, cursor, n, value, after) {
      var k: nat :| ReturnsOnTry(sha, seed, cursor, n, k, value, after);
      assert k > 0;
      LaterTry(sha, seed, cursor, n, k - 1, value, after);
    }
  }

  lemma SampleUnfolds(sha: Hash, seed: nat, cursor: nat, n: nat)
    requires n >= 2 && GoodSeed(seed)
    ensures var b := BytesNeeded(n);
            Sample(sha, seed, cursor, n) ==
            if cursor + b > STREAM_LENGTH then Err(Overflow)
            else if TryValue(sha, seed, cursor, n, 0) < Threshold(n)
            then Ok((TryValue(sha, seed, cursor, n, 0) % n, cursor + b))
            else Sample(sha, seed, cursor + b, n)
  {
    hide Stream;
    hide BigEndian;
    hide Threshold;
    hide BytesNeeded;
    assert cursor + 0 * BytesNeeded(n) == cursor;
  }

  /** The sampler returns exactly what its first accepted try gives: the value is
      in range and the cursor has moved by whole tries. It fails only by running
      off the end of the stream, with every try rejected. */
  lemma {:induction false} SampleIsFirstAcceptedTry(sha: Hash, seed: nat, cursor: nat, n: nat, value: nat, after: nat)
    requires n >= 2 && GoodSeed(seed)
    ensures Sample(sha, seed, cursor, n) == Ok((value, after)) <==>
            ReturnsOnSome(sha, seed, cursor, n, value, after)
    decreases STREAM_LENGTH + 1 - cursor
  {
    BytesNeededIsMinimal(n);
    SampleUnfolds(sha, seed, cursor, n);
    hide Sample;
    hide TryValue;
    hide Threshold;
    hide ReturnsOnSome;
    hide BytesNeeded;
    if cursor + BytesNeeded(n) > STREAM_LENGTH {
      NoTryLeft(sha, seed, cursor, n, value, after);
    } else if TryValue(sha, seed, cursor, n, 0) < Threshold(n) {
      FirstTryCounts(sha, seed, cursor, n, value, after);
    } else {
      SampleIsFirstAcceptedTry(sha, seed, cursor + BytesNeeded(n), n, value, after);
      LaterTryCounts(sha, seed, cursor, n, value, after);
    }
  }

  // --- the wall ---

  /** The choices for positions i, i - 1, ..., 1, drawn from a cursor on. */
  function Draws(sha: Hash, seed: nat, cursor: nat, i: nat): (r: Result<(seq<nat>, nat)>)
    requires GoodSeed(seed)
    ensures r.Ok? ==> ValidChoices(i + 1, r.value.0)
    decreases i, seed
  {
    if i == 0 then Ok(([], cursor))
    else
      var first :- Sample(sha, seed, cursor, i + 1);
      var rest :- Draws(sha, seed, first.1, i - 1);
      Ok(([first.0] + rest.0, rest.1))
  }

  /** The wall of a seed and the cursor stored after the deal. */
  function Wall(sha: Hash, seed: int): Result<(seq<Tile>, nat)> {
    if !GoodSeed(seed) then Err(BadArgument)
    else
      var d :- Draws(sha, seed, 0, DECK_SIZE - 1);
      Ok((Shuffle(CanonicalTileSet(), d.0), d.1))
  }

  /** Draws after some first draws that have been made. */
  lemma {:induction false} DrawsUnfold(sha: Hash, seed: nat, cursor: nat, i: nat, js: seq<nat>, j: nat, after: nat)
    requires GoodSeed(seed) && i > 0 && Uniform(sha, seed, cursor, i) == Ok((j, after))
    ensures Prepended(js, Draws(sha, seed, cursor, i)) == Prepended(js + [j], Draws(sha, seed, after, i - 1))
  {
    if Draws(sha, seed, after, i - 1).Ok? {
      var rest := Draws(sha, seed, after, i - 1).value.0;
      assert js + ([j] + rest) == (js + [j]) + rest;
    }
  }

  function Prepended(js: seq<nat>, r: Result<(seq<nat>, nat)>): Result<(seq<nat>, nat)> {
    match r
    case Ok(d) => Ok((js + d.0, d.1))
    case Err(e) => Err(e)
  }

  lemma PrependNothing(r: Result<(seq<nat>, nat)>)
    ensures Prepended([], r) == r
  {
    if r.Ok? {
      assert [] + r.value.0 == r.value.0;
    }
  }

  /** shuffled_wall: the swaps are made in place as the choices are drawn. */
  method ShuffledWall(sha: Hash, seed: int) returns (r: Result<(seq<Tile>, nat)>)
    ensures r == Wall(sha, seed)
  {
    hide Sample;
    hide Shuffle;
    hide Swap;
    var items := BuildCanonicalTileSet();
    var tiles := new Tile[DECK_SIZE](i requires 0 <= i < DECK_SIZE => items[i]);
    assert tiles[..] == items;
    var cursor: nat := 0;
    var top := DECK_SIZE - 1;
    var i := top;
    ghost var js: seq<nat> := [];
    PrependNothing(Draws(sha, if GoodSeed(seed) then seed else 0, 0, top));
    while i > 0
      invariant 0 <= i <= top && |js| == top - i
      invariant StepsFit(DECK_SIZE, top, js) && tiles[..] == Steps(items, top, js)
      invariant GoodSeed(seed) ==>
                  Draws(sha, seed, 0, top) == Prepended(js, Draws(sha, seed, cursor, i))
      invariant !GoodSeed(seed) ==> i == top
    {
      var draw := UniformInt(sha, seed, cursor, i);
      if draw.Err? {
        return Err(draw.error);
      }
      DrawsUnfold(sha, seed, cursor, i, js, draw.value.0, draw.value.1);
      StepsSnoc(items, top, js, draw.value.0);
      SwapInArray(tiles[..], i, draw.value.0);
      js := js + [draw.value.0];
      cursor := draw.value.1;
      tiles[i], tiles[draw.value.0] := tiles[draw.value.0], tiles[i];
      i := i - 1;
    }
    if GoodSeed(seed) {
      assert Draws(sha, seed, cursor, 0) == Ok(([], cursor));
      assert js + [] == js;
    }
    LoopIsShuffle(items, js);
    r := Ok((tiles[..], cursor));
  }

  lemma SwapInArray(s: seq<Tile>, i: nat, j: nat)
    requires i < |s| && j < |s|
    ensures Swap(s, i, j) == s[i := s[j]][j := s[i]]
  {
  }

  /** Whatever the hash function, a seed's wall is the canonical set reordered,
      by choices that belong to no other ordering of the positions. */
  lemma WallIsDeck(sha: Hash, seed: int)
    requires Wall(sha, seed).Ok?
    ensures IsPermutation(Wall(sha, seed).value.0, CanonicalTileSet())
    ensures exists js :: ValidChoices(DECK_SIZE, js) && Wall(sha, seed).value.0 == Shuffle(CanonicalTileSet(), js)
  {
    var js := Draws(sha, seed, 0, DECK_SIZE - 1).value.0;
    assert ValidChoices(DECK_SIZE, js);
    ShufflePermutes(CanonicalTileSet(), js);
  }

  /** The cursors between the samples of a shuffle: the first sample is read at the first,
      each further one where the one before stopped, for one result fewer each time. */
  ghost predicate SampledInTurn(sha: Hash, seed: nat, top: nat, js: seq<nat>, cursors: seq<nat>)
    requires GoodSeed(seed)
  {
    && |js| == top && |cursors| == top + 1
    && forall k :: 0 <= k < top ==> Sample(sha, seed, cursors[k], top + 1 - k) == Ok((js[k], cursors[k + 1]))
  }

  lemma {:induction false} DrawsInTurn(sha: Hash, seed: nat, cursor: nat, i: nat, js: seq<nat>, end: nat)
    returns (cursors: seq<nat>)
    requires GoodSeed(seed) && Draws(sha, seed, cursor, i) == Ok((js, end))
    ensures SampledInTurn(sha, seed, i, js, cursors) && cursors[0] == cursor && cursors[i] == end
    decreases i
  {
    hide Sample;
    if i == 0 {
      cursors := [cursor];
    } else {
      var first := Sample(sha, seed, cursor, i + 1).value;
      var rest := Draws(sha, seed, first.1, i - 1).value;
      var later := DrawsInTurn(sha, seed, first.1, i - 1, rest.0, rest.1);
      cursors := [cursor] + later;
      forall k | 0 <= k < i ensures Sample(sha, seed, cursors[k], i + 1 - k) == Ok((js[k], cursors[k + 1])) {
        if k > 0 {
          assert Sample(sha, seed, later[k - 1], i - (k - 1)) == Ok((rest.0[k - 1], later[k]));
        }
      }
    }
  }

  /** A seed's wall, choice by choice: 143 samples read one behind the other from the start
      of the stream, for 144, 143, ..., 2 results, are the swaps for positions 143, 142, ..., 1
      of the canonical set, made in that order. */
  lemma WallIsSampled(sha: Hash, seed: int, wall: seq<Tile>, end: nat) returns (js: seq<nat>, cursors: seq<nat>)
    requires Wall(sha, seed) == Ok((wall, end))
    ensures GoodSeed(seed) && SampledInTurn(sha, seed, 143, js, cursors) && cursors[0] == 0 && cursors[143] == end
    ensures StepsFit(144, 143, js) && wall == Steps(CanonicalTileSet(), 143, js)
  {
    hide Sample;
    hide CanonicalTileSet;
    var d := Draws(sha, seed, 0, DECK_SIZE - 1).value;
    js := d.0;
    cursors := DrawsInTurn(sha, seed, 0, DECK_SIZE - 1, js, d.1);
    LoopIsShuffle(CanonicalTileSet(), js);
    hide Draws;
    hide Shuffle;
    hide Steps;
  }

  // --- a hash that always works ---

  /** The stream of nothing but zero bytes. */
  function ZeroHash(seed: nat, block: nat): Block { seq(32, _ => 0) }

  lemma {:induction false} ZerosAreZero(bytes: seq<Byte>)
    requires forall k :: 0 <= k < |bytes| ==> bytes[k] == 0
    ensures BigEndian(bytes) == 0
  {
    if bytes != [] {
      ZerosAreZero(bytes[..|bytes| - 1]);
    }
  }

  /** Up to 256 results a try takes one byte. */
  lemma OneByteWillDo(n: nat)
    requires 2 <= n <= 256
    ensures BytesNeeded(n) == 1
  {
    BytesNeededIsMinimal(n);
    Pow2Byte(0);
    assert Pow2(1 * 8) >= n;
  }

  lemma ZeroSample(seed: nat, cursor: nat, n: nat)
    requires 2 <= n <= 256 && GoodSeed(seed) && cursor < STREAM_LENGTH
    ensures Sample(ZeroHash, seed, cursor, n) == Ok((0, cursor + 1))
  {
    OneByteWillDo(n);
    SamplerIsUnbiased(n);
    assert StreamByte(ZeroHash, seed, cursor) == 0;
    assert Stream(ZeroHash, seed, cursor, 1)[0] == StreamByte(ZeroHash, seed, cursor + 0);
    ZerosAreZero(Stream(ZeroHash, seed, cursor, 1));
    hide Stream;
    hide ByteRange;
    hide Threshold;
  }

  lemma {:induction false} ZeroDraws(seed: nat, cursor: nat, i: nat)
    requires i < 256 && GoodSeed(seed) && cursor + i < STREAM_LENGTH
    ensures Draws(ZeroHash, seed, cursor, i).Ok?
    decreases i
  {
    hide Sample;
    if i > 0 {
      ZeroSample(seed, cursor, i + 1);
      ZeroDraws(seed, cursor + 1, i - 1);
    }
  }

  /** There is a hash function for which every 128-bit seed has a wall. */
  lemma ZeroHashShuffles(seed: nat)
    requires GoodSeed(seed)
    ensures Wall(ZeroHash, seed).Ok?
  {
    ZeroDraws(seed, 0, DECK_SIZE - 1);
    hide Draws;
    hide Shuffle;
  }

  // --- every wall is possible ---

  /** The stream whose first bytes are these numbers. */
  function ChoiceHash(js: seq<Byte>): Hash {
    (seed: nat, block: nat) => seq(32, i requires 0 <= i < 32 => if 32 * block + i < |js| then js[32 * block + i] else 0)
  }

  lemma ChoiceByte(js: seq<Byte>, seed: nat, k: nat)
    ensures StreamByte(ChoiceHash(js), seed, k) == if k < |js| then js[k] else 0
  {
    assert 32 * (k / 32) + k % 32 == k;
  }

  /** A byte below n is accepted and is the result. */
  lemma ByteSample(sha: Hash, seed: nat, cursor: nat, n: nat)
    requires 2 <= n <= 256 && GoodSeed(seed) && cursor < STREAM_LENGTH && StreamByte(sha, seed, cursor) < n
    ensures Sample(sha, seed, cursor, n) == Ok((StreamByte(sha, seed, cursor), cursor + 1))
  {
    OneByteWillDo(n);
    ThresholdAtLeast(n);
    var bytes := Stream(sha, seed, cursor, 1);
    assert bytes[0] == StreamByte(sha, seed, cursor + 0) && bytes == [bytes[0]];
    assert bytes[..0] == [] && BigEndian([]) == 0;
    assert BigEndian(bytes) == bytes[0];
    RemainderOfSmall(bytes[0], n);
    hide Stream;
    hide ByteRange;
    hide Threshold;
  }

  lemma ThresholdAtLeast(n: nat)
    requires n >= 2
    ensures Threshold(n) >= n
  {
    BytesNeededIsMinimal(n);
    var x := ByteRange(n);
    assert x == n * (x / n) + x % n;
    MulAtLeast(n, x / n);
  }

  lemma RemainderOfSmall(x: nat, n: nat)
    requires x < n
    ensures x % n == x
  {
    ModUnique(x, n, 0, x);
  }

  lemma {:induction false} ChosenDraws(sha: Hash, seed: nat, cursor: nat, i: nat, js: seq<nat>)
    requires i < 256 && GoodSeed(seed) && cursor + i < STREAM_LENGTH && ValidChoices(i + 1, js)
    requires forall k :: 0 <= k < i ==> StreamByte(sha, seed, cursor + k) == js[k]
    ensures Draws(sha, seed, cursor, i) == Ok((js, cursor + i))
    decreases i
  {
    hide Sample;
    hide StreamByte;
    if i > 0 {
      assert StreamByte(sha, seed, cursor + 0) == js[0];
      ByteSample(sha, seed, cursor, i + 1);
      RestValid(i + 1, js);
      forall k | 0 <= k < i - 1 ensures StreamByte(sha, seed, cursor + 1 + k) == js[1..][k] {
        assert StreamByte(sha, seed, cursor + (k + 1)) == js[k + 1];
      }
      ChosenDraws(sha, seed, cursor + 1, i - 1, js[1..]);
      assert [js[0]] + js[1..] == js;
    }
  }

  /** No ordering of the tiles is out of reach: for each one and every seed there is a
      hash function that deals it, with one byte for each choice. */
  lemma EveryWallIsPossible(seed: nat, p: seq<Tile>) returns (sha: Hash)
    requires GoodSeed(seed) && IsPermutation(p, CanonicalTileSet())
    ensures Wall(sha, seed) == Ok((p, DECK_SIZE - 1))
  {
    hide CanonicalTileSet;
    hide Choices;
    var js := Choices(CanonicalTileSet(), p);
    EveryOrderingReached(CanonicalTileSet(), p);
    assert |js| == DECK_SIZE - 1;
    var bytes := BytesOf(js);
    sha := ChoiceHash(bytes);
    forall k | 0 <= k < DECK_SIZE - 1 ensures StreamByte(sha, seed, 0 + k) == js[k] {
      ChoiceByte(bytes, seed, k);
    }
    ChosenDraws(sha, seed, 0, DECK_SIZE - 1, js);
    hide Draws;
    hide Shuffle;
  }

  function BytesOf(js: seq<nat>): (bytes: seq<Byte>)
    requires forall k :: 0 <= k < |js| ==> js[k] < 256
    ensures |bytes| == |js| && forall k :: 0 <= k < |js| ==> bytes[k] == js[k]
  {
    seq<Byte>(|js|, k requires 0 <= k < |js| => js[k])
  }
}
