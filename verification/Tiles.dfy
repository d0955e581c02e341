/** Tile tokens, their canonical order and the 144-tile set.

    A tile is its position in the canonical order of the 42 tokens:
    W1-W9 are 0-8, B1-B9 are 9-17, T1-T9 are 18-26, F1-F4 are 27-30,
    J1-J3 are 31-33 and H1-H8 are 34-41. TokenValid and TokenInjective show that
    these positions stand for exactly the legal tokens. */
module Tiles {

  type Tile = t: int | 0 <= t < 42 witness 0

  const FIRST_HONOR: int := 27
  const EAST: Tile := 27
  const SOUTH: Tile := 28
  const WEST: Tile := 29
  const NORTH: Tile := 30
  const FIRST_FLOWER: int := 34
  const DECK_SIZE: int := 144

  /** tile.startswith("H") */
  predicate IsFlower(t: Tile) { FIRST_FLOWER <= t }

  /** The section prefix is one of "W", "B" and "T". */
  predicate IsSuited(t: Tile) { t < FIRST_HONOR }

  // --- tokens ---

  /** The section table: prefix, first tile, number of ranks, copies per rank. */
  datatype Section = Section(prefix: char, first: nat, ranks: nat, copies: nat)

  const SECTIONS: seq<Section> := [
    Section('W', 0, 9, 4), Section('B', 9, 9, 4), Section('T', 18, 9, 4),
    Section('F', 27, 4, 4), Section('J', 31, 3, 4), Section('H', 34, 8, 1)
  ]

  function SectionOf(t: Tile): (i: int)
    ensures 0 <= i < 6
    ensures SECTIONS[i].first <= t < SECTIONS[i].first + SECTIONS[i].ranks
  {
    if t < 9 then 0 else if t < 18 then 1 else if t < 27 then 2
    else if t < 31 then 3 else if t < 34 then 4 else 5
  }

  function Rank(t: Tile): (r: int)
    ensures 1 <= r <= SECTIONS[SectionOf(t)].ranks
  {
    t - SECTIONS[SectionOf(t)].first + 1
  }

  function Token(t: Tile): (s: string) {
    [SECTIONS[SectionOf(t)].prefix, '0' + Rank(t) as char]
  }

  /** validate_tile: two characters, a known prefix, a rank within the section. */
  predicate ValidateTile(s: string) {
    |s| == 2
    && exists i :: 0 <= i < 6 && s[0] == SECTIONS[i].prefix
                   && '1' <= s[1] <= '9' && (s[1] - '0') as int <= SECTIONS[i].ranks
  }

  /** validate_tile accepts exactly the tokens of the 42 tiles. */
  lemma TokenValid(s: string)
    ensures ValidateTile(s) <==> exists t: Tile :: Token(t) == s
  {
    if ValidateTile(s) {
      var i :| 0 <= i < 6 && s[0] == SECTIONS[i].prefix
               && '1' <= s[1] <= '9' && (s[1] - '0') as int <= SECTIONS[i].ranks;
      var t: Tile := SECTIONS[i].first + (s[1] - '0') as int - 1;
      assert SectionOf(t) == i;
      assert Token(t) == s;
    }
    forall t: Tile | Token(t) == s ensures ValidateTile(s) {
      assert s[0] == SECTIONS[SectionOf(t)].prefix;
    }
  }

  /** The tile of a legal token. */
  function TileOfToken(s: string): (t: Tile)
    requires ValidateTile(s)
    ensures Token(t) == s
  {
    var rank := (s[1] - '0') as int;
    if s[0] == 'W' then rank - 1
    else if s[0] == 'B' then 8 + rank
    else if s[0] == 'T' then 17 + rank
    else if s[0] == 'F' then 26 + rank
    else if s[0] == 'J' then 30 + rank
    else 33 + rank
  }

  lemma TokenInjective(t: Tile, u: Tile)
    requires Token(t) == Token(u)
    ensures t == u
  {
  }

  // --- the three orders the program sorts by ---

  /** tile_sort_key: a (section, rank) pair, compared lexicographically. */
  function TileSortKey(t: Tile): (int, int) { (SectionOf(t), Rank(t)) }

  predicate KeyBelow(a: (int, int), b: (int, int)) {
    a.0 < b.0 || (a.0 == b.0 && a.1 < b.1)
  }

  /** _tileSortKey of the browser client: suit * 10 + rank. */
  function ClientSortKey(t: Tile): int { SectionOf(t) * 10 + Rank(t) }

  /** The engine's key, the client's key and the canonical position order any
      two tiles the same way, so both sides sort a hand into the same list. */
  lemma OneCanonicalOrder(t: Tile, u: Tile)
    ensures t < u <==> KeyBelow(TileSortKey(t), TileSortKey(u))
    ensures t < u <==> ClientSortKey(t) < ClientSortKey(u)
  {
  }

  /** Where a tile stands when tokens are sorted as strings, which is what the
      legality rules do with sorted(): the prefixes run B, F, H, J, T, W. */
  function TokenRank(t: Tile): (k: int)
    ensures 0 <= k < 42 && TileAtTokenRank(k) == t
  {
    if t < 9 then t + 33 else if t < 18 then t - 9 else if t < 27 then t + 6
    else if t < 31 then t - 18 else if t < 34 then t - 10 else t - 21
  }

  function TileAtTokenRank(k: int): (t: Tile)
    requires 0 <= k < 42
  {
    if k < 9 then k + 9 else if k < 13 then k + 18 else if k < 21 then k + 21
    else if k < 24 then k + 10 else if k < 33 then k - 6 else k - 33
  }

  /** String comparison of two-character tokens. */
  ghost predicate TokenBelow(a: string, b: string)
    requires |a| == 2 && |b| == 2
  {
    a[0] < b[0] || (a[0] == b[0] && a[1] < b[1])
  }

  lemma TokenRankOrdersTokens(t: Tile, u: Tile)
    ensures TokenBelow(Token(t), Token(u)) <==> TokenRank(t) < TokenRank(u)
  {
  }

  // --- the canonical set ---

  /** Four copies of each of the 34 playable tiles, then the eight flowers. */
  function CanonicalTileSet(): (d: seq<Tile>)
    ensures |d| == DECK_SIZE
  {
    seq(DECK_SIZE, i requires 0 <= i < DECK_SIZE => if i < 136 then i / 4 else i - 102)
  }

  function DeckCopies(t: Tile): (n: nat) { if IsFlower(t) then 1 else 4 }

  /** canonical_tile_set: section by section, rank by rank. */
  method BuildCanonicalTileSet() returns (tiles: seq<Tile>)
    ensures tiles == CanonicalTileSet()
  {
    tiles := [];
    ghost var deck := CanonicalTileSet();
    for i := 0 to 6
      invariant |tiles| == (if i < 6 then 4 * SECTIONS[i].first else 144) && tiles == deck[..|tiles|]
    {
      var sec := SECTIONS[i];
      for rank := 1 to sec.ranks + 1
        invariant |tiles| == 4 * sec.first + sec.copies * (rank - 1) && tiles == deck[..|tiles|]
      {
        var t: Tile := sec.first + rank - 1;
        var more := seq(sec.copies, _ => t);
        assert |tiles| + |more| <= 144;
        assert forall k :: |tiles| <= k < |tiles| + |more| ==> deck[k] == t;
        tiles := tiles + more;
      }
    }
    assert deck[..144] == deck;
  }

  /** How often t occurs among the first n tiles of the canonical set. */
  lemma {:induction false} CanonicalPrefixCopies(n: nat, t: Tile)
    requires n <= DECK_SIZE
    ensures multiset(CanonicalTileSet()[..n])[t] ==
            if IsFlower(t) then (if n > t + 102 then 1 else 0)
            else if n <= 4 * t then 0 else if n >= 4 * t + 4 then 4 else n - 4 * t
  {
    if n > 0 {
      CanonicalPrefixCopies(n - 1, t);
      assert CanonicalTileSet()[..n] == CanonicalTileSet()[..n - 1] + [CanonicalTileSet()[n - 1]];
    }
  }

  /** The canonical set holds four copies of each playable tile and one of each flower. */
  lemma CanonicalCopies(t: Tile)
    ensures multiset(CanonicalTileSet())[t] == DeckCopies(t)
  {
    CanonicalPrefixCopies(DECK_SIZE, t);
    assert CanonicalTileSet()[..DECK_SIZE] == CanonicalTileSet();
  }

  /** The tokens by name: the suits W, B and T, winds F in the order East, South, West,
      North, dragons J, flowers H. */
  lemma TokensByName(t: Tile)
    ensures Token(EAST) == "F1" && Token(SOUTH) == "F2" && Token(WEST) == "F3" && Token(NORTH) == "F4"
    ensures |Token(t)| == 2
    ensures t < 27 ==> Token(t)[1] == '1' + (t % 9) as char
    ensures 31 <= t < 34 ==> Token(t)[1] == '1' + (t - 31) as char
    ensures IsFlower(t) ==> Token(t)[1] == '1' + (t - 34) as char
    ensures (t < 9 ==> Token(t)[0] == 'W') && (9 <= t < 18 ==> Token(t)[0] == 'B') && (18 <= t < 27 ==> Token(t)[0] == 'T')
    ensures (27 <= t < 31 ==> Token(t)[0] == 'F') && (31 <= t < 34 ==> Token(t)[0] == 'J')
    ensures IsFlower(t) <==> Token(t)[0] == 'H'
    ensures IsSuited(t) <==> Token(t)[0] in {'W', 'B', 'T'}
  {
  }
}
