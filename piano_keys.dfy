/**
 * The client's table of playable computer keys: three octaves of twelve
 * notes, each note bound to one keyboard character and drawn as a white or
 * a black piano key. The validator `validPianoKeys.includes` accepts exactly
 * the characters the table lists.
 */
module PianoKeys {
  datatype KeyColor = White | Black

  /** The table, in pitch order (octaves 3, 4 and 5). */
  const Table: seq<(char, KeyColor)> := [
    ('q', White), ('2', Black), ('w', White), ('3', Black), ('e', White),
    ('r', White), ('5', Black), ('t', White), ('6', Black), ('y', White), ('7', Black), ('u', White),
    ('i', White), ('9', Black), ('o', White), ('0', Black), ('p', White),
    ('z', White), ('s', Black), ('x', White), ('d', Black), ('c', White), ('f', Black), ('v', White),
    ('b', White), ('h', Black), ('n', White), ('j', Black), ('m', White),
    (',', White), ('l', Black), ('.', White), (';', Black), ('/', White), ('\'', Black), ('\\', White)
  ]

  /** The colours of one octave of a piano, from C to B. */
  const Octave: seq<KeyColor> := [White, Black, White, Black, White, White, Black, White, Black, White, Black, White]

  /** The first components of a table, in order (`validPianoKeys` is this of `Table`). */
  function Keys(table: seq<(char, KeyColor)>): (r: seq<char>)
    ensures |r| == |table|
    ensures forall i :: 0 <= i < |r| ==> r[i] == table[i].0
  {
    seq(|table|, i requires 0 <= i < |table| => table[i].0)
  }

  /** The second components, in order. */
  function Colors(table: seq<(char, KeyColor)>): (r: seq<KeyColor>)
    ensures |r| == |table|
    ensures forall i :: 0 <= i < |r| ==> r[i] == table[i].1
  {
    seq(|table|, i requires 0 <= i < |table| => table[i].1)
  }

  const ValidPianoKeys: seq<char> := Keys(Table)

  /** `validPianoKeys.includes(c)`: the validator the keydown handler applies to the lower-cased key. */
  predicate IsPianoKey(c: char) {
    c in ValidPianoKeys
  }

  predicate Distinct(s: seq<char>) {
    forall i, j :: 0 <= i < j < |s| ==> s[i] != s[j]
  }

  /** A colour sequence made of whole octaves. */
  predicate FollowsOctaves(cs: seq<KeyColor>) {
    |cs| % 12 == 0 && forall i :: 0 <= i < |cs| ==> cs[i] == Octave[i % 12]
  }

  /** The table: 36 keys, pairwise distinct characters, three whole octaves. */
  lemma TableShape()
    ensures |Table| == 36
    ensures Distinct(ValidPianoKeys)
    ensures FollowsOctaves(Colors(Table))
  {
    TableKeysDistinct();
    TableColorsRepeat();
    var keys, cs := ValidPianoKeys, Colors(Table);
    assert forall i :: 0 <= i < |keys| ==> keys[i] == Table[i].0;
    assert forall i :: 0 <= i < |cs| ==> cs[i] == Table[i].1;
  }

  lemma TableKeysDistinct()
    ensures |Table| == 36
    ensures forall i, j :: 0 <= i < j < |Table| ==> Table[i].0 != Table[j].0
  {
  }

  lemma TableColorsRepeat()
    ensures forall i :: 0 <= i < |Table| ==> Table[i].1 == Octave[i % 12]
  {
  }

  /** Dropping the first octave leaves whole octaves. */
  lemma DropOctave(cs: seq<KeyColor>)
    requires FollowsOctaves(cs) && |cs| >= 12
    ensures FollowsOctaves(cs[12..])
    ensures cs[..12] == Octave
  {
    var rest := cs[12..];
    forall i | 0 <= i < |rest|
      ensures rest[i] == Octave[i % 12]
    {
      assert rest[i] == cs[i + 12];
      assert (i + 12) % 12 == i % 12;
    }
  }

  /** Each whole octave holds seven white and five black keys. */
  lemma {:induction false} OctaveCounts(cs: seq<KeyColor>)
    requires FollowsOctaves(cs)
    ensures multiset(cs)[White] == 7 * (|cs| / 12)
    ensures multiset(cs)[Black] == 5 * (|cs| / 12)
    decreases |cs|
  {
    if |cs| > 0 {
      DropOctave(cs);
      OctaveCounts(cs[12..]);
      assert cs == cs[..12] + cs[12..];
      assert multiset(cs) == multiset(Octave) + multiset(cs[12..]);
    }
  }

  /** Whole octaves start and end on a white key and never put two black keys side by side. */
  lemma OctaveNeighbours(cs: seq<KeyColor>)
    requires FollowsOctaves(cs) && |cs| > 0
    ensures cs[0] == White && cs[|cs| - 1] == White
    ensures forall i :: 0 <= i < |cs| - 1 ==> !(cs[i] == Black && cs[i + 1] == Black)
  {
    assert (|cs| - 1) % 12 == 11;
    forall i | 0 <= i < |cs| - 1
      ensures !(cs[i] == Black && cs[i + 1] == Black)
    {
      if i % 12 == 11 {
        assert (i + 1) % 12 == 0;
      } else {
        assert (i + 1) % 12 == i % 12 + 1;
      }
    }
  }

  /** Any slice of whole octaves starting at an octave boundary is whole octaves. */
  lemma OctaveBlock(cs: seq<KeyColor>, b: nat)
    requires FollowsOctaves(cs) && 12 * b + 12 <= |cs|
    ensures FollowsOctaves(cs[12 * b .. 12 * b + 12])
  {
    var block := cs[12 * b .. 12 * b + 12];
    forall i | 0 <= i < 12
      ensures block[i] == Octave[i % 12]
    {
      assert block[i] == cs[12 * b + i];
      assert (12 * b + i) % 12 == i;
    }
  }

  /** 21 white and 15 black keys. */
  lemma TableCounts()
    ensures multiset(Colors(Table))[White] == 21 && multiset(Colors(Table))[Black] == 15
  {
    TableShape();
    OctaveCounts(Colors(Table));
  }

  /** Seven white and five black keys in each twelve-key block. */
  lemma TableBlocks()
    ensures forall b :: 0 <= b < 3 ==>
              multiset(Colors(Table)[12 * b .. 12 * b + 12])[White] == 7 &&
              multiset(Colors(Table)[12 * b .. 12 * b + 12])[Black] == 5
  {
    TableShape();
    var cs := Colors(Table);
    forall b | 0 <= b < 3
      ensures multiset(cs[12 * b .. 12 * b + 12])[White] == 7 && multiset(cs[12 * b .. 12 * b + 12])[Black] == 5
    {
      OctaveBlock(cs, b);
      OctaveCounts(cs[12 * b .. 12 * b + 12]);
    }
  }

  /** White keys at both ends, and never two black keys side by side. */
  lemma TableNeighbours()
    ensures Table[0].1 == White && Table[|Table| - 1].1 == White
    ensures forall i :: 0 <= i < |Table| - 1 ==> !(Table[i].1 == Black && Table[i + 1].1 == Black)
  {
    TableShape();
    var cs := Colors(Table);
    OctaveNeighbours(cs);
    assert forall i :: 0 <= i < |Table| ==> Table[i].1 == cs[i];
  }

  /** Distinct characters make a set as large as the sequence. */
  lemma {:induction false} DistinctCardinality(s: seq<char>)
    requires Distinct(s)
    ensures |set c | c in s| == |s|
  {
    if |s| > 0 {
      var rest := s[1..];
      assert Distinct(rest) by {
        forall i, j | 0 <= i < j < |rest| ensures rest[i] != rest[j] {
          assert rest[i] == s[i + 1] && rest[j] == s[j + 1];
        }
      }
      DistinctCardinality(rest);
      assert s[0] !in rest by {
        forall j | 0 <= j < |rest| ensures rest[j] != s[0] {
          assert rest[j] == s[j + 1];
        }
      }
      assert (set c | c in s) == {s[0]} + (set c | c in rest);
    }
  }

  /** The validator accepts exactly 36 characters, the table's. */
  lemma AcceptedKeys()
    ensures |set c | IsPianoKey(c)| == 36
    ensures forall c :: IsPianoKey(c) <==> exists i :: 0 <= i < |Table| && Table[i].0 == c
  {
    TableShape();
    DistinctCardinality(ValidPianoKeys);
    assert (set c | IsPianoKey(c)) == (set c | c in ValidPianoKeys);
  }
}
