/** The format table of `zwp_linux_dmabuf_feedback_v1`, and the indices into it. */
module FormatTable {
  import opened Wrappers
  import opened NativeBytes

  const U16 := 0x1_0000
  const U32 := 0x1_0000_0000
  const U64 := 0x1_0000_0000_0000_0000

  /** A table of this many entries no longer has a size that fits 32 bits. */
  const SIZE_LIMIT := 0x1000_0000

  type Fourcc = n: nat | n < U32
  type Modifier = n: nat | n < U64

  datatype Format = Format(fourcc: Fourcc, modifier: Modifier)

  // ---------------------------------------------------------------------------------------------
  // What is sent
  // ---------------------------------------------------------------------------------------------

  /** Four bytes of format, four of padding, eight of modifier. */
  function EntryBytes(e: Endian, f: Format): (r: seq<Byte>)
    ensures |r| == 16
  {
    ToBytes(e, f.fourcc, 4) + ToBytes(e, 0, 4) + ToBytes(e, f.modifier, 8)
  }

  function TableBytes(e: Endian, formats: seq<Format>): (r: seq<Byte>)
    ensures |r| == 16 * |formats|
  {
    if formats == [] then [] else TableBytes(e, formats[..|formats| - 1]) + EntryBytes(e, formats[|formats| - 1])
  }

  /** Both the cast of the length and the multiplication are in 32 bits. */
  function AnnouncedSize(n: nat): nat {
    n % U32 * 16 % U32
  }

  lemma TableGrows(e: Endian, formats: seq<Format>, i: nat)
    requires i < |formats|
    ensures TableBytes(e, formats[..i + 1]) == TableBytes(e, formats[..i]) + EntryBytes(e, formats[i])
  {
    assert formats[..i + 1][..i] == formats[..i];
  }

  method SendFormatTable(e: Endian, formats: seq<Format>) returns (file: seq<Byte>, size: nat)
    ensures file == TableBytes(e, formats)
    ensures size == |file| <==> |formats| < SIZE_LIMIT
    ensures size == 16 * (|formats| % SIZE_LIMIT)
  {
    size := |formats| % U32 * 16 % U32;
    file := WriteEntries(e, formats);
    SizeWraps(|formats|);
  }

  lemma EntryAppended(file: seq<Byte>, e: Endian, f: Format)
    ensures file + ToBytes(e, f.fourcc, 4) + ToBytes(e, 0, 4) + ToBytes(e, f.modifier, 8) == file + EntryBytes(e, f)
  {
    var (a, b, c) := (ToBytes(e, f.fourcc, 4), ToBytes(e, 0, 4), ToBytes(e, f.modifier, 8));
    assert file + a + b + c == file + (a + b + c);
  }

  method WriteEntries(e: Endian, formats: seq<Format>) returns (file: seq<Byte>)
    ensures file == TableBytes(e, formats)
  {
    file := [];
    var i := 0;
    while i < |formats|
      invariant 0 <= i <= |formats| && file == TableBytes(e, formats[..i])
    {
      TableGrows(e, formats, i);
      EntryAppended(file, e, formats[i]);
      file := file + ToBytes(e, formats[i].fourcc, 4);
      file := file + ToBytes(e, 0, 4);
      file := file + ToBytes(e, formats[i].modifier, 8);
      i := i + 1;
    }
    assert formats[..i] == formats;
  }

  lemma SizeWraps(n: nat)
    ensures AnnouncedSize(n) == 16 * (n % SIZE_LIMIT)
    ensures AnnouncedSize(n) == 16 * n <==> n < SIZE_LIMIT
  {
    var m := n % U32;
    assert n == U32 * (n / U32) + m;
    assert n == SIZE_LIMIT * (16 * (n / U32) + m / SIZE_LIMIT) + m % SIZE_LIMIT;
    UniqueRemainder(n, SIZE_LIMIT, 16 * (n / U32) + m / SIZE_LIMIT, m % SIZE_LIMIT);
    assert m * 16 == U32 * (m / SIZE_LIMIT) + 16 * (m % SIZE_LIMIT);
    UniqueRemainder(m * 16, U32, m / SIZE_LIMIT, 16 * (m % SIZE_LIMIT));
  }

  /** One index for each format, each cut to 16 bits. */
  function Indices(n: nat): (r: seq<nat>)
    ensures |r| == n
  {
    seq(n, i requires 0 <= i < n => i % U16)
  }

  function IndexBytes(e: Endian, formats: seq<Format>): seq<Byte> {
    ToArray(e, Indices(|formats|), 2)
  }

  // ---------------------------------------------------------------------------------------------
  // What the client reads
  // ---------------------------------------------------------------------------------------------

  /** The pair at an index, if it lies in what was announced. */
  function EntryAt(e: Endian, table: seq<Byte>, i: nat): Option<(nat, nat)> {
    if 16 * i + 16 > |table| then None else Some(DecodedEntry(e, table[16 * i..16 * i + 16]))
  }

  function DecodedEntry(e: Endian, entry: seq<Byte>): (nat, nat)
    requires |entry| == 16
  {
    (FromBytes(e, entry[0..4]), FromBytes(e, entry[8..16]))
  }

  /** The client maps `size` bytes of the file and looks up the indices it was sent. */
  function Received(e: Endian, file: seq<Byte>, size: nat, indexBytes: seq<Byte>): seq<Option<(nat, nat)>>
    requires size <= |file|
  {
    var indices := FromArray(e, indexBytes, 2);
    seq(|indices|, j requires 0 <= j < |indices| => EntryAt(e, file[..size], indices[j]))
  }

  function Pairs(formats: seq<Format>): seq<Option<(nat, nat)>> {
    seq(|formats|, i requires 0 <= i < |formats| => Some((formats[i].fourcc, formats[i].modifier)))
  }

  lemma SliceOfFirst(a: seq<Byte>, b: seq<Byte>, lo: nat, hi: nat)
    requires lo <= hi <= |a|
    ensures (a + b)[lo..hi] == a[lo..hi]
  {
  }

  lemma SliceOfSecond(a: seq<Byte>, b: seq<Byte>, lo: nat, hi: nat)
    requires lo == |a| && hi == |a| + |b|
    ensures (a + b)[lo..hi] == b
  {
  }

  lemma SliceOfTaken(t: seq<Byte>, size: nat, lo: nat, hi: nat)
    requires lo <= hi <= size <= |t|
    ensures t[..size][lo..hi] == t[lo..hi]
  {
  }

  lemma {:induction false} EntryIsThere(e: Endian, formats: seq<Format>, i: nat)
    requires i < |formats|
    ensures TableBytes(e, formats)[16 * i..16 * i + 16] == EntryBytes(e, formats[i])
    decreases |formats|
  {
    var n := |formats| - 1;
    var (before, last) := (TableBytes(e, formats[..n]), EntryBytes(e, formats[n]));
    if i < n {
      EntryIsThere(e, formats[..n], i);
      SliceOfFirst(before, last, 16 * i, 16 * i + 16);
    } else {
      SliceOfSecond(before, last, 16 * i, 16 * i + 16);
    }
  }

  lemma EntryFields(e: Endian, f: Format)
    ensures EntryBytes(e, f)[0..4] == ToBytes(e, f.fourcc, 4)
    ensures EntryBytes(e, f)[8..16] == ToBytes(e, f.modifier, 8)
  {
    var (a, b, c) := (ToBytes(e, f.fourcc, 4), ToBytes(e, 0, 4), ToBytes(e, f.modifier, 8));
    SliceOfFirst(a, b, 0, 4);
    SliceOfFirst(a + b, c, 0, 4);
    SliceOfSecond(a + b, c, 8, 16);
  }

  lemma EntryRoundTrip(e: Endian, f: Format)
    ensures DecodedEntry(e, EntryBytes(e, f)) == (f.fourcc, f.modifier)
  {
    PowersOf256();
    FittingRoundTrip(e, f.fourcc, 4);
    FittingRoundTrip(e, f.modifier, 8);
    EntryFields(e, f);
  }

  lemma EntryReadsBack(e: Endian, formats: seq<Format>, i: nat, size: nat)
    requires i < |formats| && 16 * i + 16 <= size <= 16 * |formats|
    ensures EntryAt(e, TableBytes(e, formats)[..size], i) == Some((formats[i].fourcc, formats[i].modifier))
  {
    EntryIsThere(e, formats, i);
    SliceOfTaken(TableBytes(e, formats), size, 16 * i, 16 * i + 16);
    EntryRoundTrip(e, formats[i]);
  }

  /** The whole exchange for a list of formats. */
  function RoundTrip(e: Endian, formats: seq<Format>): seq<Option<(nat, nat)>> {
    SizeWraps(|formats|);
    Received(e, TableBytes(e, formats), 16 * (|formats| % SIZE_LIMIT), IndexBytes(e, formats))
  }

  /** The client finds format `i` where it looks for it: the index, cut to 16 bits, is inside the
      announced size and leads to the same pair. */
  predicate FoundAt(formats: seq<Format>, i: nat)
    requires i < |formats|
  {
    i % U16 < |formats| % SIZE_LIMIT && formats[i % U16] == formats[i]
  }

  lemma IndicesReadBack(e: Endian, n: nat)
    ensures FromArray(e, ToArray(e, Indices(n), 2), 2) == Indices(n)
  {
    ArrayRoundTrip(e, Indices(n), 2);
    PowersOf256();
  }

  lemma RoundTripAt(e: Endian, formats: seq<Format>, i: nat)
    requires i < |formats|
    ensures |RoundTrip(e, formats)| == |formats|
    ensures RoundTrip(e, formats)[i] == Pairs(formats)[i] <==> FoundAt(formats, i)
  {
    IndicesReadBack(e, |formats|);
    var j := i % U16;
    assert Indices(|formats|)[i] == j;
    var size := 16 * (|formats| % SIZE_LIMIT);
    if j < |formats| % SIZE_LIMIT {
      EntryReadsBack(e, formats, j, size);
    }
  }

  lemma RoundTripLength(e: Endian, formats: seq<Format>)
    ensures |RoundTrip(e, formats)| == |Pairs(formats)| == |formats|
  {
    IndicesReadBack(e, |formats|);
  }

  lemma SameIffSameAt<T>(s: seq<T>, t: seq<T>)
    requires |s| == |t|
    ensures s == t <==> forall i | 0 <= i < |s| :: s[i] == t[i]
  {
  }

  /** The client gets the list back, in order, exactly when every format is found where it looks. */
  lemma RoundTripIff(e: Endian, formats: seq<Format>)
    ensures RoundTrip(e, formats) == Pairs(formats) <==> forall i | 0 <= i < |formats| :: FoundAt(formats, i)
  {
    RoundTripLength(e, formats);
    SameIffSameAt(RoundTrip(e, formats), Pairs(formats));
    forall i | 0 <= i < |formats|
      ensures RoundTrip(e, formats)[i] == Pairs(formats)[i] <==> FoundAt(formats, i)
    {
      RoundTripAt(e, formats, i);
    }
  }

  lemma ShortIsFound(formats: seq<Format>)
    requires |formats| <= U16
    ensures forall i | 0 <= i < |formats| :: FoundAt(formats, i)
  {
  }

  /** So it does for every list that 16-bit indices can reach. */
  lemma ShortTablesRoundTrip(e: Endian, formats: seq<Format>)
    requires |formats| <= U16
    ensures RoundTrip(e, formats) == Pairs(formats)
  {
    ShortIsFound(formats);
    RoundTripIff(e, formats);
  }

  lemma LongIsNotFound(formats: seq<Format>)
    requires |formats| > U16 && forall i, j | 0 <= i < j < |formats| :: formats[i] != formats[j]
    ensures !FoundAt(formats, U16)
  {
    assert formats[0] != formats[U16];
  }

  /** And for no longer list without duplicates. */
  lemma RoundTripIffShort(e: Endian, formats: seq<Format>)
    requires forall i, j | 0 <= i < j < |formats| :: formats[i] != formats[j]
    ensures RoundTrip(e, formats) == Pairs(formats) <==> |formats| <= U16
  {
    if |formats| <= U16 {
      ShortTablesRoundTrip(e, formats);
    } else {
      LongIsNotFound(formats);
      RoundTripIff(e, formats);
    }
  }
}
