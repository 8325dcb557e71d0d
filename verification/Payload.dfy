/** src/payload.rs: the single-file release container, byte by byte:
    [setup][data...][table of contents][footer]. The digest is any function from bytes to
    32 bytes; names are byte strings. */
module Payload {
  import opened Types

  type Digest = s: Bytes | |s| == 32 witness seq(32, i => 0)

  datatype Entry = Entry(name: Bytes, data: Bytes)

  /** "GDUTPAK1" */
  const MAGIC: Bytes := [0x47, 0x44, 0x55, 0x54, 0x50, 0x41, 0x4B, 0x31]
  const VERSION: nat := 1
  const FOOTER_LEN: nat := 24
  const MIN_ENTRY: nat := 51
  const U16: nat := 0x1_0000
  const U32: nat := 0x1_0000_0000
  const U64: nat := 0x1_0000_0000_0000_0000

  // ---------------------------------------------------------------------------
  // Little-endian numbers
  // ---------------------------------------------------------------------------

  function Pow256(k: nat): nat { if k == 0 then 1 else 256 * Pow256(k - 1) }

  function Le(n: nat, k: nat): (b: Bytes)
    ensures |b| == k
  {
    if k == 0 then [] else [n % 256] + Le(n / 256, k - 1)
  }

  function FromLe(b: Bytes): nat { if b == [] then 0 else b[0] + 256 * FromLe(b[1..]) }

  lemma {:induction false} FromLeOfLe(n: nat, k: nat)
    requires n < Pow256(k)
    ensures FromLe(Le(n, k)) == n
  {
    if k > 0 {
      assert Le(n, k)[1..] == Le(n / 256, k - 1);
      FromLeOfLe(n / 256, k - 1);
    }
  }

  lemma {:induction false} LeOfFromLe(b: Bytes)
    ensures FromLe(b) < Pow256(|b|) && Le(FromLe(b), |b|) == b
  {
    if b != [] {
      LeOfFromLe(b[1..]);
      assert FromLe(b) / 256 == FromLe(b[1..]) && FromLe(b) % 256 == b[0];
    }
  }

  lemma Widths()
    ensures Pow256(2) == U16 && Pow256(4) == U32 && Pow256(8) == U64
  {
    assert Pow256(2) == 256 * Pow256(1) && Pow256(1) == 256 * Pow256(0);
    assert Pow256(4) == 256 * Pow256(3) && Pow256(3) == 256 * Pow256(2);
    assert Pow256(6) == 256 * Pow256(5) && Pow256(5) == 256 * Pow256(4);
    assert Pow256(8) == 256 * Pow256(7) && Pow256(7) == 256 * Pow256(6);
  }

  // ---------------------------------------------------------------------------
  // Names
  // ---------------------------------------------------------------------------

  predicate Tail(b: Byte) { 0x80 <= b <= 0xBF }

  /** Well-formed UTF-8, table 3-7 of the Unicode Standard. */
  predicate Utf8(s: Bytes) {
    if s == [] then true
    else if s[0] < 0x80 then Utf8(s[1..])
    else if 0xC2 <= s[0] <= 0xDF then |s| >= 2 && Tail(s[1]) && Utf8(s[2..])
    else if 0xE0 <= s[0] <= 0xEF then
      |s| >= 3 && Tail(s[1]) && Tail(s[2]) && (s[0] == 0xE0 ==> s[1] >= 0xA0) && (s[0] == 0xED ==> s[1] < 0xA0) && Utf8(s[3..])
    else
      0xF0 <= s[0] <= 0xF4 && |s| >= 4 && Tail(s[1]) && Tail(s[2]) && Tail(s[3])
      && (s[0] == 0xF0 ==> s[1] >= 0x90) && (s[0] == 0xF4 ==> s[1] < 0x90) && Utf8(s[4..])
  }

  /** `validate_name`: not empty, no path separator or colon, no "..", no control
      character (U+0000 to U+001F, U+007F, and U+0080 to U+009F, whose UTF-8 starts with C2). */
  predicate ValidName(s: Bytes) {
    && s != []
    && (forall i | 0 <= i < |s| :: s[i] !in {0x2F, 0x5C, 0x3A, 0x7F} && s[i] >= 0x20)
    && (forall i | 0 <= i < |s| - 1 :: !(s[i] == 0x2E && s[i + 1] == 0x2E))
    && (forall i | 0 <= i < |s| - 1 :: !(s[i] == 0xC2 && s[i + 1] < 0xA0))
  }

  // ---------------------------------------------------------------------------
  // The format
  // ---------------------------------------------------------------------------

  function EntryBytes(name: Bytes, offset: nat, len: nat, digest: Digest): Bytes {
    Le(|name|, 2) + name + Le(offset, 8) + Le(len, 8) + digest
  }

  function Footer(count: nat, tocOffset: nat): Bytes {
    MAGIC + Le(VERSION, 4) + Le(count % U32, 4) + Le(tocOffset % U64, 8)
  }

  /** The table that lists these entries at these offsets. */
  function Table(hash: Bytes -> Digest, es: seq<Entry>, offs: seq<nat>): Bytes
    requires |es| == |offs|
  {
    if es == [] then []
    else EntryBytes(es[0].name, offs[0], |es[0].data|, hash(es[0].data)) + Table(hash, es[1..], offs[1..])
  }

  /** One entry may stand in a container whose data area is the first `tocOffset` bytes of `exe`. */
  predicate Listed(exe: Bytes, tocOffset: nat, e: Entry, off: nat) {
    && Utf8(e.name) && ValidName(e.name) && |e.name| < U16
    && off + |e.data| <= tocOffset <= |exe| && tocOffset < U64
    && exe[off..off + |e.data|] == e.data
  }

  /** `exe` is a container of exactly these entries: its table is tiled by them without gap
      or trailing byte, each datum lies before the table, each digest is right, and the
      footer counts them. */
  predicate Container(hash: Bytes -> Digest, exe: Bytes, tocOffset: nat, es: seq<Entry>, offs: seq<nat>) {
    && |es| == |offs| && |es| < U32
    && tocOffset <= |exe| && tocOffset < U64
    && exe[tocOffset..] == Table(hash, es, offs) + Footer(|es|, tocOffset)
    && forall i | 0 <= i < |es| :: Listed(exe, tocOffset, es[i], offs[i])
  }

  // ---------------------------------------------------------------------------
  // Reading
  // ---------------------------------------------------------------------------

  datatype Reason = BadVersion | BadTocOffset | OverCapacity | Truncated | EntryTruncated | NotUtf8 | BadName
                  | OutOfRange | BadChecksum | TrailingBytes

  datatype Unpacked = NotPacked | Contents(entries: seq<Entry>) | Corrupt(reason: Reason)

  datatype Parsed = Parsed(entry: Entry, offset: nat, size: nat) | Bad(reason: Reason)

  /** The entry at the head of what is left of the table. */
  function ParseOne(hash: Bytes -> Digest, exe: Bytes, tocOffset: nat, toc: Bytes): (p: Parsed)
    requires tocOffset <= |exe|
    ensures p.Parsed? ==> MIN_ENTRY <= p.size <= |toc|
  {
    if |toc| < 2 then Bad(Truncated)
    else
      var n := FromLe(toc[..2]);
      if |toc| < 2 + n + 48 then Bad(EntryTruncated)
      else
        var name := toc[2..2 + n];
        if !Utf8(name) then Bad(NotUtf8)
        else if !ValidName(name) then Bad(BadName)
        else
          var offset, len := FromLe(toc[2 + n..10 + n]), FromLe(toc[10 + n..18 + n]);
          if offset + len >= U64 || offset + len > tocOffset then Bad(OutOfRange)
          else if hash(exe[offset..offset + len]) != toc[18 + n..50 + n] then Bad(BadChecksum)
          else Parsed(Entry(name, exe[offset..offset + len]), offset, 50 + n)
  }

  function ParseAll(hash: Bytes -> Digest, exe: Bytes, tocOffset: nat, toc: Bytes, count: nat): Unpacked
    requires tocOffset <= |exe|
  {
    if count == 0 then (if toc == [] then Contents([]) else Corrupt(TrailingBytes))
    else
      match ParseOne(hash, exe, tocOffset, toc)
      case Bad(reason) => Corrupt(reason)
      case Parsed(e, _, size) => Prepend([e], ParseAll(hash, exe, tocOffset, toc[size..], count - 1))
  }

  function Prepend(es: seq<Entry>, r: Unpacked): Unpacked {
    if r.Contents? then Contents(es + r.entries) else r
  }

  function Unpack(hash: Bytes -> Digest, exe: Bytes): Unpacked {
    if |exe| < FOOTER_LEN then NotPacked
    else
      var tocEnd := |exe| - FOOTER_LEN;
      var footer := exe[tocEnd..];
      if footer[..8] != MAGIC then NotPacked
      else if FromLe(footer[8..12]) != VERSION then Corrupt(BadVersion)
      else
        var count, tocOffset := FromLe(footer[12..16]), FromLe(footer[16..24]);
        if tocOffset > tocEnd then Corrupt(BadTocOffset)
        else if count > (tocEnd - tocOffset) / MIN_ENTRY then Corrupt(OverCapacity)
        else ParseAll(hash, exe, tocOffset, exe[tocOffset..tocEnd], count)
  }

  /** The loop of the source, with its cursor into the table. */
  method UnpackFile(hash: Bytes -> Digest, exe: Bytes) returns (r: Unpacked)
    ensures r == Unpack(hash, exe)
  {
    hide ParseAll;
    if |exe| < FOOTER_LEN { return NotPacked; }
    var footer := exe[|exe| - FOOTER_LEN..];
    if footer[..8] != MAGIC { return NotPacked; }
    if FromLe(footer[8..12]) != VERSION { return Corrupt(BadVersion); }
    var count, tocOffset := FromLe(footer[12..16]), FromLe(footer[16..24]);
    var tocEnd := |exe| - FOOTER_LEN;
    if tocOffset > tocEnd { return Corrupt(BadTocOffset); }
    var toc := exe[tocOffset..tocEnd];
    if count > |toc| / MIN_ENTRY { return Corrupt(OverCapacity); }
    r := ParseTable(hash, exe, tocOffset, toc, count);
  }

  method ParseTable(hash: Bytes -> Digest, exe: Bytes, tocOffset: nat, toc: Bytes, count: nat) returns (r: Unpacked)
    requires tocOffset <= |exe|
    ensures r == ParseAll(hash, exe, tocOffset, toc, count)
  {
    hide ParseOne;
    var pos: nat, entries: seq<Entry> := 0, [];
    for i := 0 to count
      invariant pos <= |toc|
      invariant ParseAll(hash, exe, tocOffset, toc, count)
             == Prepend(entries, ParseAll(hash, exe, tocOffset, toc[pos..], count - i))
    {
      var p := ParseOne(hash, exe, tocOffset, toc[pos..]);
      if p.Bad? { return Corrupt(p.reason); }
      assert toc[pos..][p.size..] == toc[pos + p.size..];
      PrependAssoc(entries, p.entry, ParseAll(hash, exe, tocOffset, toc[pos + p.size..], count - i - 1));
      entries := entries + [p.entry];
      pos := pos + p.size;
    }
    if pos != |toc| { return Corrupt(TrailingBytes); }
    r := Contents(entries);
  }

  lemma PrependAssoc(es: seq<Entry>, e: Entry, r: Unpacked)
    ensures Prepend(es, Prepend([e], r)) == Prepend(es + [e], r)
  {
    if r.Contents? { assert es + ([e] + r.entries) == es + [e] + r.entries; }
  }

  // ---------------------------------------------------------------------------
  // Reading is sound and complete
  // ---------------------------------------------------------------------------

  lemma ParseOneSound(hash: Bytes -> Digest, exe: Bytes, tocOffset: nat, toc: Bytes)
    requires tocOffset <= |exe| < U64 && ParseOne(hash, exe, tocOffset, toc).Parsed?
    ensures var p := ParseOne(hash, exe, tocOffset, toc);
            && Listed(exe, tocOffset, p.entry, p.offset)
            && toc[..p.size] == EntryBytes(p.entry.name, p.offset, |p.entry.data|, hash(p.entry.data))
  {
    hide Utf8, ValidName, FromLe, Le;
    var p := ParseOne(hash, exe, tocOffset, toc);
    var n := FromLe(toc[..2]);
    LeOfFromLe(toc[..2]);
    LeOfFromLe(toc[2 + n..10 + n]);
    LeOfFromLe(toc[10 + n..18 + n]);
    Widths();
    assert toc[..50 + n] == toc[..2] + toc[2..2 + n] + toc[2 + n..10 + n] + toc[10 + n..18 + n] + toc[18 + n..50 + n];
  }

  lemma FiveParts(a: Bytes, b: Bytes, c: Bytes, d: Bytes, e: Bytes, rest: Bytes)
    ensures var s := a + b + c + d + e + rest;
            var i := |a| + |b|; var j := i + |c|; var k := j + |d|;
            s[..|a|] == a && s[|a|..i] == b && s[i..j] == c && s[j..k] == d && s[k..k + |e|] == e
  {}

  lemma ParseOneComplete(hash: Bytes -> Digest, exe: Bytes, tocOffset: nat, e: Entry, off: nat, rest: Bytes)
    requires Listed(exe, tocOffset, e, off)
    ensures var b := EntryBytes(e.name, off, |e.data|, hash(e.data));
            ParseOne(hash, exe, tocOffset, b + rest) == Parsed(e, off, |b|)
  {
    hide FromLe, Le, Pow256, Utf8, ValidName;
    var n := |e.name|;
    Widths();
    FromLeOfLe(n, 2);
    FromLeOfLe(off, 8);
    FromLeOfLe(|e.data|, 8);
    FiveParts(Le(n, 2), e.name, Le(off, 8), Le(|e.data|, 8), hash(e.data), rest);
  }

  lemma {:induction false} ParseAllSound(hash: Bytes -> Digest, exe: Bytes, tocOffset: nat, toc: Bytes, count: nat)
    returns (offs: seq<nat>)
    requires tocOffset <= |exe| < U64 && ParseAll(hash, exe, tocOffset, toc, count).Contents?
    ensures var es := ParseAll(hash, exe, tocOffset, toc, count).entries;
            && |es| == |offs| == count
            && toc == Table(hash, es, offs)
            && forall i | 0 <= i < |es| :: Listed(exe, tocOffset, es[i], offs[i])
  {
    hide ParseOne, Listed, EntryBytes;
    if count == 0 {
      offs := [];
    } else {
      var p := ParseOne(hash, exe, tocOffset, toc);
      ParseOneSound(hash, exe, tocOffset, toc);
      var more := ParseAllSound(hash, exe, tocOffset, toc[p.size..], count - 1);
      offs := [p.offset] + more;
      var es := ParseAll(hash, exe, tocOffset, toc, count).entries;
      assert es[1..] == ParseAll(hash, exe, tocOffset, toc[p.size..], count - 1).entries && offs[1..] == more;
      assert toc == toc[..p.size] + toc[p.size..];
    }
  }

  lemma {:induction false} ParseAllComplete(hash: Bytes -> Digest, exe: Bytes, tocOffset: nat, es: seq<Entry>, offs: seq<nat>)
    requires |es| == |offs| && tocOffset <= |exe|
    requires forall i | 0 <= i < |es| :: Listed(exe, tocOffset, es[i], offs[i])
    ensures ParseAll(hash, exe, tocOffset, Table(hash, es, offs), |es|) == Contents(es)
    ensures |Table(hash, es, offs)| >= MIN_ENTRY * |es|
  {
    if es != [] {
      var b := EntryBytes(es[0].name, offs[0], |es[0].data|, hash(es[0].data));
      var rest := Table(hash, es[1..], offs[1..]);
      ParseOneComplete(hash, exe, tocOffset, es[0], offs[0], rest);
      ParseAllComplete(hash, exe, tocOffset, es[1..], offs[1..]);
      assert (b + rest)[|b|..] == rest;
      assert [es[0]] + es[1..] == es;
    }
  }

  lemma FourParts(a: Bytes, b: Bytes, c: Bytes, d: Bytes)
    ensures var s := a + b + c + d; var i, j := |a| + |b|, |a| + |b| + |c|;
            s[..|a|] == a && s[|a|..i] == b && s[i..j] == c && s[j..] == d && s[j..j + |d|] == d
  {}

  lemma FooterParts(count: nat, tocOffset: nat)
    requires count < U32 && tocOffset < U64
    ensures var f := Footer(count, tocOffset);
            && |f| == FOOTER_LEN && f[..8] == MAGIC && FromLe(f[8..12]) == VERSION
            && FromLe(f[12..16]) == count && FromLe(f[16..24]) == tocOffset
  {
    hide FromLe, Le, Pow256;
    Widths();
    FromLeOfLe(VERSION, 4);
    FromLeOfLe(count, 4);
    FromLeOfLe(tocOffset, 8);
    FourParts(MAGIC, Le(VERSION, 4), Le(count, 4), Le(tocOffset, 8));
  }

  lemma FooterFromParts(f: Bytes)
    requires |f| == FOOTER_LEN && f[..8] == MAGIC && FromLe(f[8..12]) == VERSION
    ensures FromLe(f[12..16]) < U32 && FromLe(f[16..24]) < U64 && f == Footer(FromLe(f[12..16]), FromLe(f[16..24]))
  {
    hide FromLe, Le, Pow256;
    Widths();
    LeOfFromLe(f[8..12]);
    LeOfFromLe(f[12..16]);
    LeOfFromLe(f[16..24]);
    assert f == f[..8] + f[8..12] + f[12..16] + f[16..24];
  }

  /** Whatever unpacks is a container of exactly what came out. */
  lemma UnpackSound(hash: Bytes -> Digest, exe: Bytes) returns (tocOffset: nat, offs: seq<nat>)
    requires |exe| < U64 && Unpack(hash, exe).Contents?
    ensures Container(hash, exe, tocOffset, Unpack(hash, exe).entries, offs)
  {
    hide Table, Listed, Footer, ParseAll, FromLe;
    var tocEnd := |exe| - FOOTER_LEN;
    var footer := exe[tocEnd..];
    var count := FromLe(footer[12..16]);
    tocOffset := FromLe(footer[16..24]);
    FooterFromParts(footer);
    offs := ParseAllSound(hash, exe, tocOffset, exe[tocOffset..tocEnd], count);
    assert exe[tocOffset..] == exe[tocOffset..tocEnd] + footer;
  }

  /** And every container unpacks to its entries. */
  lemma UnpackComplete(hash: Bytes -> Digest, exe: Bytes, tocOffset: nat, es: seq<Entry>, offs: seq<nat>)
    requires Container(hash, exe, tocOffset, es, offs)
    ensures Unpack(hash, exe) == Contents(es)
  {
    hide Table, Listed, Footer, ParseAll, FromLe;
    var table, footer := Table(hash, es, offs), Footer(|es|, tocOffset);
    FooterParts(|es|, tocOffset);
    ParseAllComplete(hash, exe, tocOffset, es, offs);
    var tocEnd := |exe| - FOOTER_LEN;
    assert |exe| == tocOffset + |table| + FOOTER_LEN;
    assert exe[tocEnd..] == exe[tocOffset..][|table|..] == footer;
    assert exe[tocOffset..tocEnd] == exe[tocOffset..][..|table|] == table;
  }

  /** Unpacking accepts a file as these entries if and only if it is a container of them. */
  lemma UnpackIsExact(hash: Bytes -> Digest, exe: Bytes, es: seq<Entry>)
    requires |exe| < U64
    ensures Unpack(hash, exe) == Contents(es) <==> exists tocOffset, offs :: Container(hash, exe, tocOffset, es, offs)
  {
    if Unpack(hash, exe) == Contents(es) {
      var tocOffset, offs := UnpackSound(hash, exe);
    }
    if tocOffset, offs :| Container(hash, exe, tocOffset, es, offs) {
      UnpackComplete(hash, exe, tocOffset, es, offs);
    }
  }

  /** A file is taken for an ordinary program exactly when the magic does not stand sixteen bytes
      before its end; any other file either unpacks or is reported corrupt. */
  lemma NotPackedIffNoMagic(hash: Bytes -> Digest, exe: Bytes)
    ensures Unpack(hash, exe).NotPacked? <==> !exists front, rest :: exe == front + MAGIC + rest && |rest| == 16
  {
    hide ParseAll, FromLe;
    if |exe| >= FOOTER_LEN {
      var front, footer := exe[..|exe| - FOOTER_LEN], exe[|exe| - FOOTER_LEN..];
      if footer[..8] == MAGIC { assert exe == front + MAGIC + footer[8..]; }
    }
    if front, rest :| exe == front + MAGIC + rest && |rest| == 16 {
      assert exe[|exe| - FOOTER_LEN..] == MAGIC + rest;
    }
    if |exe| >= FOOTER_LEN && exe[|exe| - FOOTER_LEN..][..8] == MAGIC { ParsedIsPacked(hash, exe); }
  }

  lemma ParsedIsPacked(hash: Bytes -> Digest, exe: Bytes)
    requires |exe| >= FOOTER_LEN && exe[|exe| - FOOTER_LEN..][..8] == MAGIC
    ensures !Unpack(hash, exe).NotPacked?
  {
    hide ParseAll, FromLe;
    var tocEnd := |exe| - FOOTER_LEN;
    var count, tocOffset := FromLe(exe[tocEnd..][12..16]), FromLe(exe[tocEnd..][16..24]);
    if tocOffset <= tocEnd { TableIsPacked(hash, exe, tocOffset, exe[tocOffset..tocEnd], count); }
  }

  lemma {:induction false} TableIsPacked(hash: Bytes -> Digest, exe: Bytes, tocOffset: nat, toc: Bytes, count: nat)
    requires tocOffset <= |exe|
    ensures !ParseAll(hash, exe, tocOffset, toc, count).NotPacked?
  {
    hide ParseOne;
    if count > 0 && ParseOne(hash, exe, tocOffset, toc).Parsed? {
      TableIsPacked(hash, exe, tocOffset, toc[ParseOne(hash, exe, tocOffset, toc).size..], count - 1);
    }
  }

  // ---------------------------------------------------------------------------
  // Writing
  // ---------------------------------------------------------------------------

  datatype Packed = Refused | Packed(bytes: Bytes)

  predicate Distinct(es: seq<Entry>) {
    forall i, j | 0 <= i < j < |es| :: es[i].name != es[j].name
  }

  predicate Packable(es: seq<Entry>) {
    Distinct(es) && forall i | 0 <= i < |es| :: ValidName(es[i].name) && |es[i].name| < U16
  }

  function Data(es: seq<Entry>): Bytes {
    if es == [] then [] else es[0].data + Data(es[1..])
  }

  /** Where each datum starts when the first starts at `start`. */
  function Offsets(es: seq<Entry>, start: nat): (offs: seq<nat>)
    ensures |offs| == |es|
  {
    if es == [] then [] else [start] + Offsets(es[1..], start + |es[0].data|)
  }

  function Image(hash: Bytes -> Digest, setup: Bytes, es: seq<Entry>): Bytes {
    var body := setup + Data(es);
    body + Table(hash, es, Offsets(es, |setup|)) + Footer(|es|, |body|)
  }

  /** Pack: either the image of the setup and the entries, or a refusal exactly when they
      cannot be packed. */
  method Pack(hash: Bytes -> Digest, setup: Bytes, es: seq<Entry>) returns (r: Packed)
    ensures r == if Packable(es) then Packed(Image(hash, setup, es)) else Refused
  {
    hide Image, ValidName;
    var fine := CheckNames(es);
    if !fine { return Refused; }
    r := WriteAll(hash, setup, es);
  }

  /** The first loop: every name valid, none twice. */
  method CheckNames(es: seq<Entry>) returns (fine: bool)
    ensures fine <==> Distinct(es) && forall i | 0 <= i < |es| :: ValidName(es[i].name)
  {
    hide ValidName;
    var seen: set<Bytes> := {};
    for i := 0 to |es|
      invariant forall k | 0 <= k < i :: ValidName(es[k].name)
      invariant forall n :: n in seen <==> exists k | 0 <= k < i :: es[k].name == n
      invariant forall a, b | 0 <= a < b < i :: es[a].name != es[b].name
    {
      if !ValidName(es[i].name) { return false; }
      if es[i].name in seen { return false; }
      seen := seen + {es[i].name};
    }
    return true;
  }

  /** After `i` entries, what is written and what the rest will add make the whole image. */
  ghost predicate Progress(hash: Bytes -> Digest, setup: Bytes, es: seq<Entry>, i: nat, out: Bytes, toc: Bytes)
    requires i <= |es|
  {
    && out + Data(es[i..]) == setup + Data(es)
    && toc + Table(hash, es[i..], Offsets(es[i..], |out|)) == Table(hash, es, Offsets(es, |setup|))
  }

  lemma ProgressStarts(hash: Bytes -> Digest, setup: Bytes, es: seq<Entry>)
    ensures Progress(hash, setup, es, 0, setup, [])
  {
    assert es[0..] == es;
  }

  lemma ProgressStep(hash: Bytes -> Digest, setup: Bytes, es: seq<Entry>, i: nat, out: Bytes, toc: Bytes)
    requires i < |es| && Progress(hash, setup, es, i, out, toc)
    ensures var row := EntryBytes(es[i].name, |out|, |es[i].data|, hash(es[i].data));
            Progress(hash, setup, es, i + 1, out + es[i].data, toc + row)
  {
    hide EntryBytes, Table, Data, Offsets;
    var row := EntryBytes(es[i].name, |out|, |es[i].data|, hash(es[i].data));
    Unroll(hash, es[i..], |out|);
    assert es[i..][1..] == es[i + 1..];
    Assoc(out, es[i].data, Data(es[i + 1..]));
    Assoc(toc, row, Table(hash, es[i + 1..], Offsets(es[i + 1..], |out + es[i].data|)));
  }

  lemma ProgressEnds(hash: Bytes -> Digest, setup: Bytes, es: seq<Entry>, out: Bytes, toc: Bytes)
    requires Progress(hash, setup, es, |es|, out, toc)
    ensures out + toc + Footer(|es|, |out|) == Image(hash, setup, es)
  {
    hide Footer;
    assert es[|es|..] == [];
    assert out == setup + Data(es);
  }

  lemma Assoc(a: Bytes, b: Bytes, c: Bytes)
    ensures a + (b + c) == a + b + c
  {}

  /** The second loop: data and table side by side, then the footer. */
  method WriteAll(hash: Bytes -> Digest, setup: Bytes, es: seq<Entry>) returns (r: Packed)
    ensures r == if forall i | 0 <= i < |es| :: |es[i].name| < U16 then Packed(Image(hash, setup, es)) else Refused
  {
    hide EntryBytes, Footer, Image, Progress;
    var out, toc := setup, [];
    ProgressStarts(hash, setup, es);
    for i := 0 to |es|
      invariant forall k | 0 <= k < i :: |es[k].name| < U16
      invariant Progress(hash, setup, es, i, out, toc)
    {
      var e := es[i];
      var offset := |out|;
      if |e.name| >= U16 { return Refused; }
      ProgressStep(hash, setup, es, i, out, toc);
      out := out + e.data;
      toc := toc + EntryBytes(e.name, offset, |e.data|, hash(e.data));
    }
    ProgressEnds(hash, setup, es, out, toc);
    r := Packed(out + toc + Footer(|es|, |out|));
  }

  lemma Unroll(hash: Bytes -> Digest, es: seq<Entry>, start: nat)
    requires es != []
    ensures Data(es) == es[0].data + Data(es[1..])
    ensures Table(hash, es, Offsets(es, start))
         == EntryBytes(es[0].name, start, |es[0].data|, hash(es[0].data))
            + Table(hash, es[1..], Offsets(es[1..], start + |es[0].data|))
  {
    assert Offsets(es, start)[1..] == Offsets(es[1..], start + |es[0].data|);
  }

  lemma {:induction false} OffsetsLocate(setup: Bytes, es: seq<Entry>, i: nat)
    requires i < |es|
    ensures var off := Offsets(es, |setup|)[i];
            off + |es[i].data| <= |setup + Data(es)| && (setup + Data(es))[off..off + |es[i].data|] == es[i].data
    decreases i
  {
    assert setup + Data(es) == (setup + es[0].data) + Data(es[1..]);
    if i > 0 {
      OffsetsLocate(setup + es[0].data, es[1..], i - 1);
    }
  }

  /** What is packed is a container of what was packed, and the setup program stays in front. */
  lemma ImageIsContainer(hash: Bytes -> Digest, setup: Bytes, es: seq<Entry>)
    requires Packable(es) && |es| < U32 && |Image(hash, setup, es)| < U64
    requires forall i | 0 <= i < |es| :: Utf8(es[i].name)
    ensures Container(hash, Image(hash, setup, es), |setup + Data(es)|, es, Offsets(es, |setup|))
    ensures setup <= Image(hash, setup, es)
  {
    hide Table, Footer, Utf8, ValidName, Data, Offsets;
    var body, table, footer := setup + Data(es), Table(hash, es, Offsets(es, |setup|)), Footer(|es|, |setup + Data(es)|);
    var image := body + table + footer;
    Assoc(body, table, footer);
    assert image[|body|..] == table + footer;
    forall i | 0 <= i < |es| ensures Listed(image, |body|, es[i], Offsets(es, |setup|)[i]) {
      OffsetsLocate(setup, es, i);
      var off := Offsets(es, |setup|)[i];
      SliceOfFront(body, table + footer, off, off + |es[i].data|);
    }
    assert setup <= body <= image;
  }

  lemma SliceOfFront(a: Bytes, b: Bytes, i: nat, j: nat)
    requires i <= j <= |a|
    ensures (a + b)[i..j] == a[i..j]
  {}

  /** Round trip: packing and unpacking returns exactly the entries, in order, if and only if
      their number fits the footer's 32-bit count. Names are UTF-8 because the source's
      strings are, and the image fits the address space because it exists. */
  lemma PackThenUnpack(hash: Bytes -> Digest, setup: Bytes, es: seq<Entry>)
    requires Packable(es) && |Image(hash, setup, es)| < U64
    requires forall i | 0 <= i < |es| :: Utf8(es[i].name)
    ensures Unpack(hash, Image(hash, setup, es)) == Contents(es) <==> |es| < U32
    ensures setup <= Image(hash, setup, es)
  {
    var image := Image(hash, setup, es);
    assert setup <= image;
    if |es| < U32 {
      ImageIsContainer(hash, setup, es);
      UnpackComplete(hash, image, |setup + Data(es)|, es, Offsets(es, |setup|));
    } else if Unpack(hash, image) == Contents(es) {
      var tocOffset, offs := UnpackSound(hash, image);
    }
  }

  // --- a list that is packed and does not come back ---------------------------------

  /** The number `i` in sixteen letters from A to P, least significant first. */
  function Letters(i: nat, k: nat): (name: Bytes)
    ensures |name| == k && forall j | 0 <= j < k :: 0x41 <= name[j] <= 0x50
  {
    if k == 0 then [] else [0x41 + i % 16] + Letters(i / 16, k - 1)
  }

  function Pow16(k: nat): nat { if k == 0 then 1 else 16 * Pow16(k - 1) }

  lemma {:induction false} LettersTell(i: nat, j: nat, k: nat)
    requires i < Pow16(k) && j < Pow16(k) && Letters(i, k) == Letters(j, k)
    ensures i == j
  {
    if k > 0 {
      assert Letters(i, k)[0] == Letters(j, k)[0];
      assert Letters(i, k)[1..] == Letters(i / 16, k - 1) && Letters(j, k)[1..] == Letters(j / 16, k - 1);
      LettersTell(i / 16, j / 16, k - 1);
    }
  }

  lemma {:induction false} LettersAreUtf8(s: Bytes)
    requires forall j | 0 <= j < |s| :: 0x41 <= s[j] <= 0x50
    ensures Utf8(s)
  {
    if s != [] { LettersAreUtf8(s[1..]); }
  }

  /** `n` empty files under distinct nine-letter names. */
  function Numbered(n: nat): (es: seq<Entry>)
    ensures |es| == n && forall i | 0 <= i < n :: es[i] == Entry(Letters(i, 9), [])
  {
    seq(n, i requires 0 <= i => Entry(Letters(i, 9), []))
  }

  lemma NumberedArePackable(n: nat)
    requires n <= U32
    ensures Packable(Numbered(n)) && forall i | 0 <= i < n :: Utf8(Numbered(n)[i].name)
  {
    hide Utf8, Letters, Numbered;
    var es := Numbered(n);
    assert Pow16(9) == 16 * Pow16(8) && Pow16(8) >= U32 by {
      assert Pow16(2) == 256 && Pow16(4) == 256 * Pow16(2) && Pow16(6) == 256 * Pow16(4) && Pow16(8) == 256 * Pow16(6);
    }
    forall i, j | 0 <= i < j < n ensures es[i].name != es[j].name {
      if es[i].name == es[j].name { LettersTell(i, j, 9); }
    }
    forall i | 0 <= i < n ensures ValidName(es[i].name) && Utf8(es[i].name) && |es[i].name| < U16 {
      LettersAreUtf8(es[i].name);
    }
  }

  lemma {:induction false} EmptyFiles(hash: Bytes -> Digest, es: seq<Entry>, start: nat)
    requires forall i | 0 <= i < |es| :: es[i].data == [] && |es[i].name| == 9
    ensures Data(es) == [] && |Table(hash, es, Offsets(es, start))| == 59 * |es|
  {
    if es != [] {
      Unroll(hash, es, start);
      EmptyFiles(hash, es[1..], start);
    }
  }

  /** At 2^32 entries the footer's count wraps to zero: the image is packed without complaint
      and does not unpack to what was packed. */
  lemma TooManyDoNotComeBack(hash: Bytes -> Digest)
    ensures var es := Numbered(U32);
            Packable(es) && |Image(hash, [], es)| < U64 && Unpack(hash, Image(hash, [], es)) != Contents(es)
  {
    var es := Numbered(U32);
    NumberedArePackable(U32);
    EmptyFiles(hash, es, 0);
    hide Numbered, Table, Footer, Data, Offsets, Utf8, ValidName, Unpack;
    FooterLength(|es|, 0);
    assert [] + Data(es) == [];
    assert |Image(hash, [], es)| == 59 * U32 + FOOTER_LEN;
    PackThenUnpack(hash, [], es);
  }

  lemma FooterLength(count: nat, tocOffset: nat)
    ensures |Footer(count, tocOffset)| == FOOTER_LEN
  {}
}
