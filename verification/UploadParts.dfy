/** How an upload is cut into parts, checked for completeness and put back together. */
module UploadParts {
  import opened Wrappers

  type Bytes = seq<bv8>
  type Name = nat

  /** The immutable size fields of an upload session. */
  datatype Layout = Layout(size: nat, chunkSize: nat, partCount: nat) {
    /** What session creation establishes: the part count is the ceiling quotient. */
    predicate Valid() {
      size > 0 && chunkSize > 0 && partCount == CeilDiv(size, chunkSize)
    }
  }

  datatype Part = Part(partNumber: nat, offset: nat, size: nat, checksum: string, storedName: Name)

  datatype Span = Span(start: int, end: int, size: int)

  datatype Geometry = Range(span: Span) | InvalidPartNumber

  function CeilDiv(a: nat, b: nat): nat
    requires b > 0
  {
    (a + b - 1) / b
  }

  /** Session creation: the whole requested size, in configured chunks, or in one if it is smaller than a chunk. */
  function PlanLayout(expectedSize: nat, configuredChunk: nat): (layout: Layout)
    requires expectedSize > 0 && configuredChunk > 0
    ensures layout.Valid() && layout.size == expectedSize
    ensures layout.chunkSize <= configuredChunk && layout.chunkSize <= expectedSize
    ensures configuredChunk <= expectedSize ==> layout.chunkSize == configuredChunk
    ensures configuredChunk >= expectedSize ==> layout.chunkSize == expectedSize && layout.partCount == 1
  {
    var chunkSize := Min(configuredChunk, expectedSize);
    Layout(expectedSize, chunkSize, CeilDiv(expectedSize, chunkSize))
  }

  function PartGeometry(layout: Layout, partNumber: int): Geometry {
    if partNumber < 0 || partNumber >= layout.partCount then InvalidPartNumber else
      var start := partNumber * layout.chunkSize;
      var remaining := layout.size - start;
      var size := if remaining < layout.chunkSize then remaining else layout.chunkSize;
      Range(Span(start, start + size - 1, size))
  }

  /** Where part n begins in a valid layout; `Start(partCount)` is the end of the upload. */
  function Start(layout: Layout, n: nat): nat {
    if n * layout.chunkSize < layout.size then n * layout.chunkSize else layout.size
  }

  lemma CeilDivBounds(a: nat, b: nat)
    requires a > 0 && b > 0
    ensures CeilDiv(a, b) >= 1
    ensures (CeilDiv(a, b) - 1) * b < a <= CeilDiv(a, b) * b
  {
  }

  lemma MulMonotone(a: nat, b: nat, c: nat)
    requires a <= b
    ensures a * c <= b * c
  {
    assert b * c == a * c + (b - a) * c;
  }

  /** Every part number in range lies strictly inside the upload. */
  lemma StartInside(layout: Layout, n: nat)
    requires layout.Valid() && n < layout.partCount
    ensures n * layout.chunkSize < layout.size
    ensures n + 1 < layout.partCount ==> (n + 1) * layout.chunkSize < layout.size
    ensures n + 1 == layout.partCount ==> (n + 1) * layout.chunkSize >= layout.size
  {
    CeilDivBounds(layout.size, layout.chunkSize);
    MulMonotone(n, layout.partCount - 1, layout.chunkSize);
    if n + 1 < layout.partCount {
      MulMonotone(n + 1, layout.partCount - 1, layout.chunkSize);
    }
  }

  /** Part n is exactly [Start(n), Start(n + 1)), so the parts tile [0, size) without gap or overlap. */
  lemma PartsTile(layout: Layout, n: nat)
    requires layout.Valid() && n < layout.partCount
    ensures Start(layout, 0) == 0 && Start(layout, layout.partCount) == layout.size
    ensures Start(layout, n) < Start(layout, n + 1) <= layout.size
    ensures PartGeometry(layout, n)
         == Range(Span(Start(layout, n), Start(layout, n + 1) - 1, Start(layout, n + 1) - Start(layout, n)))
    ensures 1 <= Start(layout, n + 1) - Start(layout, n) <= layout.chunkSize
  {
    StartInside(layout, n);
    StartInside(layout, layout.partCount - 1);
    assert (n + 1) * layout.chunkSize == n * layout.chunkSize + layout.chunkSize;
  }

  lemma {:induction false} StartMonotone(layout: Layout, i: nat, j: nat)
    requires i <= j
    ensures Start(layout, i) <= Start(layout, j)
  {
    MulMonotone(i, j, layout.chunkSize);
  }

  predicate Holds(layout: Layout, n: nat, at: nat) {
    Start(layout, n) <= at < Start(layout, n + 1)
  }

  /** Each byte of the upload belongs to one part and to no other. */
  lemma {:induction false} EveryByteHasOnePart(layout: Layout, at: nat) returns (n: nat)
    requires layout.Valid() && at < layout.size
    ensures n < layout.partCount && Holds(layout, n, at)
    ensures forall i :: 0 <= i < layout.partCount && Holds(layout, i, at) ==> i == n
  {
    n := at / layout.chunkSize;
    DivBounds(at, layout.chunkSize);
    CeilDivBounds(layout.size, layout.chunkSize);
    if n >= layout.partCount { MulMonotone(layout.partCount, n, layout.chunkSize); }
    PartsTile(layout, n);
    forall i | 0 <= i < layout.partCount && Holds(layout, i, at)
      ensures i == n
    {
      if i < n { StartMonotone(layout, i + 1, n); }
      if n < i { StartMonotone(layout, n + 1, i); }
    }
  }

  lemma DivBounds(a: nat, b: nat)
    requires b > 0
    ensures (a / b) * b <= a < (a / b + 1) * b
  {
    assert a == (a / b) * b + a % b;
    assert (a / b + 1) * b == (a / b) * b + b;
  }

  // ----- The download script's segments

  datatype Segment = Segment(index: nat, start: int, end: int, length: int)

  /** The loop of the parallel download script cuts a file exactly as an upload session does. */
  method MakeSegments(size: nat, partBytes: nat) returns (segments: seq<Segment>)
    requires partBytes > 0
    ensures size == 0 ==> segments == []
    ensures size > 0 ==>
              var layout := Layout(size, partBytes, CeilDiv(size, partBytes));
              && |segments| == layout.partCount
              && forall i :: 0 <= i < |segments| ==>
                   && segments[i].index == i
                   && PartGeometry(layout, i) == Range(Span(segments[i].start, segments[i].end, segments[i].length))
  {
    segments := [];
    var start := 0;
    ghost var layout := Layout(size, partBytes, CeilDiv(size, partBytes));
    if size > 0 { CeilDivBounds(size, partBytes); }
    while start < size
      invariant start == |segments| * partBytes
      invariant size > 0 ==> |segments| <= layout.partCount
      invariant size == 0 ==> segments == []
      invariant forall i :: 0 <= i < |segments| ==>
                  && segments[i].index == i
                  && PartGeometry(layout, i) == Range(Span(segments[i].start, segments[i].end, segments[i].length))
      decreases size + partBytes - start
    {
      if |segments| == layout.partCount {
        assert false;
      }
      PartsTile(layout, |segments|);
      StartInside(layout, |segments|);
      var end := Min(size - 1, start + partBytes - 1);
      segments := segments + [Segment(|segments|, start, end, end - start + 1)];
      start := start + partBytes;
      assert (|segments| - 1) * partBytes + partBytes == |segments| * partBytes;
    }
    if size > 0 && |segments| < layout.partCount {
      StartInside(layout, |segments|);
      assert false;
    }
  }

  // ----- Completeness of a part list

  predicate IsHexDigit(c: char) {
    '0' <= c <= '9' || 'a' <= c <= 'f' || 'A' <= c <= 'F'
  }

  /** The digits of the pattern [a-f0-9], in either case. */
  lemma HexDigits(c: char)
    ensures IsHexDigit(c) <==> c in "0123456789abcdefABCDEF"
  {
    var digits := "0123456789abcdefABCDEF";
    if IsHexDigit(c) {
      var i := if c <= '9' then c as int - '0' as int
               else if c >= 'a' then 10 + (c as int - 'a' as int) else 16 + (c as int - 'A' as int);
      assert digits[i] == c;
    }
  }

  predicate IsChecksum(s: string) {
    |s| == 64 && forall i :: 0 <= i < |s| ==> IsHexDigit(s[i])
  }

  /** Row i is part i, at the place and size the layout gives it. */
  predicate FitsLayout(layout: Layout, i: nat, part: Part) {
    var geometry := PartGeometry(layout, i);
    geometry.Range? && part.partNumber == i && part.offset == geometry.span.start
    && part.size == geometry.span.size && IsChecksum(part.checksum)
  }

  /** Of a valid upload exactly such rows fit: the number, the place and the size of part i, and 64 hex digits. */
  lemma FittingIsExact(layout: Layout, i: nat, part: Part)
    requires layout.Valid()
    ensures FitsLayout(layout, i, part) <==>
              && i < layout.partCount && part.partNumber == i && part.offset == Start(layout, i)
              && part.offset + part.size == Start(layout, i + 1)
              && |part.checksum| == 64
              && forall k :: 0 <= k < 64 ==> part.checksum[k] in "0123456789abcdefABCDEF"
  {
    if i < layout.partCount { PartsTile(layout, i); }
    hide Start, PartGeometry, CeilDiv, IsHexDigit;
    forall k | 0 <= k < |part.checksum|
      ensures IsHexDigit(part.checksum[k]) <==> part.checksum[k] in "0123456789abcdefABCDEF"
    {
      HexDigits(part.checksum[k]);
    }
    if i >= layout.partCount { OutOfRange(layout, i); }
  }

  lemma OutOfRange(layout: Layout, i: nat)
    requires i >= layout.partCount
    ensures PartGeometry(layout, i).InvalidPartNumber?
  {
  }

  /** The lists a completion may assemble: all parts, once each, in order, with exact metadata. */
  predicate CompleteParts(layout: Layout, parts: seq<Part>) {
    && |parts| == layout.partCount
    && forall i :: 0 <= i < |parts| ==> FitsLayout(layout, i, parts[i])
  }

  predicate Uploaded(parts: seq<Part>, n: nat) {
    exists p :: p in parts && p.partNumber == n
  }

  lemma CompleteHasEveryPart(layout: Layout, parts: seq<Part>)
    requires CompleteParts(layout, parts)
    ensures forall n :: 0 <= n < layout.partCount ==> Uploaded(parts, n)
  {
    forall n | 0 <= n < layout.partCount
      ensures Uploaded(parts, n)
    {
      assert FitsLayout(layout, n, parts[n]) && parts[n] in parts;
    }
  }

  /** Without gaps and with row i being part i, a list has exactly `partCount` rows. */
  lemma FittingListIsComplete(layout: Layout, parts: seq<Part>)
    requires forall n :: 0 <= n < layout.partCount ==> Uploaded(parts, n)
    requires forall i :: 0 <= i < |parts| ==> FitsLayout(layout, i, parts[i])
    ensures CompleteParts(layout, parts)
  {
    assert |parts| > 0 ==> FitsLayout(layout, |parts| - 1, parts[|parts| - 1]);
    if layout.partCount > 0 {
      assert Uploaded(parts, layout.partCount - 1);
      var p :| p in parts && p.partNumber == layout.partCount - 1;
      var i :| 0 <= i < |parts| && parts[i] == p;
      assert FitsLayout(layout, i, parts[i]);
    }
  }

  /** The absent part numbers, ascending. */
  method MissingPartNumbers(partCount: nat, parts: seq<Part>) returns (missing: seq<nat>)
    ensures forall n :: n in missing <==> 0 <= n < partCount && !Uploaded(parts, n)
    ensures forall i, j :: 0 <= i < j < |missing| ==> missing[i] < missing[j]
  {
    var uploaded := set p | p in parts :: p.partNumber;
    missing := [];
    for n := 0 to partCount
      invariant forall k :: k in missing <==> 0 <= k < n && !Uploaded(parts, k)
      invariant forall i, j :: 0 <= i < j < |missing| ==> missing[i] < missing[j]
    {
      assert n in uploaded <==> Uploaded(parts, n);
      if n !in uploaded {
        assert forall i :: 0 <= i < |missing| ==> missing[i] in missing;
        missing := missing + [n];
      }
    }
  }

  datatype Completeness = Complete | MissingParts(missing: seq<nat>) | InvalidPart(partNumber: nat)

  /** Accepts exactly the complete lists; otherwise names the missing numbers or the first bad row. */
  method AssertCompleteParts(layout: Layout, parts: seq<Part>) returns (outcome: Completeness)
    ensures outcome.Complete? <==> CompleteParts(layout, parts)
    ensures outcome.MissingParts? <==> exists n :: 0 <= n < layout.partCount && !Uploaded(parts, n)
    ensures outcome.MissingParts? ==>
              forall n :: n in outcome.missing <==> 0 <= n < layout.partCount && !Uploaded(parts, n)
    ensures outcome.InvalidPart? ==>
              && outcome.partNumber < |parts|
              && !FitsLayout(layout, outcome.partNumber, parts[outcome.partNumber])
              && forall i :: 0 <= i < outcome.partNumber ==> FitsLayout(layout, i, parts[i])
  {
    var missing := MissingPartNumbers(layout.partCount, parts);
    if |missing| > 0 {
      assert missing[0] in missing && !Uploaded(parts, missing[0]);
      if CompleteParts(layout, parts) { CompleteHasEveryPart(layout, parts); }
      return MissingParts(missing);
    }
    assert forall n :: 0 <= n < layout.partCount ==> Uploaded(parts, n);
    for n := 0 to |parts|
      invariant forall i :: 0 <= i < n ==> FitsLayout(layout, i, parts[i])
    {
      if !FitsLayout(layout, n, parts[n]) {
        return InvalidPart(n);
      }
    }
    FittingListIsComplete(layout, parts);
    return Complete;
  }

  // ----- Assembly

  function Concat(pieces: seq<Bytes>): Bytes {
    if pieces == [] then [] else Concat(pieces[..|pieces| - 1]) + pieces[|pieces| - 1]
  }

  /** The stored bytes of each part, in list order. */
  function Contents(parts: seq<Part>, stored: map<Name, Bytes>): (pieces: seq<Bytes>)
    requires forall p :: p in parts ==> p.storedName in stored
    ensures |pieces| == |parts|
    ensures forall i :: 0 <= i < |parts| ==> pieces[i] == stored[parts[i].storedName]
  {
    seq(|parts|, i requires 0 <= i < |parts| => stored[parts[i].storedName])
  }

  datatype Assembly = Assembled(bytes: Bytes, size: nat) | PartObjectMissing(partNumber: nat, storedName: Name)

  /** Concatenates the stored parts in order, counting every byte; stops at the first absent object. */
  method AssembleUploadParts(parts: seq<Part>, stored: map<Name, Bytes>) returns (outcome: Assembly)
    ensures outcome.Assembled? <==> forall p :: p in parts ==> p.storedName in stored
    ensures outcome.Assembled? ==>
              outcome.bytes == Concat(Contents(parts, stored)) && outcome.size == |outcome.bytes|
    ensures outcome.PartObjectMissing? ==>
              exists k :: 0 <= k < |parts| && parts[k].storedName !in stored
                && outcome == PartObjectMissing(parts[k].partNumber, parts[k].storedName)
                && forall i :: 0 <= i < k ==> parts[i].storedName in stored
  {
    var bytes, size := [], 0;
    for k := 0 to |parts|
      invariant forall i :: 0 <= i < k ==> parts[i].storedName in stored
      invariant bytes == Concat(Contents(parts[..k], stored)) && size == |bytes|
    {
      if parts[k].storedName !in stored {
        return PartObjectMissing(parts[k].partNumber, parts[k].storedName);
      }
      assert Contents(parts[..k + 1], stored)[..k] == Contents(parts[..k], stored);
      bytes := bytes + stored[parts[k].storedName];
      size := size + |stored[parts[k].storedName]|;
    }
    assert parts[..|parts|] == parts;
    return Assembled(bytes, size);
  }

  /** The upload cut at the layout's part boundaries. */
  function Split(layout: Layout, bytes: Bytes): seq<Bytes>
    requires layout.Valid() && |bytes| == layout.size
  {
    seq(layout.partCount, n requires 0 <= n < layout.partCount =>
      PartsTile(layout, n); bytes[Start(layout, n)..Start(layout, n + 1)])
  }

  /** Cutting an upload by its layout and assembling the pieces gives the original bytes back. */
  lemma SplitThenConcat(layout: Layout, bytes: Bytes)
    requires layout.Valid() && |bytes| == layout.size
    ensures Concat(Split(layout, bytes)) == bytes
  {
    PrefixConcat(layout, bytes, layout.partCount);
    assert Split(layout, bytes)[..layout.partCount] == Split(layout, bytes);
    PartsTile(layout, 0) by { CeilDivBounds(layout.size, layout.chunkSize); }
    assert bytes[..layout.size] == bytes;
  }

  lemma {:induction false} PrefixConcat(layout: Layout, bytes: Bytes, k: nat)
    requires layout.Valid() && |bytes| == layout.size && k <= layout.partCount
    ensures Start(layout, k) <= |bytes|
    ensures Concat(Split(layout, bytes)[..k]) == bytes[..Start(layout, k)]
  {
    if k > 0 {
      PrefixConcat(layout, bytes, k - 1);
      PartsTile(layout, k - 1);
      var pieces := Split(layout, bytes)[..k];
      assert pieces[..k - 1] == Split(layout, bytes)[..k - 1];
      assert bytes[..Start(layout, k - 1)] + bytes[Start(layout, k - 1)..Start(layout, k)] == bytes[..Start(layout, k)];
    }
  }

  /** Pieces of the sizes the layout prescribes always add up to the declared upload size. */
  lemma {:induction false} PrefixSize(layout: Layout, pieces: seq<Bytes>)
    requires layout.Valid() && |pieces| <= layout.partCount
    requires forall i :: 0 <= i < |pieces| ==>
      Range(Span(Start(layout, i), Start(layout, i + 1) - 1, |pieces[i]|)) == PartGeometry(layout, i)
    ensures |Concat(pieces)| == Start(layout, |pieces|)
  {
    if pieces != [] {
      PrefixSize(layout, pieces[..|pieces| - 1]);
      PartsTile(layout, |pieces| - 1);
    }
  }

  lemma AssembledSize(layout: Layout, parts: seq<Part>, pieces: seq<Bytes>)
    requires layout.Valid() && CompleteParts(layout, parts) && |pieces| == |parts|
    requires forall i :: 0 <= i < |parts| ==> |pieces[i]| == parts[i].size
    ensures |Concat(pieces)| == layout.size
  {
    forall i | 0 <= i < |pieces|
      ensures Range(Span(Start(layout, i), Start(layout, i + 1) - 1, |pieces[i]|)) == PartGeometry(layout, i)
    {
      PartsTile(layout, i);
      assert FitsLayout(layout, i, parts[i]);
    }
    PrefixSize(layout, pieces);
    PartsTile(layout, 0) by { CeilDivBounds(layout.size, layout.chunkSize); }
  }
}
