/** build_review_chunks: file-local shards with a header each, and why the overflow guard is dead. */
module ReviewChunks {
  import opened Model
  import opened Labels
  import opened ReviewSource

  const MAX_TOTAL_REVIEW_DIFF_BYTES := 32_000_000
  /** The largest chunk size the configuration admits. */
  const MAX_CHUNK_BYTES := 120_000

  // ---- how many pieces -----------------------------------------------------------------

  lemma LastOff(pieces: seq<string>, n: nat)
    requires n < |pieces|
    ensures Bytes(Concat(pieces[..n + 1])) == Bytes(Concat(pieces[..n])) + Bytes(pieces[n])
  {
    assert pieces[..n + 1][..n] == pieces[..n];
    BytesAdd(Concat(pieces[..n]), pieces[n]);
  }

  lemma ThreeOff(pieces: seq<string>)
    requires |pieces| >= 3
    ensures var n := |pieces| - 3;
      Bytes(Concat(pieces)) == Bytes(Concat(pieces[..n])) + Bytes(pieces[n]) + Bytes(pieces[n + 1]) + Bytes(pieces[n + 2])
  {
    var n := |pieces| - 3;
    LastOff(pieces, n);
    LastOff(pieces, n + 1);
    LastOff(pieces, n + 2);
    assert pieces[..n + 3] == pieces;
  }

  /** Dense pieces are few. */
  lemma {:induction false} DenseCount(pieces: seq<string>, max: nat, k: nat)
    requires Dense(pieces, max) && max >= 1024 && 3 * k <= |pieces|
    ensures k * 1021 <= Bytes(Concat(pieces))
    decreases k
  {
    if k > 0 {
      var n := |pieces| - 3;
      ThreeOff(pieces);
      DenseFront(pieces, n, max);
      DenseCount(pieces[..n], max, k - 1);
      assert Bytes(pieces[n]) + Bytes(pieces[n + 1]) + Bytes(pieces[n + 2]) > max - 4;
    }
  }

  lemma DenseFront(pieces: seq<string>, n: nat, max: nat)
    requires Dense(pieces, max) && n <= |pieces|
    ensures Dense(pieces[..n], max)
  {
  }

  /** A text of at most 32 MB makes fewer than 999999 pieces. */
  lemma PartCount(pieces: seq<string>, text: string, max: nat)
    requires SplitOf(pieces, text, max) && max >= 1024 && Bytes(text) <= MAX_TOTAL_REVIEW_DIFF_BYTES
    ensures 1 <= |pieces| < 999_999
  {
    DenseCount(pieces, max, |pieces| / 3);
  }

  // ---- headers -------------------------------------------------------------------------

  function Digits(n: nat): string {
    if n < 10 then [('0' as int + n) as char] else Digits(n / 10) + [('0' as int + n % 10) as char]
  }

  function HeaderLine(shown: string, part: nat, parts: nat): string {
    "===== FILE " + shown + " PART " + Digits(part) + "/" + Digits(parts) + " ====="
  }

  function Header(shown: string, part: nat, parts: nat): string {
    "\n" + HeaderLine(shown, part, parts) + "\n"
  }

  function HeaderProbe(shown: string): string {
    "\n===== FILE " + shown + " PART 999999/999999 =====\n"
  }

  lemma DigitsPrintable(n: nat)
    ensures Printable(Digits(n)) && Digits(n) != ""
  {
  }

  lemma {:induction false} DigitsLength(n: nat, k: nat, bound: nat)
    requires k >= 1 && bound == Power10(k) && n < bound
    ensures |Digits(n)| <= k
    decreases k
  {
    if n >= 10 { DigitsLength(n / 10, k - 1, Power10(k - 1)); }
  }

  function Power10(k: nat): nat {
    if k == 0 then 1 else 10 * Power10(k - 1)
  }

  lemma HeaderLinePrintable(shown: string, part: nat, parts: nat)
    requires Printable(shown)
    ensures Printable(HeaderLine(shown, part, parts))
  {
    DigitsPrintable(part);
    DigitsPrintable(parts);
  }

  lemma HeaderAscii(shown: string, part: nat, parts: nat)
    requires Printable(shown)
    ensures Bytes(Header(shown, part, parts)) == |Header(shown, part, parts)|
    ensures Bytes(HeaderProbe(shown)) == |HeaderProbe(shown)|
    ensures |Header(shown, part, parts)| == 26 + |shown| + |Digits(part)| + |Digits(parts)|
    ensures |HeaderProbe(shown)| == 38 + |shown|
  {
    HeaderLinePrintable(shown, part, parts);
    AsciiBytes(Header(shown, part, parts));
    AsciiBytes(HeaderProbe(shown));
  }

  /** No header outgrows the probe the budget was computed with. */
  lemma HeaderFits(shown: string, part: nat, parts: nat)
    requires Printable(shown) && part <= parts <= 999_999
    ensures Bytes(Header(shown, part, parts)) <= Bytes(HeaderProbe(shown))
  {
    HeaderAscii(shown, part, parts);
    assert Power10(6) == 1_000_000 by { assert Power10(3) == 1000; }
    DigitsLength(part, 6, 1_000_000);
    DigitsLength(parts, 6, 1_000_000);
  }

  // ---- taking a header off -------------------------------------------------------------

  /** Everything after the first newline. */
  function AfterNewline(s: string): string {
    if s == "" then "" else if s[0] == '\n' then s[1..] else AfterNewline(s[1..])
  }

  /** A shard without its header: what follows its second newline. */
  function StripHeader(s: string): string {
    AfterNewline(AfterNewline(s))
  }

  lemma {:induction false} AfterLine(line: string, rest: string)
    requires Printable(line)
    ensures AfterNewline(line + "\n" + rest) == rest
  {
    if line == "" {
      assert line + "\n" + rest == "\n" + rest;
    } else {
      AfterLine(line[1..], rest);
      assert (line + "\n" + rest)[1..] == line[1..] + "\n" + rest;
    }
  }

  lemma StripLine(line: string, rest: string)
    requires Printable(line)
    ensures StripHeader("\n" + line + "\n" + rest) == rest
  {
    var s := "\n" + line + "\n" + rest;
    assert s[1..] == line + "\n" + rest;
    AfterLine(line, rest);
  }

  /** A printable label keeps the header on one line, so the payload can be told from it. */
  lemma StripHeaderOf(shown: string, part: nat, parts: nat, piece: string)
    requires Printable(shown)
    ensures StripHeader(Header(shown, part, parts) + piece) == piece
  {
    HeaderLinePrintable(shown, part, parts);
    StripLine(HeaderLine(shown, part, parts), piece);
  }

  // ---- build_review_chunks -------------------------------------------------------------

  datatype ReviewChunk = ReviewChunk(index: nat, files: seq<string>, text: string)

  /** How a Git query ends: with its whole output, or out of time, over its ceiling, or with an exit code. */
  datatype Answer = Complete | TimedOut | Truncated | Failed

  /** What Git answers for a changed file: first whether it is binary, then its diff, or the metadata text
      of a binary one. */
  datatype FileChange = FileChange(path: Path, probe: Answer, binary: bool, content: Answer, diff: string)

  datatype ReviewError =
    | QueryRefused(answer: Answer)
    | TooManyFiles
    | BinaryChange(shown: string)
    | DiffTooLarge
    | BudgetTooSmall(shown: string)
    | ChunkOverflow(shown: string)

  datatype Built = Built(manifest: seq<string>, chunks: seq<ReviewChunk>) | Refused(error: ReviewError)

  function Manifest(files: seq<FileChange>): seq<string> {
    seq(|files|, i requires 0 <= i < |files| => Display(files[i].path))
  }

  /** The text that is sharded: the whole diff, or a line standing for an empty one. */
  function Shown(f: FileChange): string {
    if f.diff == "" then "[No textual diff for " + Display(f.path) + "]\n" else f.diff
  }

  function Budget(shown: string, chunkBytes: nat): int {
    chunkBytes - Bytes(HeaderProbe(shown))
  }

  function FileRefusal(f: FileChange, total: nat, chunkBytes: nat, allowBinary: bool): Option<ReviewError> {
    var shown := Display(f.path);
    if !f.probe.Complete? then Some(QueryRefused(f.probe))
    else if f.binary && !allowBinary then Some(BinaryChange(shown))
    else if !f.content.Complete? then Some(QueryRefused(f.content))
    else if total + Bytes(f.diff) > MAX_TOTAL_REVIEW_DIFF_BYTES then Some(DiffTooLarge)
    else if Budget(shown, chunkBytes) < 1024 then Some(BudgetTooSmall(shown))
    else None
  }

  /** The checks on one file, when the diffs before it have some total of bytes. */
  type Checks = (FileChange, nat) -> Option<ReviewError>

  function ChecksFor(chunkBytes: nat, allowBinary: bool): Checks {
    (f: FileChange, total: nat) => FileRefusal(f, total, chunkBytes, allowBinary)
  }

  /** The first refusal among the files from i on. */
  function Refusal(files: seq<FileChange>, i: nat, total: nat, check: Checks): Option<ReviewError>
    decreases |files| - i
  {
    if i >= |files| then None
    else
      var refusal := check(files[i], total);
      if refusal.Some? then refusal else Refusal(files, i + 1, total + Bytes(files[i].diff), check)
  }

  function Payloads(cs: seq<ReviewChunk>): seq<string> {
    seq(|cs|, i requires 0 <= i < |cs| => StripHeader(cs[i].text))
  }

  /** The shards of one file: each headed with its part number, and nothing of the text lost. */
  ghost predicate Shards(cs: seq<ReviewChunk>, shown: string, text: string) {
    && cs != []
    && (forall k :: 0 <= k < |cs| ==>
          cs[k].files == [shown] && cs[k].text == Header(shown, k + 1, |cs|) + StripHeader(cs[k].text))
    && Concat(Payloads(cs)) == text
  }

  predicate Bounded(cs: seq<ReviewChunk>, chunkBytes: nat) {
    forall k :: 0 <= k < |cs| ==> Bytes(cs[k].text) <= chunkBytes
  }

  predicate NumberedFrom(cs: seq<ReviewChunk>, first: nat) {
    forall k :: 0 <= k < |cs| ==> cs[k].index == first + k
  }

  function Flatten(groups: seq<seq<ReviewChunk>>): seq<ReviewChunk>
    decreases |groups|
  {
    if groups == [] then [] else Flatten(groups[..|groups| - 1]) + groups[|groups| - 1]
  }

  /** The chunks are the shards of every file, file after file. */
  ghost predicate Covers(files: seq<FileChange>, groups: seq<seq<ReviewChunk>>) {
    && |groups| == |files|
    && forall i :: 0 <= i < |files| ==> Shards(groups[i], Display(files[i].path), Shown(files[i]))
  }

  lemma FitsBytes(piece: string, max: nat)
    requires Fits(piece, max) && max >= 4
    ensures Bytes(piece) <= max
  {
    if |piece| == 1 {
      BytesSnoc("", piece[0]);
      assert piece == "" + [piece[0]];
    }
  }

  /** One shard stays within the chunk size: the guard cannot fire. */
  lemma ShardFits(shown: string, part: nat, parts: nat, piece: string, chunkBytes: nat)
    requires Printable(shown) && part <= parts <= 999_999
    requires Budget(shown, chunkBytes) >= 1024 && Fits(piece, Budget(shown, chunkBytes))
    ensures Bytes(Header(shown, part, parts) + piece) <= chunkBytes
  {
    HeaderFits(shown, part, parts);
    BytesAdd(Header(shown, part, parts), piece);
    FitsBytes(piece, Budget(shown, chunkBytes));
  }

  /** The placeholder for an empty diff is small as well. */
  lemma ShownBytes(f: FileChange, chunkBytes: nat)
    requires Bytes(f.diff) <= MAX_TOTAL_REVIEW_DIFF_BYTES
    requires chunkBytes <= MAX_CHUNK_BYTES && Budget(Display(f.path), chunkBytes) >= 1024
    ensures Bytes(Shown(f)) <= MAX_TOTAL_REVIEW_DIFF_BYTES
  {
    SingleLine(f.path);
    HeaderAscii(Display(f.path), 1, 1);
    if f.diff == "" { AsciiBytes(Shown(f)); }
  }

  /** The loop over the pieces of one file. */
  method HeadPieces(shown: string, pieces: seq<string>, first: nat, chunkBytes: nat)
    returns (cs: seq<ReviewChunk>, overflow: bool)
    requires Printable(shown) && Budget(shown, chunkBytes) >= 1024
    requires forall p <- pieces :: Fits(p, Budget(shown, chunkBytes))
    ensures |pieces| <= 999_999 ==> !overflow
    ensures !overflow ==> |cs| == |pieces| && Bounded(cs, chunkBytes) && Made(cs, first, shown, pieces)
  {
    cs := [];
    for k := 0 to |pieces|
      invariant |cs| == k && Bounded(cs, chunkBytes) && Made(cs, first, shown, pieces)
    {
      var payload := Header(shown, k + 1, |pieces|) + pieces[k];
      if |pieces| <= 999_999 { ShardFits(shown, k + 1, |pieces|, pieces[k], chunkBytes); }
      if Bytes(payload) > chunkBytes { return cs, true; }
      cs := cs + [ReviewChunk(first + k, [shown], payload)];
    }
    return cs, false;
  }

  /** The shards of one file: split, then head each piece. */
  method ShardFile(f: FileChange, first: nat, chunkBytes: nat) returns (cs: seq<ReviewChunk>, overflow: bool)
    requires Budget(Display(f.path), chunkBytes) >= 1024 && Bytes(f.diff) <= MAX_TOTAL_REVIEW_DIFF_BYTES
    ensures chunkBytes <= MAX_CHUNK_BYTES ==> !overflow
    ensures !overflow ==> Shards(cs, Display(f.path), Shown(f)) && Bounded(cs, chunkBytes) && NumberedFrom(cs, first)
  {
    var shown, text := Display(f.path), Shown(f);
    SingleLine(f.path);
    var split := SplitText(text, Budget(shown, chunkBytes));
    var pieces := split.value;
    if chunkBytes <= MAX_CHUNK_BYTES {
      ShownBytes(f, chunkBytes);
      PartCount(pieces, text, Budget(shown, chunkBytes));
    }
    cs, overflow := HeadPieces(shown, pieces, first, chunkBytes);
    if !overflow {
      NotEmpty(f, pieces);
      ShardsOf(cs, first, shown, pieces);
    }
  }

  function ShardOf(index: nat, shown: string, k: nat, pieces: seq<string>): ReviewChunk
    requires k < |pieces|
  {
    ReviewChunk(index, [shown], Header(shown, k + 1, |pieces|) + pieces[k])
  }

  ghost predicate Made(cs: seq<ReviewChunk>, first: nat, shown: string, pieces: seq<string>) {
    |cs| <= |pieces| && forall i :: 0 <= i < |cs| ==> cs[i] == ShardOf(first + i, shown, i, pieces)
  }

  lemma NotEmpty(f: FileChange, pieces: seq<string>)
    requires Concat(pieces) == Shown(f)
    ensures pieces != []
  {
    assert Shown(f) != "";
  }

  lemma ShardsOf(cs: seq<ReviewChunk>, first: nat, shown: string, pieces: seq<string>)
    requires Printable(shown) && |cs| == |pieces| > 0
    requires Made(cs, first, shown, pieces)
    ensures Shards(cs, shown, Concat(pieces)) && NumberedFrom(cs, first)
  {
    forall i | 0 <= i < |cs| ensures StripHeader(cs[i].text) == pieces[i] {
      StripHeaderOf(shown, i + 1, |pieces|, pieces[i]);
    }
    assert Payloads(cs) == pieces;
  }

  lemma CoversSnoc(files: seq<FileChange>, f: FileChange, groups: seq<seq<ReviewChunk>>, cs: seq<ReviewChunk>)
    requires Covers(files, groups) && Shards(cs, Display(f.path), Shown(f))
    ensures Covers(files + [f], groups + [cs]) && Flatten(groups + [cs]) == Flatten(groups) + cs
  {
    assert (groups + [cs])[..|groups|] == groups;
  }

  /** The state of the outer loop after i files. */
  ghost predicate Chunked(files: seq<FileChange>, groups: seq<seq<ReviewChunk>>, chunks: seq<ReviewChunk>,
                          chunkBytes: nat) {
    && Covers(files, groups) && chunks == Flatten(groups)
    && NumberedFrom(chunks, 1) && Bounded(chunks, chunkBytes)
  }

  lemma AppendNumbered(chunks: seq<ReviewChunk>, cs: seq<ReviewChunk>, chunkBytes: nat)
    requires NumberedFrom(chunks, 1) && NumberedFrom(cs, |chunks| + 1)
    requires Bounded(chunks, chunkBytes) && Bounded(cs, chunkBytes)
    ensures NumberedFrom(chunks + cs, 1) && Bounded(chunks + cs, chunkBytes)
  {
  }

  lemma PrefixSnoc(files: seq<FileChange>, i: nat)
    requires i < |files|
    ensures files[..i + 1] == files[..i] + [files[i]]
  {
  }

  lemma ChunkedSnoc(files: seq<FileChange>, i: nat, groups: seq<seq<ReviewChunk>>, chunks: seq<ReviewChunk>,
                    cs: seq<ReviewChunk>, chunkBytes: nat)
    requires i < |files| && Chunked(files[..i], groups, chunks, chunkBytes)
    requires Shards(cs, Display(files[i].path), Shown(files[i])) && Bounded(cs, chunkBytes)
    requires NumberedFrom(cs, |chunks| + 1)
    ensures Chunked(files[..i + 1], groups + [cs], chunks + cs, chunkBytes)
  {
    CoversSnoc(files[..i], files[i], groups, cs);
    AppendNumbered(chunks, cs, chunkBytes);
    PrefixSnoc(files, i);
  }

  /** The checks on one file in the order of the source, then its shards. */
  method ChunkFile(f: FileChange, total: nat, first: nat, chunkBytes: nat, allowBinary: bool)
    returns (refused: Option<ReviewError>, cs: seq<ReviewChunk>)
    ensures FileRefusal(f, total, chunkBytes, allowBinary).Some? ==>
              refused == FileRefusal(f, total, chunkBytes, allowBinary)
    ensures chunkBytes <= MAX_CHUNK_BYTES ==> refused == FileRefusal(f, total, chunkBytes, allowBinary)
    ensures refused.None? ==> FileRefusal(f, total, chunkBytes, allowBinary).None?
    ensures refused.None? ==>
              Shards(cs, Display(f.path), Shown(f)) && Bounded(cs, chunkBytes) && NumberedFrom(cs, first)
  {
    cs := [];
    var shown := Display(f.path);
    if !f.probe.Complete? { return Some(QueryRefused(f.probe)), cs; }
    if f.binary && !allowBinary { return Some(BinaryChange(shown)), cs; }
    if !f.content.Complete? { return Some(QueryRefused(f.content)), cs; }
    if total + Bytes(f.diff) > MAX_TOTAL_REVIEW_DIFF_BYTES { return Some(DiffTooLarge), cs; }
    if Budget(shown, chunkBytes) < 1024 { return Some(BudgetTooSmall(shown)), cs; }
    var overflow;
    cs, overflow := ShardFile(f, first, chunkBytes);
    return if overflow then Some(ChunkOverflow(shown)) else None, cs;
  }

  lemma RefusalStep(files: seq<FileChange>, i: nat, total: nat, check: Checks)
    requires i < |files|
    ensures check(files[i], total).Some? ==> Refusal(files, i, total, check) == check(files[i], total)
    ensures check(files[i], total).None? ==>
              Refusal(files, i, total, check) == Refusal(files, i + 1, total + Bytes(files[i].diff), check)
  {
  }

  /** One file of the loop. */
  method ChunkNext(files: seq<FileChange>, i: nat, total: nat, chunks: seq<ReviewChunk>, chunkBytes: nat,
                   allowBinary: bool, ghost groups: seq<seq<ReviewChunk>>)
    returns (refused: Option<ReviewError>, cs: seq<ReviewChunk>)
    requires i < |files| && Chunked(files[..i], groups, chunks, chunkBytes)
    ensures var check := ChecksFor(chunkBytes, allowBinary);
      && (refused.Some? && chunkBytes <= MAX_CHUNK_BYTES ==> refused == Refusal(files, i, total, check))
      && (refused.None? ==> Refusal(files, i, total, check) == Refusal(files, i + 1, total + Bytes(files[i].diff), check))
    ensures refused.None? ==> Chunked(files[..i + 1], groups + [cs], chunks + cs, chunkBytes)
  {
    refused, cs := ChunkFile(files[i], total, |chunks| + 1, chunkBytes, allowBinary);
    RefusalStep(files, i, total, ChecksFor(chunkBytes, allowBinary));
    if refused.None? { ChunkedSnoc(files, i, groups, chunks, cs, chunkBytes); }
  }

  lemma ChunkedNone(files: seq<FileChange>, chunkBytes: nat)
    ensures Chunked(files[..0], [], [], chunkBytes)
  {
  }

  /** The loop over the files: the first refusal, or the shards of all of them. */
  method ChunkAll(files: seq<FileChange>, chunkBytes: nat, allowBinary: bool)
    returns (refused: Option<ReviewError>, chunks: seq<ReviewChunk>, ghost groups: seq<seq<ReviewChunk>>)
    ensures chunkBytes <= MAX_CHUNK_BYTES ==> refused == Refusal(files, 0, 0, ChecksFor(chunkBytes, allowBinary))
    ensures refused.None? ==> Chunked(files, groups, chunks, chunkBytes)
  {
    var total: nat := 0;
    chunks, groups := [], [];
    ChunkedNone(files, chunkBytes);
    ghost var check := ChecksFor(chunkBytes, allowBinary);
    for i := 0 to |files|
      invariant Refusal(files, 0, 0, check) == Refusal(files, i, total, check)
      invariant Chunked(files[..i], groups, chunks, chunkBytes)
    {
      var cs;
      refused, cs := ChunkNext(files, i, total, chunks, chunkBytes, allowBinary, groups);
      if refused.Some? { return refused, chunks, groups; }
      total, groups, chunks := total + Bytes(files[i].diff), groups + [cs], chunks + cs;
    }
    assert files[..|files|] == files;
    return None, chunks, groups;
  }

  /** build_review_chunks. The only ways to refuse are a query that did not complete and a named check, in
      file order; with a configured chunk size the overflow guard never fires; otherwise every file is
      covered whole. */
  method BuildReviewChunks(listing: Answer, files: seq<FileChange>, maxFiles: nat, chunkBytes: nat, allowBinary: bool)
    returns (r: Built, ghost groups: seq<seq<ReviewChunk>>)
    ensures !listing.Complete? ==> r == Refused(QueryRefused(listing))
    ensures listing.Complete? && |files| > maxFiles ==> r == Refused(TooManyFiles)
    ensures listing.Complete? && |files| <= maxFiles && files == [] ==>
              r == Built([], [ReviewChunk(1, [], "No changed files.")])
    ensures listing.Complete? && |files| <= maxFiles && chunkBytes <= MAX_CHUNK_BYTES && files != [] ==>
              match Refusal(files, 0, 0, ChecksFor(chunkBytes, allowBinary))
              case Some(e) => r == Refused(e)
              case None => r.Built?
    ensures r.Built? && files != [] ==> r.manifest == Manifest(files) && Chunked(files, groups, r.chunks, chunkBytes)
  {
    groups := [];
    if !listing.Complete? { return Refused(QueryRefused(listing)), groups; }
    if |files| > maxFiles { return Refused(TooManyFiles), groups; }
    if files == [] { return Built([], [ReviewChunk(1, [], "No changed files.")]), groups; }
    var refused, chunks;
    refused, chunks, groups := ChunkAll(files, chunkBytes, allowBinary);
    if refused.Some? { return Refused(refused.value), groups; }
    return Built(Manifest(files), chunks), groups;
  }
}
