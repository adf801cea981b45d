/** The hierarchical final review: every shard, then every file, then a synthesis. */
module Review {
  import opened Model
  import opened Labels
  import opened ReviewSource
  import opened ReviewChunks

  datatype Verdict = Pass | Retry | Fail
  datatype ReviewResult = ReviewResult(verdict: Verdict, summary: string, findings: seq<string>)

  /** What Reviewer._run lets through; its texts are stripped, so blank means empty. */
  predicate WellFormed(r: ReviewResult) {
    if r.verdict.Pass? then r.findings == [] && r.summary != ""
    else r.summary != "" || exists f <- r.findings :: f != ""
  }

  /** What a rejection is quoted with. */
  function Voice(r: ReviewResult): seq<string> {
    if r.findings == [] then [r.summary] else r.findings
  }

  /** A rejection that quotes nothing. */
  predicate Silent(r: ReviewResult) {
    !r.verdict.Pass? && forall f <- Voice(r) :: f == ""
  }

  // ---- _review_failure -----------------------------------------------------------------

  datatype Entry = Entry(shown: string, review: ReviewResult)

  function Quoted(shown: string, texts: seq<string>): seq<string> {
    if texts == [] then []
    else Quoted(shown, texts[..|texts| - 1])
         + if texts[|texts| - 1] == "" then [] else [shown + ": " + texts[|texts| - 1]]
  }

  /** All findings of the rejections, each under its label. */
  function Findings(entries: seq<Entry>): seq<string> {
    if entries == [] then []
    else Findings(entries[..|entries| - 1]) + FindingsOf(entries[|entries| - 1])
  }

  function FindingsOf(e: Entry): seq<string> {
    if e.review.verdict.Pass? then [] else Quoted(e.shown, Voice(e.review))
  }

  function Bound(findings: seq<string>): seq<string> {
    if |findings| <= 64 then findings
    else findings[..64] + [Digits(|findings| - 64) + " additional findings omitted"]
  }

  predicate AnyFail(entries: seq<Entry>) {
    exists i :: 0 <= i < |entries| && entries[i].review.verdict.Fail?
  }

  /** None but passes and silent rejections. */
  predicate Unheard(entries: seq<Entry>) {
    forall i :: 0 <= i < |entries| ==> entries[i].review.verdict.Pass? || Silent(entries[i].review)
  }

  lemma {:induction false} QuotedEmpty(shown: string, texts: seq<string>)
    ensures Quoted(shown, texts) == [] <==> forall f <- texts :: f == ""
    decreases |texts|
  {
    if texts != [] {
      var init, last := texts[..|texts| - 1], texts[|texts| - 1];
      QuotedEmpty(shown, init);
      assert texts == init + [last];
      assert Quoted(shown, texts) == Quoted(shown, init) + if last == "" then [] else [shown + ": " + last];
      assert forall f :: f in texts <==> f in init || f == last;
      if last == "" {
        assert Quoted(shown, texts) == Quoted(shown, init);
      } else {
        assert last in texts && |Quoted(shown, texts)| > 0;
      }
    }
  }

  lemma FindingsOfEmpty(e: Entry)
    ensures FindingsOf(e) == [] <==> e.review.verdict.Pass? || Silent(e.review)
  {
    QuotedEmpty(e.shown, Voice(e.review));
  }

  lemma NothingAdded(a: seq<string>, b: seq<string>)
    ensures a + b == [] <==> a == [] && b == []
  {
    assert |a + b| == |a| + |b|;
  }

  lemma {:induction false} FindingsEmpty(entries: seq<Entry>)
    ensures Findings(entries) == [] <==> Unheard(entries)
    decreases |entries|
  {
    if entries != [] {
      var init, last := entries[..|entries| - 1], entries[|entries| - 1];
      FindingsEmpty(init);
      FindingsOfEmpty(last);
      NothingAdded(Findings(init), FindingsOf(last));
      UnheardSnoc(init, last);
      assert entries == init + [last];
    }
  }

  lemma UnheardSnoc(init: seq<Entry>, last: Entry)
    ensures Unheard(init + [last]) <==> Unheard(init) && (last.review.verdict.Pass? || Silent(last.review))
  {
    var entries := init + [last];
    if Unheard(entries) {
      forall i | 0 <= i < |init| ensures init[i].review.verdict.Pass? || Silent(init[i].review) {
        assert entries[i] == init[i];
      }
      assert entries[|init|] == last;
    }
  }

  lemma ListenedTo(entries: seq<Entry>, i: nat)
    requires i < |entries|
    ensures Findings(entries[..i + 1]) == Findings(entries[..i]) + FindingsOf(entries[i])
    ensures AnyFail(entries[..i + 1]) <==> AnyFail(entries[..i]) || entries[i].review.verdict.Fail?
  {
    var longer := entries[..i + 1];
    assert longer[..i] == entries[..i];
    if AnyFail(entries[..i]) {
      var k :| 0 <= k < i && entries[..i][k].review.verdict.Fail?;
      assert longer[k] == entries[k];
    }
    assert longer[i] == entries[i];
  }

  method ReviewFailure(summary: string, entries: seq<Entry>) returns (r: Option<ReviewResult>)
    ensures r.None? <==> Unheard(entries)
    ensures r.Some? ==>
              r.value == ReviewResult(if AnyFail(entries) then Fail else Retry, summary, Bound(Findings(entries)))
  {
    var findings: seq<string>, sawFail := [], false;
    for i := 0 to |entries|
      invariant findings == Findings(entries[..i]) && sawFail == AnyFail(entries[..i])
    {
      ListenedTo(entries, i);
      var review := entries[i].review;
      if !review.verdict.Pass? {
        sawFail := sawFail || review.verdict.Fail?;
        findings := findings + Quoted(entries[i].shown, Voice(review));
      }
    }
    assert entries[..|entries|] == entries;
    FindingsEmpty(entries);
    if findings == [] { return None; }
    return Some(ReviewResult(if sawFail then Fail else Retry, summary, Bound(findings)));
  }

  /** Exactly which rejections the reviewer contract lets through without anything to quote: those
      with a summary and only blank findings. */
  lemma SilentRejections(r: ReviewResult)
    requires WellFormed(r)
    ensures Silent(r) <==>
              !r.verdict.Pass? && r.findings != [] && r.summary != "" && forall f <- r.findings :: f == ""
  {
    if r.findings == [] {
      assert r.summary in Voice(r);
    } else {
      assert Voice(r) == r.findings;
    }
  }

  /** A rejected shard of this kind does not fail the shard audit. */
  lemma RejectionUnheard(shown: string)
    ensures var r := ReviewResult(Fail, "defect", [""]);
      WellFormed(r) && Silent(r) && Unheard([Entry(shown, r)])
  {
  }

  // ---- _hierarchical_final_review ------------------------------------------------------

  datatype Hierarchy =
    | BuildRefused(error: ReviewError)
    | ReviewerRaised
    | OutsideManifest(shown: string)
    | ShardFailure(failure: ReviewResult)
    | CoverageLost(shown: string)
    | FileFailure(failure: ReviewResult)
    | Synthesis(review: ReviewResult)
  {
    predicate Passed() {
      Synthesis? && review.verdict.Pass?
    }
  }

  /** The reviews of the chunks that name a file, in order. */
  function ReviewsOf(chunks: seq<ReviewChunk>, reviews: seq<ReviewResult>, shown: string): seq<ReviewResult>
    requires |reviews| == |chunks|
    decreases |chunks|
  {
    if chunks == [] then []
    else
      var n := |chunks| - 1;
      ReviewsOf(chunks[..n], reviews[..n], shown) + if shown in chunks[n].files then [reviews[n]] else []
  }

  lemma ReviewsOfSnoc(chunks: seq<ReviewChunk>, reviews: seq<ReviewResult>, k: nat, r: ReviewResult, shown: string)
    requires |reviews| == k < |chunks|
    ensures ReviewsOf(chunks[..k + 1], reviews + [r], shown)
            == ReviewsOf(chunks[..k], reviews, shown) + if shown in chunks[k].files then [r] else []
  {
    assert chunks[..k + 1][..k] == chunks[..k] && (reviews + [r])[..k] == reviews;
  }

  lemma {:induction false} ReviewsOfFound(chunks: seq<ReviewChunk>, reviews: seq<ReviewResult>, shown: string, k: nat)
    requires |reviews| == |chunks| && k < |chunks| && shown in chunks[k].files
    ensures ReviewsOf(chunks, reviews, shown) != []
    decreases |chunks|
  {
    var n := |chunks| - 1;
    if k < n {
      assert chunks[..n][k] == chunks[k];
      ReviewsOfFound(chunks[..n], reviews[..n], shown, k);
    }
  }

  /** Only labels of the manifest are named. */
  ghost predicate NamesOnly(chunks: seq<ReviewChunk>, manifest: seq<string>) {
    forall k :: 0 <= k < |chunks| ==> forall f <- chunks[k].files :: f in manifest
  }

  ghost predicate NamesAll(chunks: seq<ReviewChunk>, manifest: seq<string>) {
    forall f <- manifest :: exists k :: 0 <= k < |chunks| && f in chunks[k].files
  }

  lemma {:induction false} FlattenHas(groups: seq<seq<ReviewChunk>>, c: ReviewChunk)
    ensures c in Flatten(groups) <==> exists i :: 0 <= i < |groups| && c in groups[i]
    decreases |groups|
  {
    if groups != [] {
      var n := |groups| - 1;
      FlattenHas(groups[..n], c);
      assert forall i :: 0 <= i < n ==> groups[..n][i] == groups[i];
      assert c in Flatten(groups) <==> c in Flatten(groups[..n]) || c in groups[n];
    }
  }

  /** Every chunk names one file, and that file is in the manifest. */
  lemma CoverNamesOnly(files: seq<FileChange>, groups: seq<seq<ReviewChunk>>)
    requires Covers(files, groups)
    ensures NamesOnly(Flatten(groups), Manifest(files))
    ensures forall k :: 0 <= k < |Flatten(groups)| ==> |Flatten(groups)[k].files| == 1
  {
    var chunks, manifest := Flatten(groups), Manifest(files);
    forall k | 0 <= k < |chunks| ensures |chunks[k].files| == 1 && chunks[k].files[0] in manifest {
      FlattenHas(groups, chunks[k]);
      var i :| 0 <= i < |groups| && chunks[k] in groups[i];
      assert Shards(groups[i], Display(files[i].path), Shown(files[i]));
      assert chunks[k].files == [manifest[i]];
    }
  }

  /** Every file of the manifest is named by a chunk. */
  lemma CoverNamesAll(files: seq<FileChange>, groups: seq<seq<ReviewChunk>>)
    requires Covers(files, groups)
    ensures NamesAll(Flatten(groups), Manifest(files))
  {
    var chunks, manifest := Flatten(groups), Manifest(files);
    forall f | f in manifest ensures exists k :: 0 <= k < |chunks| && f in chunks[k].files {
      var i :| 0 <= i < |manifest| && manifest[i] == f;
      assert Shards(groups[i], Display(files[i].path), Shown(files[i]));
      var c := groups[i][0];
      assert c in Flatten(groups) by { FlattenHas(groups, c); }
      var k :| 0 <= k < |chunks| && chunks[k] == c;
      assert f in chunks[k].files;
    }
  }

  /** Everything one review run saw. */
  datatype Record = Record(chunks: seq<ReviewChunk>, shards: seq<ReviewResult>, files: seq<ReviewResult>)

  /** A file is judged by its only shard review, or by a synthesis of all of them. */
  ghost predicate Judged(manifest: seq<string>, rec: Record, i: nat)
    requires i < |manifest| && i < |rec.files| && |rec.shards| == |rec.chunks|
  {
    var own := ReviewsOf(rec.chunks, rec.shards, manifest[i]);
    own != [] && (|own| == 1 ==> rec.files[i] == own[0])
  }

  predicate Heard(r: ReviewResult) {
    r.verdict.Pass? || Silent(r)
  }

  /** Every shard and every file was reviewed, and none was heard to fail. */
  ghost predicate Audited(manifest: seq<string>, rec: Record) {
    && |rec.shards| == |rec.chunks| && |rec.files| == |manifest|
    && (forall k :: 0 <= k < |rec.shards| ==> WellFormed(rec.shards[k]) && Heard(rec.shards[k]))
    && (forall i :: 0 <= i < |manifest| ==>
          Judged(manifest, rec, i) && WellFormed(rec.files[i]) && Heard(rec.files[i]))
  }

  // ---- the reviewer --------------------------------------------------------------------

  /** What a prompt of the reviewer holds besides goal and gates. */
  datatype Question =
    | AboutShard(files: seq<string>, index: nat, total: nat, text: string)
    | AboutFile(shown: string, summaries: seq<string>)
    | AboutAll(manifest: seq<string>, summaries: seq<string>)

  /** Which call of the review this is; each happens at most once. */
  datatype Turn = OfShard(k: nat) | OfFile(i: nat) | OfAll

  /** Any reviewer: an answer to each question, or an error. It may answer the same question differently
      on another turn. */
  type Reviewer = (Turn, Question) -> Option<ReviewResult>

  function SummariesOf(reviews: seq<ReviewResult>): seq<string> {
    seq(|reviews|, i requires 0 <= i < |reviews| => reviews[i].summary)
  }

  const MAX_SYNTHESIS_INPUT_BYTES := 80_000

  function ShardLines(summaries: seq<string>): seq<string> {
    seq(|summaries|, i requires 0 <= i < |summaries| => "- shard " + Digits(i + 1) + ": " + summaries[i])
  }

  function ManifestLines(manifest: seq<string>): seq<string> {
    seq(|manifest|, i requires 0 <= i < |manifest| => "- " + manifest[i])
  }

  function ReportLines(manifest: seq<string>, summaries: seq<string>): seq<string>
    requires |manifest| == |summaries|
  {
    seq(|manifest|, i requires 0 <= i < |manifest| => "- " + manifest[i] + ": " + summaries[i])
  }

  /** The length of the lines joined by newlines, in bytes. */
  function JoinedBytes(lines: seq<string>): nat
    decreases |lines|
  {
    if lines == [] then 0
    else if |lines| == 1 then Bytes(lines[0])
    else JoinedBytes(lines[..|lines| - 1]) + 1 + Bytes(lines[|lines| - 1])
  }

  /** A synthesis is only asked for when its whole input fits a prompt. */
  predicate Askable(q: Question) {
    match q
    case AboutShard(_, _, _, _) => true
    case AboutFile(shown, summaries) =>
      Bytes(shown) <= MAX_SYNTHESIS_INPUT_BYTES && JoinedBytes(ShardLines(summaries)) <= MAX_SYNTHESIS_INPUT_BYTES
    case AboutAll(manifest, summaries) =>
      && JoinedBytes(ManifestLines(manifest)) <= MAX_SYNTHESIS_INPUT_BYTES
      && (|manifest| == |summaries| ==> JoinedBytes(ReportLines(manifest, summaries)) <= MAX_SYNTHESIS_INPUT_BYTES)
  }

  /** Reviewer._run: a report that breaks the contract is an error. */
  function Ask(reviewer: Reviewer, turn: Turn, q: Question): (r: Option<ReviewResult>)
    ensures r.Some? ==> WellFormed(r.value) && reviewer(turn, q) == r && Askable(q)
  {
    var answer := reviewer(turn, q);
    if Askable(q) && answer.Some? && WellFormed(answer.value) then answer else None
  }

  /** The answer about one chunk, shown with its own text, files and number. */
  function ShardAnswer(reviewer: Reviewer, chunks: seq<ReviewChunk>, k: nat): Option<ReviewResult>
    requires k < |chunks|
  {
    Ask(reviewer, OfShard(k), AboutShard(chunks[k].files, chunks[k].index, |chunks|, chunks[k].text))
  }

  /** The judgement of one file: its only shard report, or the answer about all of its reports. */
  function FileAnswer(reviewer: Reviewer, manifest: seq<string>, chunks: seq<ReviewChunk>, shards: seq<ReviewResult>, i: nat)
    : Option<ReviewResult>
    requires i < |manifest| && |shards| == |chunks|
  {
    var own := ReviewsOf(chunks, shards, manifest[i]);
    if |own| == 1 then Some(own[0]) else Ask(reviewer, OfFile(i), AboutFile(manifest[i], SummariesOf(own)))
  }

  function FinalAnswer(reviewer: Reviewer, manifest: seq<string>, files: seq<ReviewResult>): Option<ReviewResult> {
    Ask(reviewer, OfAll, AboutAll(manifest, SummariesOf(files)))
  }

  /** reviews are the answers about the chunks, each about its own. */
  ghost predicate AnswersShards(reviewer: Reviewer, chunks: seq<ReviewChunk>, reviews: seq<ReviewResult>) {
    |reviews| <= |chunks| && forall k :: 0 <= k < |reviews| ==> ShardAnswer(reviewer, chunks, k) == Some(reviews[k])
  }

  ghost predicate AnswersFiles(reviewer: Reviewer, manifest: seq<string>, chunks: seq<ReviewChunk>,
                               shards: seq<ReviewResult>, files: seq<ReviewResult>) {
    && |shards| == |chunks| && |files| <= |manifest|
    && forall i :: 0 <= i < |files| ==> FileAnswer(reviewer, manifest, chunks, shards, i) == Some(files[i])
  }

  /** chunk_reviews_by_file holds what each file's chunks got so far. */
  ghost predicate Filed(byFile: map<string, seq<ReviewResult>>, manifest: seq<string>, chunks: seq<ReviewChunk>,
                        reviews: seq<ReviewResult>)
    requires |reviews| <= |chunks|
  {
    && (forall f :: f in byFile <==> f in manifest)
    && (forall f <- byFile :: byFile[f] == ReviewsOf(chunks[..|reviews|], reviews, f))
  }

  /** File a review under every file its chunk names; each chunk names a file at most once. */
  method FileReview(byFile: map<string, seq<ReviewResult>>, c: ReviewChunk, r: ReviewResult)
    returns (out: map<string, seq<ReviewResult>>, outside: Option<string>)
    requires |c.files| <= 1
    ensures outside.None? <==> forall f <- c.files :: f in byFile
    ensures outside.None? ==> out.Keys == byFile.Keys
    ensures outside.None? ==> forall f <- out :: out[f] == byFile[f] + if f in c.files then [r] else []
  {
    out, outside := byFile, None;
    for n := 0 to |c.files|
      invariant forall m :: 0 <= m < n ==> c.files[m] in byFile
      invariant out.Keys == byFile.Keys
      invariant forall f <- out :: out[f] == byFile[f] + if f in c.files[..n] then [r] else []
    {
      var f := c.files[n];
      if f !in out { return out, Some(f); }
      out := out[f := out[f] + [r]];
      assert c.files[..n + 1] == c.files[..n] + [f];
    }
    assert c.files[..|c.files|] == c.files;
  }

  /** The loop over the chunks. It ends early exactly when the reviewer fails on a chunk. */
  method ReviewShards(reviewer: Reviewer, manifest: seq<string>, chunks: seq<ReviewChunk>)
    returns (r: Option<Hierarchy>, reviews: seq<ReviewResult>, byFile: map<string, seq<ReviewResult>>)
    requires NamesOnly(chunks, manifest) && forall k :: 0 <= k < |chunks| ==> |chunks[k].files| <= 1
    ensures AnswersShards(reviewer, chunks, reviews)
    ensures r.Some? ==>
              r == Some(ReviewerRaised) && |reviews| < |chunks| && ShardAnswer(reviewer, chunks, |reviews|).None?
    ensures r.None? ==> |reviews| == |chunks| && Filed(byFile, manifest, chunks, reviews)
    ensures forall k :: 0 <= k < |reviews| ==> WellFormed(reviews[k])
  {
    byFile := map f | f in manifest :: [];
    reviews := [];
    for k := 0 to |chunks|
      invariant |reviews| == k && Filed(byFile, manifest, chunks, reviews)
      invariant AnswersShards(reviewer, chunks, reviews)
      invariant forall i :: 0 <= i < k ==> WellFormed(reviews[i])
    {
      var review := ShardAnswer(reviewer, chunks, k);
      if review.None? { return Some(ReviewerRaised), reviews, byFile; }
      var next, outside := FileReview(byFile, chunks[k], review.value);
      if outside.Some? {
        assert false;
        return Some(OutsideManifest("")), reviews, byFile;
      }
      FiledSnoc(byFile, next, manifest, chunks, reviews, review.value);
      byFile, reviews := next, reviews + [review.value];
    }
    return None, reviews, byFile;
  }

  lemma FiledSnoc(byFile: map<string, seq<ReviewResult>>, next: map<string, seq<ReviewResult>>, manifest: seq<string>,
                  chunks: seq<ReviewChunk>, reviews: seq<ReviewResult>, r: ReviewResult)
    requires |reviews| < |chunks| && Filed(byFile, manifest, chunks, reviews) && next.Keys == byFile.Keys
    requires forall f <- next :: next[f] == byFile[f] + if f in chunks[|reviews|].files then [r] else []
    ensures Filed(next, manifest, chunks, reviews + [r])
  {
    forall f | f in next ensures next[f] == ReviewsOf(chunks[..|reviews| + 1], reviews + [r], f) {
      ReviewsOfSnoc(chunks, reviews, |reviews|, r, f);
    }
  }

  /** One file of the manifest: its only shard report, or a synthesis of its reports. */
  method JudgeFile(reviewer: Reviewer, manifest: seq<string>, chunks: seq<ReviewChunk>, reviews: seq<ReviewResult>,
                   byFile: map<string, seq<ReviewResult>>, i: nat)
    returns (lost: bool, review: Option<ReviewResult>)
    requires |reviews| == |chunks| && Filed(byFile, manifest, chunks, reviews) && NamesAll(chunks, manifest)
    requires i < |manifest| && forall k :: 0 <= k < |reviews| ==> WellFormed(reviews[k])
    ensures !lost && review == FileAnswer(reviewer, manifest, chunks, reviews, i)
    ensures review.Some? ==> WellFormed(review.value)
    ensures var own := ReviewsOf(chunks, reviews, manifest[i]);
      own != [] && (|own| == 1 ==> review == Some(own[0]))
  {
    assert chunks[..|reviews|] == chunks && manifest[i] in manifest;
    OwnReviews(chunks, reviews, manifest[i]);
    var own := byFile[manifest[i]];
    if own == [] {
      assert false;
      return true, None;
    }
    if |own| == 1 { return false, Some(own[0]); }
    return false, Ask(reviewer, OfFile(i), AboutFile(manifest[i], SummariesOf(own)));
  }

  /** The files judged so far. */
  ghost predicate JudgedSoFar(manifest: seq<string>, chunks: seq<ReviewChunk>, reviews: seq<ReviewResult>,
                              fileReviews: seq<ReviewResult>) {
    && |reviews| == |chunks| && |fileReviews| <= |manifest|
    && forall n :: 0 <= n < |fileReviews| ==>
         WellFormed(fileReviews[n]) && Judged(manifest, Record(chunks, reviews, fileReviews), n)
  }

  lemma JudgedMore(manifest: seq<string>, chunks: seq<ReviewChunk>, reviews: seq<ReviewResult>,
                   fileReviews: seq<ReviewResult>, r: ReviewResult)
    requires JudgedSoFar(manifest, chunks, reviews, fileReviews) && |fileReviews| < |manifest| && WellFormed(r)
    requires var own := ReviewsOf(chunks, reviews, manifest[|fileReviews|]); own != [] && (|own| == 1 ==> r == own[0])
    ensures JudgedSoFar(manifest, chunks, reviews, fileReviews + [r])
  {
    forall n | 0 <= n < |fileReviews| + 1
      ensures WellFormed((fileReviews + [r])[n]) && Judged(manifest, Record(chunks, reviews, fileReviews + [r]), n)
    {
      if n < |fileReviews| { assert Judged(manifest, Record(chunks, reviews, fileReviews), n); }
    }
  }

  /** The loop over the manifest. It ends early exactly when the reviewer fails on a file. */
  method ReviewFiles(reviewer: Reviewer, manifest: seq<string>, chunks: seq<ReviewChunk>, reviews: seq<ReviewResult>,
                     byFile: map<string, seq<ReviewResult>>)
    returns (r: Option<Hierarchy>, fileReviews: seq<ReviewResult>)
    requires |reviews| == |chunks| && Filed(byFile, manifest, chunks, reviews) && NamesAll(chunks, manifest)
    requires forall k :: 0 <= k < |reviews| ==> WellFormed(reviews[k])
    ensures AnswersFiles(reviewer, manifest, chunks, reviews, fileReviews)
    ensures r.Some? ==> r == Some(ReviewerRaised) && |fileReviews| < |manifest|
                        && FileAnswer(reviewer, manifest, chunks, reviews, |fileReviews|).None?
    ensures r.None? ==> |fileReviews| == |manifest|
    ensures JudgedSoFar(manifest, chunks, reviews, fileReviews)
  {
    fileReviews := [];
    for i := 0 to |manifest|
      invariant |fileReviews| == i && AnswersFiles(reviewer, manifest, chunks, reviews, fileReviews)
      invariant JudgedSoFar(manifest, chunks, reviews, fileReviews)
    {
      var lost, review := JudgeFile(reviewer, manifest, chunks, reviews, byFile, i);
      if lost {
        assert false;
        return Some(CoverageLost("")), fileReviews;
      }
      if review.None? { return Some(ReviewerRaised), fileReviews; }
      JudgedMore(manifest, chunks, reviews, fileReviews, review.value);
      fileReviews := fileReviews + [review.value];
    }
    return None, fileReviews;
  }

  /** A named file has a review, and all its reviews are well formed. */
  lemma OwnReviews(chunks: seq<ReviewChunk>, reviews: seq<ReviewResult>, shown: string)
    requires |reviews| == |chunks| && exists k :: 0 <= k < |chunks| && shown in chunks[k].files
    requires forall k :: 0 <= k < |reviews| ==> WellFormed(reviews[k])
    ensures ReviewsOf(chunks, reviews, shown) != []
    ensures forall k :: 0 <= k < |ReviewsOf(chunks, reviews, shown)| ==> WellFormed(ReviewsOf(chunks, reviews, shown)[k])
  {
    var k :| 0 <= k < |chunks| && shown in chunks[k].files;
    ReviewsOfFound(chunks, reviews, shown, k);
    ReviewsOfFormed(chunks, reviews, shown);
  }

  lemma {:induction false} ReviewsOfFormed(chunks: seq<ReviewChunk>, reviews: seq<ReviewResult>, shown: string)
    requires |reviews| == |chunks| && forall k :: 0 <= k < |reviews| ==> WellFormed(reviews[k])
    ensures forall k :: 0 <= k < |ReviewsOf(chunks, reviews, shown)| ==> WellFormed(ReviewsOf(chunks, reviews, shown)[k])
    decreases |chunks|
  {
    if chunks != [] { ReviewsOfFormed(chunks[..|chunks| - 1], reviews[..|chunks| - 1], shown); }
  }

  function Labelled(labels: seq<string>, reviews: seq<ReviewResult>): (entries: seq<Entry>)
    requires |labels| == |reviews|
    ensures |entries| == |labels|
    ensures forall i :: 0 <= i < |entries| ==> entries[i] == Entry(labels[i], reviews[i])
  {
    seq(|labels|, i requires 0 <= i < |labels| => Entry(labels[i], reviews[i]))
  }

  function ChunkLabels(chunks: seq<ReviewChunk>): (labels: seq<string>)
    ensures |labels| == |chunks|
  {
    seq(|chunks|, i requires 0 <= i < |chunks| => "chunk " + Digits(chunks[i].index))
  }

  lemma UnheardReviews(labels: seq<string>, reviews: seq<ReviewResult>)
    requires |labels| == |reviews|
    ensures Unheard(Labelled(labels, reviews)) <==> forall k :: 0 <= k < |reviews| ==> Heard(reviews[k])
  {
    var entries := Labelled(labels, reviews);
    if Unheard(entries) {
      forall k | 0 <= k < |reviews| ensures Heard(reviews[k]) { assert entries[k].review == reviews[k]; }
    }
  }

  const SHARD_DEFECTS := "hierarchical shard audit found material defects"
  const FILE_DEFECTS := "file-level semantic synthesis found material defects"

  predicate AllHeard(reviews: seq<ReviewResult>) {
    forall k :: 0 <= k < |reviews| ==> Heard(reviews[k])
  }

  /** The report of an audit that heard a rejection. */
  ghost function FailureOf(summary: string, entries: seq<Entry>): ReviewResult {
    ReviewResult(if AnyFail(entries) then Fail else Retry, summary, Bound(Findings(entries)))
  }

  /** Which answers decide the review, level after level, and to what. */
  ghost predicate Decides(reviewer: Reviewer, manifest: seq<string>, rec: Record, r: Hierarchy) {
    && AnswersShards(reviewer, rec.chunks, rec.shards)
    && if |rec.shards| < |rec.chunks| then
         rec.files == [] && ShardAnswer(reviewer, rec.chunks, |rec.shards|).None? && r == ReviewerRaised
       else if !AllHeard(rec.shards) then
         rec.files == [] && r == ShardFailure(FailureOf(SHARD_DEFECTS, Labelled(ChunkLabels(rec.chunks), rec.shards)))
       else
         && AnswersFiles(reviewer, manifest, rec.chunks, rec.shards, rec.files)
         && if |rec.files| < |manifest| then
              FileAnswer(reviewer, manifest, rec.chunks, rec.shards, |rec.files|).None? && r == ReviewerRaised
            else if !AllHeard(rec.files) then
              r == FileFailure(FailureOf(FILE_DEFECTS, Labelled(manifest, rec.files)))
            else
              var last := FinalAnswer(reviewer, manifest, rec.files);
              r == if last.Some? then Synthesis(last.value) else ReviewerRaised
  }

  /** What reviewing the chunks and files leads to. */
  method Audit(reviewer: Reviewer, manifest: seq<string>, chunks: seq<ReviewChunk>)
    returns (r: Hierarchy, ghost rec: Record)
    requires NamesOnly(chunks, manifest) && NamesAll(chunks, manifest)
    requires forall k :: 0 <= k < |chunks| ==> |chunks[k].files| <= 1
    ensures rec.chunks == chunks && Decides(reviewer, manifest, rec, r)
    ensures r.ReviewerRaised? || r.ShardFailure? || r.FileFailure? || r.Synthesis?
    ensures r.Synthesis? ==> Audited(manifest, rec) && WellFormed(r.review)
    ensures r.ShardFailure? || r.FileFailure? ==> !r.failure.verdict.Pass?
  {
    var early, shards, byFile := ReviewShards(reviewer, manifest, chunks);
    rec := Record(chunks, shards, []);
    if early.Some? { return early.value, rec; }
    UnheardReviews(ChunkLabels(chunks), shards);
    var failure := ReviewFailure(SHARD_DEFECTS, Labelled(ChunkLabels(chunks), shards));
    if failure.Some? { return ShardFailure(failure.value), rec; }
    var fileReviews;
    early, fileReviews := ReviewFiles(reviewer, manifest, chunks, shards, byFile);
    rec := Record(chunks, shards, fileReviews);
    if early.Some? { return early.value, rec; }
    UnheardReviews(manifest, fileReviews);
    failure := ReviewFailure(FILE_DEFECTS, Labelled(manifest, fileReviews));
    if failure.Some? { return FileFailure(failure.value), rec; }
    var synthesis := FinalAnswer(reviewer, manifest, fileReviews);
    return if synthesis.Some? then Synthesis(synthesis.value) else ReviewerRaised, rec;
  }

  /** _hierarchical_final_review. A file is never lost and never unknown; the answers about the chunks, the
      files and the manifest decide, each about its own question; a pass means every shard and every file
      was reviewed and no rejection was heard. */
  method HierarchicalFinalReview(reviewer: Reviewer, listing: Answer, files: seq<FileChange>, maxFiles: nat,
                                 chunkBytes: nat, allowBinary: bool)
    returns (r: Hierarchy, ghost groups: seq<seq<ReviewChunk>>, ghost rec: Record)
    ensures !r.OutsideManifest? && !r.CoverageLost?
    ensures !r.BuildRefused? ==> Decides(reviewer, Manifest(files), rec, r)
    ensures !r.BuildRefused? && files != [] ==> Chunked(files, groups, rec.chunks, chunkBytes)
    ensures !r.BuildRefused? && files == [] ==> rec.chunks == [ReviewChunk(1, [], "No changed files.")]
    ensures chunkBytes <= MAX_CHUNK_BYTES && listing.Complete? && |files| <= maxFiles ==>
              (r.BuildRefused? <==> Refusal(files, 0, 0, ChecksFor(chunkBytes, allowBinary)).Some?)
    ensures r.ShardFailure? || r.FileFailure? ==> !r.failure.verdict.Pass?
    ensures r.Synthesis? ==> Audited(Manifest(files), rec) && WellFormed(r.review)
  {
    var built;
    built, groups := BuildReviewChunks(listing, files, maxFiles, chunkBytes, allowBinary);
    rec := Record([], [], []);
    if built.Refused? { return BuildRefused(built.error), groups, rec; }
    if files != [] {
      CoverNamesOnly(files, groups);
      CoverNamesAll(files, groups);
    } else {
      assert Manifest(files) == [];
    }
    r, rec := Audit(reviewer, built.manifest, built.chunks);
  }

  // ---- what a pass covers --------------------------------------------------------------

  lemma {:induction false} ReviewsOfAppend(a: seq<ReviewChunk>, b: seq<ReviewChunk>, ra: seq<ReviewResult>,
                                           rb: seq<ReviewResult>, shown: string)
    requires |a| == |ra| && |b| == |rb|
    ensures ReviewsOf(a + b, ra + rb, shown) == ReviewsOf(a, ra, shown) + ReviewsOf(b, rb, shown)
    decreases |b|
  {
    if b == [] {
      assert a + b == a && ra + rb == ra;
    } else {
      var n := |b| - 1;
      ReviewsOfAppend(a, b[..n], ra, rb[..n], shown);
      assert (a + b)[..|a| + n] == a + b[..n] && (ra + rb)[..|a| + n] == ra + rb[..n];
    }
  }

  lemma ReviewsOfLast(cs: seq<ReviewChunk>, rs: seq<ReviewResult>, own: string, shown: string)
    requires |cs| == |rs| > 0 && cs[|cs| - 1].files == [own]
    ensures var n := |cs| - 1;
      ReviewsOf(cs, rs, shown) == ReviewsOf(cs[..n], rs[..n], shown) + if shown == own then [rs[n]] else []
  {
    var n := |cs| - 1;
    assert shown in cs[n].files <==> shown == own;
  }

  lemma {:induction false} ReviewsOfGroup(cs: seq<ReviewChunk>, rs: seq<ReviewResult>, own: string, shown: string)
    requires |cs| == |rs| && forall k :: 0 <= k < |cs| ==> cs[k].files == [own]
    ensures ReviewsOf(cs, rs, shown) == if shown == own then rs else []
    decreases |cs|
  {
    if cs != [] {
      var n := |cs| - 1;
      ReviewsOfLast(cs, rs, own, shown);
      ReviewsOfGroup(cs[..n], rs[..n], own, shown);
      assert rs[..n] + [rs[n]] == rs;
    }
  }

  function Offset(groups: seq<seq<ReviewChunk>>, i: nat): nat
    requires i <= |groups|
  {
    |Flatten(groups[..i])|
  }

  lemma OffsetNext(groups: seq<seq<ReviewChunk>>, i: nat)
    requires i < |groups|
    ensures Offset(groups, i + 1) == Offset(groups, i) + |groups[i]|
    ensures Flatten(groups[..i + 1]) == Flatten(groups[..i]) + groups[i]
  {
    assert groups[..i + 1][..i] == groups[..i];
  }

  /** Distinct paths, as Git lists them. */
  ghost predicate DistinctPaths(files: seq<FileChange>) {
    && (forall i :: 0 <= i < |files| ==> FsDecoded(files[i].path))
    && (forall i, k :: 0 <= i < k < |files| ==> files[i].path != files[k].path)
  }

  lemma DistinctLabels(files: seq<FileChange>)
    requires DistinctPaths(files)
    ensures forall i, k :: 0 <= i < k < |files| ==> Manifest(files)[i] != Manifest(files)[k]
  {
    forall i, k | 0 <= i < k < |files| ensures Manifest(files)[i] != Manifest(files)[k] {
      InjectiveOnFsDecoded(files[i].path, files[k].path);
    }
  }

  ghost predicate Grouped(groups: seq<seq<ReviewChunk>>, labels: seq<string>) {
    && |groups| == |labels|
    && (forall i, k :: 0 <= i < |groups| && 0 <= k < |groups[i]| ==> groups[i][k].files == [labels[i]])
    && (forall i, k :: 0 <= i < k < |labels| ==> labels[i] != labels[k])
  }

  lemma SliceOfLeft(left: seq<ReviewResult>, right: seq<ReviewResult>, o: nat, n: nat)
    requires o + n <= |left|
    ensures (left + right)[o..][..n] == left[o..][..n]
  {
  }

  lemma SliceOfRight(left: seq<ReviewResult>, right: seq<ReviewResult>)
    ensures (left + right)[|left|..][..|right|] == right
  {
  }

  /** One more group adds its reviews to its own label and to no other. */
  lemma OwnGroupStep(before: seq<ReviewChunk>, group: seq<ReviewChunk>, left: seq<ReviewResult>,
                     right: seq<ReviewResult>, own: string, shown: string)
    requires |before| == |left| && |group| == |right|
    requires forall k :: 0 <= k < |group| ==> group[k].files == [own]
    ensures ReviewsOf(before + group, left + right, shown)
            == ReviewsOf(before, left, shown) + if shown == own then right else []
  {
    ReviewsOfAppend(before, group, left, right, shown);
    ReviewsOfGroup(group, right, own, shown);
  }

  /** The reviews filed under a label are exactly those of its own group. */
  lemma {:induction false} OwnGroup(groups: seq<seq<ReviewChunk>>, labels: seq<string>, reviews: seq<ReviewResult>,
                                    i: nat, n: nat)
    requires Grouped(groups, labels) && i < |groups| && n <= |groups|
    requires |reviews| == Offset(groups, n)
    ensures i < n ==> Offset(groups, i) + |groups[i]| <= |reviews|
    ensures ReviewsOf(Flatten(groups[..n]), reviews, labels[i])
            == if i < n then reviews[Offset(groups, i)..][..|groups[i]|] else []
    decreases n
  {
    if n > 0 {
      var m := n - 1;
      OffsetNext(groups, m);
      var left, right := reviews[..Offset(groups, m)], reviews[Offset(groups, m)..];
      assert reviews == left + right;
      OwnGroup(groups, labels, left, i, m);
      OwnGroupAdds(groups, labels, left, right, i, m);
    }
  }

  lemma OwnGroupAdds(groups: seq<seq<ReviewChunk>>, labels: seq<string>, left: seq<ReviewResult>,
                     right: seq<ReviewResult>, i: nat, m: nat)
    requires Grouped(groups, labels) && i < |groups| && m < |groups|
    requires |left| == Offset(groups, m) && |right| == |groups[m]|
    requires i < m ==> Offset(groups, i) + |groups[i]| <= |left|
    requires ReviewsOf(Flatten(groups[..m]), left, labels[i])
             == if i < m then left[Offset(groups, i)..][..|groups[i]|] else []
    ensures |Flatten(groups[..m + 1])| == |left + right|
    ensures i <= m ==> Offset(groups, i) + |groups[i]| <= |left + right|
    ensures ReviewsOf(Flatten(groups[..m + 1]), left + right, labels[i])
            == if i <= m then (left + right)[Offset(groups, i)..][..|groups[i]|] else []
  {
    OffsetNext(groups, m);
    OwnGroupStep(Flatten(groups[..m]), groups[m], left, right, labels[m], labels[i]);
    if i < m {
      SliceOfLeft(left, right, Offset(groups, i), |groups[i]|);
    } else if i == m {
      SliceOfRight(left, right);
    }
  }

  /** The reviews filed under a path are exactly those of its own shards. */
  lemma OwnShards(files: seq<FileChange>, groups: seq<seq<ReviewChunk>>, reviews: seq<ReviewResult>, i: nat)
    requires Covers(files, groups) && DistinctPaths(files) && i < |files| && |reviews| == |Flatten(groups)|
    ensures Offset(groups, i) + |groups[i]| <= |reviews|
    ensures ReviewsOf(Flatten(groups), reviews, Display(files[i].path)) == reviews[Offset(groups, i)..][..|groups[i]|]
  {
    DistinctLabels(files);
    forall m, k | 0 <= m < |groups| && 0 <= k < |groups[m]| ensures groups[m][k].files == [Manifest(files)[m]] {
      assert Shards(groups[m], Display(files[m].path), Shown(files[m]));
    }
    assert groups[..|files|] == groups;
    OwnGroup(groups, Manifest(files), reviews, i, |files|);
  }

  /** No report of the run rejects without saying anything. */
  ghost predicate AllSpeak(rec: Record) {
    && (forall k :: 0 <= k < |rec.shards| ==> !Silent(rec.shards[k]))
    && (forall i :: 0 <= i < |rec.files| ==> !Silent(rec.files[i]))
  }

  ghost predicate AllPassed(rec: Record) {
    && (forall k :: 0 <= k < |rec.shards| ==> rec.shards[k].verdict.Pass?)
    && (forall i :: 0 <= i < |rec.files| ==> rec.files[i].verdict.Pass?)
  }

  /** Coverage: every changed file is in the manifest under its own label, its shards without their
      headers are its whole diff and were judged together; and all reports of shards and files passed
      exactly when none of them rejects without saying anything. */
  lemma PassCoversEveryFile(files: seq<FileChange>, groups: seq<seq<ReviewChunk>>, rec: Record, chunkBytes: nat, i: nat)
    requires Chunked(files, groups, rec.chunks, chunkBytes) && Audited(Manifest(files), rec)
    requires DistinctPaths(files) && i < |files|
    ensures Manifest(files)[i] == Display(files[i].path)
    ensures Concat(Payloads(groups[i])) == Shown(files[i])
    ensures Offset(groups, i) + |groups[i]| <= |rec.chunks|
    ensures rec.chunks[Offset(groups, i)..][..|groups[i]|] == groups[i]
    ensures ReviewsOf(rec.chunks, rec.shards, Display(files[i].path)) == rec.shards[Offset(groups, i)..][..|groups[i]|]
    ensures AllPassed(rec) <==> AllSpeak(rec)
  {
    assert Shards(groups[i], Display(files[i].path), Shown(files[i]));
    assert groups[..|files|] == groups;
    OwnShards(files, groups, rec.shards, i);
    GroupAt(groups, i, |groups|);
    HeardMeansPassed(Manifest(files), rec);
  }

  lemma HeardMeansPassed(manifest: seq<string>, rec: Record)
    requires Audited(manifest, rec)
    ensures AllPassed(rec) <==> AllSpeak(rec)
  {
  }

  /** A rejection with a summary and one blank finding. */
  const UNHEARD := ReviewResult(Fail, "defect", [""])

  /** So a review can go on to its synthesis, and pass, although every report on shards and files is a
      rejection: on any chunks that cover a manifest there is such a record. */
  lemma RejectedYetAudited(manifest: seq<string>, chunks: seq<ReviewChunk>)
    requires NamesAll(chunks, manifest)
    ensures var rec := Record(chunks, seq(|chunks|, _ => UNHEARD), seq(|manifest|, _ => UNHEARD));
      && Audited(manifest, rec)
      && (forall k :: 0 <= k < |chunks| ==> rec.shards[k].verdict.Fail?)
      && (forall i :: 0 <= i < |manifest| ==> rec.files[i].verdict.Fail?)
  {
    var rec := Record(chunks, seq(|chunks|, _ => UNHEARD), seq(|manifest|, _ => UNHEARD));
    assert WellFormed(UNHEARD) && Silent(UNHEARD);
    forall i | 0 <= i < |manifest| ensures Judged(manifest, rec, i) {
      assert manifest[i] in manifest;
      OwnReviews(chunks, rec.shards, manifest[i]);
      OnlyThese(chunks, rec.shards, manifest[i], UNHEARD);
      var own := ReviewsOf(chunks, rec.shards, manifest[i]);
      assert own[0] in own && rec.files[i] == own[0];
    }
  }

  lemma {:induction false} OnlyThese(chunks: seq<ReviewChunk>, reviews: seq<ReviewResult>, shown: string, r: ReviewResult)
    requires |reviews| == |chunks| && forall k :: 0 <= k < |reviews| ==> reviews[k] == r
    ensures forall x <- ReviewsOf(chunks, reviews, shown) :: x == r
    decreases |chunks|
  {
    if chunks != [] {
      var n := |chunks| - 1;
      OnlyThese(chunks[..n], reviews[..n], shown, r);
      assert ReviewsOf(chunks, reviews, shown)
          == ReviewsOf(chunks[..n], reviews[..n], shown) + if shown in chunks[n].files then [reviews[n]] else [];
    }
  }

  lemma {:induction false} GroupAt(groups: seq<seq<ReviewChunk>>, i: nat, n: nat)
    requires i < n <= |groups|
    ensures Offset(groups, i) + |groups[i]| <= Offset(groups, n)
    ensures Flatten(groups[..n])[Offset(groups, i)..][..|groups[i]|] == groups[i]
    decreases n
  {
    OffsetNext(groups, n - 1);
    if i < n - 1 {
      GroupAt(groups, i, n - 1);
      assert Flatten(groups[..n])[Offset(groups, i)..][..|groups[i]|]
          == Flatten(groups[..n - 1])[Offset(groups, i)..][..|groups[i]|];
    }
  }
}
