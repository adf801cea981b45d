/** The final cycles of a job: gates, hierarchical review, repair, and the journaling of what passed. */
module Finalize {
  import opened Model
  import opened DatabaseClass
  import opened ReviewChunks
  import opened Review
  import opened G = Git
  import opened GitRepoClass
  import opened RunJob
  import opened DossierBuild

  /** What happened to the integration branch, in order; each entry names the HEAD it was about. */
  datatype Mark =
    | GatesRan(head: string, ok: bool)
    | ReviewRan(head: string, passed: bool)
    | RepairRan(after: string)

  datatype FinalEnd = Concluded(summary: string) | GatesFailed | AuditFailed | RepairFailed | Escaped

  function GateRuns(trail: seq<Mark>): nat {
    if trail == [] then 0 else GateRuns(trail[..|trail| - 1]) + if trail[|trail| - 1].GatesRan? then 1 else 0
  }

  lemma GateRunsSnoc(trail: seq<Mark>, m: Mark)
    ensures GateRuns(trail + [m]) == GateRuns(trail) + if m.GatesRan? then 1 else 0
  {
    assert (trail + [m])[..|trail|] == trail;
  }

  /** The last two things that happened are passing gates and a passing review, both on this HEAD. */
  ghost predicate CheckedLast(trail: seq<Mark>, head: string) {
    |trail| >= 2 && trail[|trail| - 2..] == [GatesRan(head, true), ReviewRan(head, true)]
  }

  /** What the world answers in one cycle: the gates (None when running them raised), the reviewer, and the
      repair (None when it was cancelled) with the HEAD it leaves. */
  datatype CycleInput = CycleInput(gates: Option<bool>, reviewer: Reviewer, repair: Option<bool>, repaired: string)

  /** The report of a review, None when it raised. */
  function ReportOf(h: Hierarchy): Option<ReviewResult> {
    match h
    case Synthesis(review) => Some(review)
    case ShardFailure(failure) => Some(failure)
    case FileFailure(failure) => Some(failure)
    case _ => None
  }

  /** A cycle that is over: its marks, and the HEAD its repair left. */
  datatype Round = Round(part: seq<Mark>, next: string)

  function HeadAfter(start: string, past: seq<Round>): string {
    if past == [] then start else past[|past| - 1].next
  }

  function MarksOf(past: seq<Round>): seq<Mark>
    decreases |past|
  {
    if past == [] then [] else MarksOf(past[..|past| - 1]) + past[|past| - 1].part
  }

  /** The gates run once in a cycle, first of all. */
  predicate OneGateRun(part: seq<Mark>) {
    1 <= |part| <= 3 && part[0].GatesRan? && forall i :: 1 <= i < |part| ==> !part[i].GatesRan?
  }

  lemma MarksOfOneCycle(earlier: seq<Mark>, part: seq<Mark>)
    requires OneGateRun(part)
    ensures GateRuns(earlier + part) == GateRuns(earlier) + 1
  {
    GateRunsSnoc(earlier, part[0]);
    if |part| == 1 {
      assert earlier + part == earlier + [part[0]];
    } else {
      GateRunsSnoc(earlier + [part[0]], part[1]);
      if |part| == 2 {
        assert earlier + part == earlier + [part[0]] + [part[1]];
      } else {
        GateRunsSnoc(earlier + [part[0]] + [part[1]], part[2]);
        assert earlier + part == earlier + [part[0]] + [part[1]] + [part[2]];
      }
    }
  }

  class Finalizer {
    const db: Database
    const maxFinalCycles: nat
    const maxFiles: nat
    const chunkBytes: nat
    const allowBinary: bool
    const listing: string -> Answer            // how the query for the changed files ends, by HEAD
    const changes: string -> seq<FileChange>   // git diff base..HEAD, by HEAD
    const world: nat -> CycleInput             // what comes from outside, by cycle
    const start: string                        // HEAD at the beginning
    var head: string                           // HEAD of the integration worktree
    ghost var trail: seq<Mark>
    ghost var hierarchy: Hierarchy             // the last review
    ghost var audit: Record
    ghost var groups: seq<seq<ReviewChunk>>

    constructor (db: Database, maxFinalCycles: nat, maxFiles: nat, chunkBytes: nat, allowBinary: bool,
                 listing: string -> Answer, changes: string -> seq<FileChange>, world: nat -> CycleInput, head: string)
      ensures this.db == db && this.maxFinalCycles == maxFinalCycles && this.maxFiles == maxFiles
      ensures this.chunkBytes == chunkBytes && this.allowBinary == allowBinary
      ensures this.listing == listing && this.changes == changes && this.world == world
      ensures this.head == head == start && trail == []
    {
      this.db, this.maxFinalCycles, this.maxFiles := db, maxFinalCycles, maxFiles;
      this.chunkBytes, this.allowBinary := chunkBytes, allowBinary;
      this.listing, this.changes, this.world := listing, changes, world;
      this.start, this.head, trail := head, head, [];
      hierarchy, audit, groups := ReviewerRaised, Record([], [], []), [];
    }

    // ---- what a review says ------------------------------------------------------------

    /** h is how the review of this cycle ends on this HEAD. */
    ghost predicate Reviewed(n: nat, at: string, h: Hierarchy, rec: Record) {
      if h.BuildRefused? then
        !listing(at).Complete? || |changes(at)| > maxFiles || chunkBytes > MAX_CHUNK_BYTES
        || Refusal(changes(at), 0, 0, ChecksFor(chunkBytes, allowBinary)).Some?
      else Decides(world(n).reviewer, Manifest(changes(at)), rec, h)
    }

    /** The review of this cycle on this HEAD reports something, and that is not a pass. */
    ghost predicate ReviewRejects(n: nat, at: string) {
      exists h, rec :: Reviewed(n, at, h, rec) && ReportOf(h).Some? && !ReportOf(h).value.verdict.Pass?
    }

    /** The review on record covered the whole diff of this commit. */
    ghost predicate AuditedAt(commit: string)
      reads this
    {
      && Audited(Manifest(changes(commit)), audit)
      && (changes(commit) != [] ==> Chunked(changes(commit), groups, audit.chunks, chunkBytes))
    }

    // ---- the shape of a finalization ---------------------------------------------------

    /** A cycle that did not pass and was repaired. */
    ghost predicate FailedCycle(n: nat, at: string, part: seq<Mark>, next: string) {
      && world(n).repair == Some(true) && world(n).repaired == next
      && (|| (world(n).gates == Some(false) && part == [GatesRan(at, false), RepairRan(next)])
          || (world(n).gates == Some(true) && ReviewRejects(n, at)
              && part == [GatesRan(at, true), ReviewRan(at, false), RepairRan(next)]))
    }

    /** Such cycles from the start, each on the HEAD the repair before it left. */
    ghost predicate FailedCycles(past: seq<Round>) {
      forall i :: 0 <= i < |past| ==> FailedCycle(i, HeadAfter(start, past[..i]), past[i].part, past[i].next)
    }

    lemma FailedCyclesSnoc(past: seq<Round>, pass: Round)
      requires FailedCycles(past) && FailedCycle(|past|, HeadAfter(start, past), pass.part, pass.next)
      ensures FailedCycles(past + [pass])
    {
      var more := past + [pass];
      assert more[..|past|] == past;
      forall i | 0 <= i < |more| ensures FailedCycle(i, HeadAfter(start, more[..i]), more[i].part, more[i].next) {
        if i < |past| { assert more[..i] == past[..i]; }
      }
    }

    lemma {:induction false} GateRunsOfCycles(past: seq<Round>)
      requires FailedCycles(past)
      ensures GateRuns(MarksOf(past)) == |past|
      decreases |past|
    {
      if past != [] {
        var n := |past| - 1;
        var init := past[..n];
        assert FailedCycles(init) by {
          forall i | 0 <= i < n ensures FailedCycle(i, HeadAfter(start, init[..i]), init[i].part, init[i].next) {
            assert init[..i] == past[..i];
          }
        }
        GateRunsOfCycles(init);
        FailedCycleStarts(n, HeadAfter(start, init), past[n].part, past[n].next);
        MarksOfOneCycle(MarksOf(init), past[n].part);
      }
    }

    lemma FailedCycleStarts(n: nat, at: string, part: seq<Mark>, next: string)
      requires FailedCycle(n, at, part, next)
      ensures OneGateRun(part)
    {
    }

    /** How the cycle that ends the finalization ends, and with which marks. */
    ghost predicate LastCycle(n: nat, at: string, part: seq<Mark>, r: FinalEnd, to: string)
      reads this
    {
      match r
      case Concluded(summary) =>
        && world(n).gates == Some(true) && part == [GatesRan(at, true), ReviewRan(at, true)] && to == at
        && Reviewed(n, at, hierarchy, audit) && hierarchy.Synthesis? && hierarchy.review.verdict.Pass?
        && summary == hierarchy.review.summary && summary != "" && AuditedAt(at)
      case GatesFailed => n == maxFinalCycles && world(n).gates == Some(false) && part == [GatesRan(at, false)] && to == at
      case AuditFailed =>
        && n == maxFinalCycles && world(n).gates == Some(true) && ReviewRejects(n, at)
        && part == [GatesRan(at, true), ReviewRan(at, false)] && to == at
      case RepairFailed =>
        && n < maxFinalCycles && world(n).repair == Some(false) && to == world(n).repaired
        && (|| (world(n).gates == Some(false) && part == [GatesRan(at, false), RepairRan(to)])
            || (world(n).gates == Some(true) && ReviewRejects(n, at)
                && part == [GatesRan(at, true), ReviewRan(at, false), RepairRan(to)]))
      case Escaped =>
        || (world(n).gates.None? && part == [])
        || (world(n).gates == Some(true) && Reviewed(n, at, hierarchy, audit) && ReportOf(hierarchy).None?
            && part == [GatesRan(at, true)])
        || (n < maxFinalCycles && world(n).repair.None? && OneGateRun(part)
            && (world(n).gates == Some(false) || (world(n).gates == Some(true) && ReviewRejects(n, at))))
    }

    // ---- the steps of a cycle ----------------------------------------------------------

    /** The final gates; None when running them raised. */
    method RunGates(n: nat) returns (ok: Option<bool>)
      modifies this`trail
      ensures ok == world(n).gates
      ensures trail == old(trail) + if ok.Some? then [GatesRan(head, ok.value)] else []
    {
      ok := world(n).gates;
      if ok.Some? { trail := trail + [GatesRan(head, ok.value)]; }
    }

    /** The hierarchical review of HEAD; None when it raised. */
    method RunReview(n: nat) returns (r: Option<ReviewResult>)
      modifies this`trail, this`hierarchy, this`audit, this`groups
      ensures Reviewed(n, head, hierarchy, audit) && r == ReportOf(hierarchy)
      ensures trail == old(trail) + if r.Some? then [ReviewRan(head, r.value.verdict.Pass?)] else []
      ensures r.Some? && r.value.verdict.Pass? ==> hierarchy.Synthesis? && r.value.summary != "" && AuditedAt(head)
    {
      var h;
      h, groups, audit := HierarchicalFinalReview(world(n).reviewer, listing(head), changes(head), maxFiles, chunkBytes,
                                                  allowBinary);
      hierarchy := h;
      r := ReportOf(h);
      if r.Some? { trail := trail + [ReviewRan(head, r.value.verdict.Pass?)]; }
    }

    /** _repair_integration: agents edit, a commit follows; HEAD may be any commit afterwards. */
    method Repair(n: nat) returns (repaired: Option<bool>)
      modifies this`head, this`trail
      ensures repaired == world(n).repair && head == world(n).repaired
      ensures trail == old(trail) + [RepairRan(head)]
    {
      repaired, head := world(n).repair, world(n).repaired;
      trail := trail + [RepairRan(head)];
    }

    /** The part of a cycle before a repair; None asks for one. */
    method Check(n: nat) returns (r: Option<FinalEnd>, ghost part: seq<Mark>)
      requires n <= maxFinalCycles
      modifies this`trail, this`hierarchy, this`audit, this`groups
      ensures trail == old(trail) + part
      ensures r.Some? ==> LastCycle(n, head, part, r.value, head)
      ensures r.None? ==> n < maxFinalCycles
      ensures r.None? ==>
                || (world(n).gates == Some(false) && part == [GatesRan(head, false)])
                || (world(n).gates == Some(true) && ReviewRejects(n, head)
                    && part == [GatesRan(head, true), ReviewRan(head, false)])
    {
      var gates := RunGates(n);
      if gates.None? { return Some(Escaped), []; }
      part := [GatesRan(head, gates.value)];
      if !gates.value { return if n == maxFinalCycles then Some(GatesFailed) else None, part; }
      var review := RunReview(n);
      if review.None? { return Some(Escaped), part; }
      part := part + [ReviewRan(head, review.value.verdict.Pass?)];
      if review.value.verdict.Pass? {
        return Some(Concluded(if review.value.summary != "" then review.value.summary
                              else "All tasks, gates, and final review passed.")), part;
      }
      return if n == maxFinalCycles then Some(AuditFailed) else None, part;
    }

    /** One cycle; None asks for another. */
    method Cycle(n: nat) returns (r: Option<FinalEnd>, ghost part: seq<Mark>)
      requires n <= maxFinalCycles
      modifies this
      ensures trail == old(trail) + part
      ensures r.Some? ==> LastCycle(n, old(head), part, r.value, head)
      ensures r.None? ==> n < maxFinalCycles && FailedCycle(n, old(head), part, head)
    {
      r, part := Check(n);
      if r.Some? { return r, part; }
      var repaired := Repair(n);
      part := part + [RepairRan(head)];
      if repaired.None? { return Some(Escaped), part; }
      return if repaired.value then None else Some(RepairFailed), part;
    }

    /** _finalize. After some cycles that failed and were repaired, each on the HEAD the repair before it left,
        one cycle ends it: what is accepted is what its gates and its review both passed on, with that
        review's summary; failed gates or a failed audit end it only in the last cycle allowed. */
    method Finalize() returns (r: FinalEnd, ghost past: seq<Round>, ghost part: seq<Mark>)
      requires trail == [] && head == start
      modifies this
      ensures |past| <= maxFinalCycles && FailedCycles(past) && trail == MarksOf(past) + part
      ensures LastCycle(|past|, HeadAfter(start, past), part, r, head)
      ensures r.Concluded? ==> Earned(r.summary)
      ensures GateRuns(trail) <= maxFinalCycles + 1
      ensures r.GatesFailed? || r.AuditFailed? ==> GateRuns(trail) == maxFinalCycles + 1
    {
      var cycle := 0;
      past := [];
      while true  // the error raised after the loop of the source is dead: the last cycle always ends
        invariant |past| == cycle <= maxFinalCycles && FailedCycles(past)
        invariant trail == MarksOf(past) && head == HeadAfter(start, past)
        decreases maxFinalCycles - cycle
      {
        var end;
        end, part := Cycle(cycle);
        if end.Some? {
          EndMarks(past, part, end.value, head);
          return end.value, past, part;
        }
        FailedCyclesSnoc(past, Round(part, head));
        assert (past + [Round(part, head)])[..cycle] == past;
        past := past + [Round(part, head)];
        cycle := cycle + 1;
      }
    }

    /** The end of the trail: gates and a review that passed on this HEAD, and this summary is that review's. */
    ghost predicate Earned(summary: string)
      reads this
    {
      && CheckedLast(trail, head) && AuditedAt(head) && summary != ""
      && hierarchy.Synthesis? && hierarchy.review.verdict.Pass? && summary == hierarchy.review.summary
    }

    /** What the shape says of the marks: how often the gates ran, and what came last. */
    lemma EndMarks(past: seq<Round>, part: seq<Mark>, r: FinalEnd, to: string)
      requires |past| <= maxFinalCycles && FailedCycles(past)
      requires LastCycle(|past|, HeadAfter(start, past), part, r, to)
      ensures r.Concluded? ==> CheckedLast(MarksOf(past) + part, to)
      ensures GateRuns(MarksOf(past) + part) <= maxFinalCycles + 1
      ensures r.GatesFailed? || r.AuditFailed? ==> GateRuns(MarksOf(past) + part) == maxFinalCycles + 1
    {
      GateRunsOfCycles(past);
      if part == [] {
        assert MarksOf(past) + part == MarksOf(past);
      } else {
        MarksOfOneCycle(MarksOf(past), part);
      }
      if r.Concluded? {
        var t := MarksOf(past) + part;
        assert t[|t| - 2..] == part;
      }
    }

    /** From the last worker's end to the completed job. Whatever is accepted passed its last gates and a
        review of its whole diff, with nothing touching the branch in between; and that commit and the
        summary of that review are what gets published, or stays journaled when publication fails. */
    method FinishJob(j: JobId, orchestrator: Orchestrator, r: Renderer, fault: nat -> Fault,
                     isAncestor: (string, string) -> bool) returns (end: FinalEnd, published: bool)
      requires orchestrator.db == db && j in db.jobs && db.jobs[j].phase.Ordinary? && trail == [] && head == start
      requires r.h == db.sha256 && Answers(isAncestor, orchestrator.repo.parents)
      modifies this, db, orchestrator.repo
      ensures j in db.jobs
      ensures !db.jobs[j].phase.Ordinary? ==>
                && end.Concluded? && db.jobs[j].finalSummary == end.summary && db.jobs[j].acceptedCommit == head
                && Earned(end.summary)
      ensures published ==> db.jobs[j].state.Completed? && db.jobs[j].phase.Published?
      ensures !end.Concluded? ==>
                !published && db.View() == old(db.View()) && orchestrator.repo.View() == old(orchestrator.repo.View())
    {
      ghost var past, part;
      end, past, part := Finalize();
      if !end.Concluded? { return end, false; }
      var done := orchestrator.CompleteAcceptedJob(j, head, end.summary, r, fault, isAncestor);
      return end, done.Completes?;
    }
  }
}
