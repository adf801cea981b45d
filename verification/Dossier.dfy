/** The execution dossier as a function of the snapshot, and when rebuilding it gives the same text. */
module DossierBuild {
  import opened Model
  import opened Store
  import opened Invariant
  import opened Runs
  import opened DatabaseClass
  import Journal

  /** A ledger row of one job: its id, counted over the whole table, and the event. */
  datatype Entry = Entry(id: nat, event: Event)

  /** SELECT ... FROM events WHERE job_id = j ORDER BY id. */
  function Ledger(events: seq<Event>, j: JobId): seq<Entry>
    decreases |events|
  {
    if events == [] then []
    else
      var n := |events| - 1;
      Ledger(events[..n], j) + if events[n].job == j then [Entry(n + 1, events[n])] else []
  }

  /** The kinds that end the dossier's input: publication machinery. */
  predicate Stops(k: EventKind) {
    k.JobAccepted? || k.DossierCreated?
  }

  /** The entries before the first stop event. */
  function Before(l: seq<Entry>): seq<Entry> {
    if l == [] || Stops(l[0].event.kind) then [] else [l[0]] + Before(l[1..])
  }

  predicate NoStop(l: seq<Entry>) {
    forall i :: 0 <= i < |l| ==> !Stops(l[i].event.kind)
  }

  // ---- _event_digest -------------------------------------------------------------------

  function KindName(k: EventKind): string {
    match k
    case JobAccepted(_, _, _) => "job.accepted"
    case ApplyStarted(_) => "job.apply_started"
    case DossierCreated(_, _, _) => "job.dossier_created"
    case JobApplied(_, _) => "job.applied"
    case ApplySkipped(_) => "job.apply_skipped"
    case JobCompleted(_, _, _, _, _) => "job.completed"
    case Other(name, _) => name
  }

  /** The bytes fed to the digest: one canonical line an entry. */
  function Lines(l: seq<Entry>, canonical: Entry -> string): string
    decreases |l|
  {
    if l == [] then "" else Lines(l[..|l| - 1], canonical) + canonical(l[|l| - 1]) + "\n"
  }

  function CountKind(l: seq<Entry>, name: string): nat {
    if l == [] then 0 else CountKind(l[..|l| - 1], name) + if KindName(l[|l| - 1].event.kind) == name then 1 else 0
  }

  datatype EventSummary = EventSummary(digest: string, kinds: map<string, nat>, count: nat, lastId: nat)

  ghost predicate Summarizes(s: EventSummary, h: string -> string, canonical: Entry -> string, l: seq<Entry>) {
    && s.digest == h(Lines(l, canonical))
    && s.count == |l|
    && s.lastId == (if l == [] then 0 else l[|l| - 1].id)
    && Tallies(s.kinds, l)
  }

  ghost predicate Tallies(kinds: map<string, nat>, l: seq<Entry>) {
    && (forall name :: CountKind(l, name) == if name in kinds then kinds[name] else 0)
    && (forall name <- kinds :: kinds[name] > 0)
  }

  lemma {:induction false} BeforePrefix(l: seq<Entry>, n: nat)
    requires n <= |l| && NoStop(l[..n])
    ensures Before(l) == l[..n] + Before(l[n..])
  {
    if n > 0 {
      assert l[..n][0] == l[0];
      assert l[1..][..n - 1] == l[..n][1..] && l[1..][n - 1..] == l[n..];
      var tail := l[1..][..n - 1];
      forall i | 0 <= i < |tail| ensures !Stops(tail[i].event.kind) {
        assert tail[i] == l[..n][i + 1];
      }
      BeforePrefix(l[1..], n - 1);
    }
  }

  lemma StopsHere(l: seq<Entry>, n: nat)
    requires n < |l| && NoStop(l[..n]) && Stops(l[n].event.kind)
    ensures Before(l) == l[..n]
  {
    BeforePrefix(l, n);
    assert l[n..][0] == l[n];
  }

  lemma LineSnoc(l: seq<Entry>, e: Entry, canonical: Entry -> string)
    ensures Lines(l + [e], canonical) == Lines(l, canonical) + canonical(e) + "\n"
  {
    assert (l + [e])[..|l|] == l;
  }

  lemma TallySnoc(kinds: map<string, nat>, l: seq<Entry>, e: Entry)
    requires Tallies(kinds, l)
    ensures var name := KindName(e.event.kind);
      Tallies(kinds[name := (if name in kinds then kinds[name] else 0) + 1], l + [e])
  {
    forall name ensures CountKind(l + [e], name) == CountKind(l, name) + if KindName(e.event.kind) == name then 1 else 0 {
      assert (l + [e])[..|l|] == l;
    }
  }

  /** _event_digest: only the entries before the first stop event count. */
  method EventDigest(h: string -> string, canonical: Entry -> string, l: seq<Entry>) returns (s: EventSummary)
    ensures Summarizes(s, h, canonical, Before(l))
  {
    var text: string, kinds: map<string, nat>, included: nat, lastId: nat := "", map[], 0, 0;
    var n := 0;
    while n < |l| && !Stops(l[n].event.kind)
      invariant n <= |l| && NoStop(l[..n])
      invariant text == Lines(l[..n], canonical) && included == n
      invariant lastId == if n == 0 then 0 else l[n - 1].id
      invariant Tallies(kinds, l[..n])
      decreases |l| - n
    {
      var e := l[n];
      var name := KindName(e.event.kind);
      LineSnoc(l[..n], e, canonical);
      TallySnoc(kinds, l[..n], e);
      assert l[..n + 1] == l[..n] + [e];
      kinds := kinds[name := (if name in kinds then kinds[name] else 0) + 1];
      text := text + canonical(e) + "\n";
      included := included + 1;
      lastId := e.id;
      n := n + 1;
    }
    if n < |l| {
      StopsHere(l, n);
    } else {
      assert l[..n] == l;
      WholeLedger(l);
    }
    return EventSummary(h(text), kinds, included, lastId);
  }

  // ---- build_dossier -------------------------------------------------------------------

  /** The columns of the job the dossier quotes. */
  datatype JobFacts = JobFacts(id: JobId, repo: string, goal: string, baseBranch: string, baseCommit: Model.Commit,
                               integrationBranch: string, autoApply: bool)

  /** Everything the dossier depends on besides configuration and version. */
  datatype Input = Input(job: JobFacts, finalCommit: Model.Commit, finalSummary: string, intent: Intent,
                         tasks: map<TaskId, Task>, attempts: map<AttemptId, Attempt>, events: seq<Entry>)

  function InputOf(db: DB, j: JobId, commit: Model.Commit, summary: string, intent: Intent): Input
    requires j in db.jobs
  {
    var job := db.jobs[j];
    Input(JobFacts(j, job.repo, job.goal, job.baseBranch, job.baseCommit, job.integrationBranch, job.autoApply),
          commit, summary, intent, TasksOf(db, j), AttemptsOf(db, j), Before(Ledger(db.events, j)))
  }

  lemma LedgerLast(events: seq<Event>, j: JobId)
    requires events != []
    ensures var n := |events| - 1;
      Ledger(events, j) == Ledger(events[..n], j) + if events[n].job == j then [Entry(n + 1, events[n])] else []
  {
  }

  /** Each ledger row is an event of the job under its place in the whole ledger. */
  lemma {:induction false} LedgerPlaces(events: seq<Event>, j: JobId, i: nat)
    requires i < |Ledger(events, j)|
    ensures var e := Ledger(events, j)[i];
      1 <= e.id <= |events| && events[e.id - 1] == e.event && e.event.job == j && (i > 0 ==> Ledger(events, j)[i - 1].id < e.id)
    decreases |events|
  {
    var n := |events| - 1;
    LedgerLast(events, j);
    var init := Ledger(events[..n], j);
    if i < |init| {
      LedgerPlaces(events[..n], j, i);
    } else if i > 0 {
      LedgerPlaces(events[..n], j, i - 1);
    }
  }

  /** Every event of the job has its ledger row. */
  lemma {:induction false} LedgerComplete(events: seq<Event>, j: JobId, k: nat)
    requires k < |events| && events[k].job == j
    ensures Entry(k + 1, events[k]) in Ledger(events, j)
    decreases |events|
  {
    var n := |events| - 1;
    LedgerLast(events, j);
    if k < n {
      LedgerComplete(events[..n], j, k);
    } else {
      assert [Entry(n + 1, events[n])][0] in Ledger(events, j);
    }
  }

  lemma {:induction false} BeforeIsPrefix(l: seq<Entry>)
    ensures Before(l) <= l && NoStop(Before(l)) && (|Before(l)| < |l| ==> Stops(l[|Before(l)|].event.kind))
    decreases |l|
  {
    if l != [] && !Stops(l[0].event.kind) { BeforeIsPrefix(l[1..]); }
  }

  /** Which row each fact of the input comes from: the job's columns, its tasks, its attempts, and its events
      up to the first stop event. */
  lemma InputQuotes(db: DB, j: JobId, commit: Model.Commit, summary: string, intent: Intent)
    requires j in db.jobs
    ensures var i, row := InputOf(db, j, commit, summary, intent), db.jobs[j];
      && i.job.id == j && i.job.repo == row.repo && i.job.goal == row.goal && i.job.baseBranch == row.baseBranch
      && i.job.baseCommit == row.baseCommit && i.job.integrationBranch == row.integrationBranch
      && i.job.autoApply == row.autoApply
      && i.finalCommit == commit && i.finalSummary == summary && i.intent == intent
      && (forall t :: t in i.tasks <==> t in db.tasks && db.tasks[t].job == j)
      && (forall t <- i.tasks :: i.tasks[t] == db.tasks[t])
      && (forall a :: a in i.attempts <==> a in db.attempts && db.attempts[a].job == j)
      && (forall a <- i.attempts :: i.attempts[a] == db.attempts[a])
      && i.events <= Ledger(db.events, j) && NoStop(i.events)
      && (|i.events| < |Ledger(db.events, j)| ==> Stops(Ledger(db.events, j)[|i.events|].event.kind))
  {
    BeforeIsPrefix(Ledger(db.events, j));
  }

  /** What is rendered: the input with its events summarized. */
  datatype Payload = Payload(job: JobFacts, finalCommit: Model.Commit, finalSummary: string, intent: Intent,
                             tasks: map<TaskId, Task>, attempts: map<AttemptId, Attempt>, events: EventSummary)

  function PayloadOf(i: Input, s: EventSummary): Payload {
    Payload(i.job, i.finalCommit, i.finalSummary, i.intent, i.tasks, i.attempts, s)
  }

  const MAX_DOSSIER_BYTES := 512_000

  /** What cannot be seen into: the digest, the canonical line of an event, the rendering of a payload. */
  datatype Renderer = Renderer(h: string -> string, canonical: Entry -> string, render: Payload -> string)

  ghost predicate IsDossier(r: Renderer, i: Input, content: string) {
    exists s :: Summarizes(s, r.h, r.canonical, i.events) && content == r.render(PayloadOf(i, s))
  }

  datatype Built = Rendered(content: string, sha: string) | NotCompleted | TooLarge

  /** build_dossier: only for completed work, bounded, and a function of its input. */
  method BuildDossier(db: Database, r: Renderer, j: JobId, commit: Model.Commit, summary: string, intent: Intent)
    returns (b: Built)
    requires j in db.jobs
    ensures b.NotCompleted? <==> exists t <- TasksOf(db.View(), j) :: !TasksOf(db.View(), j)[t].state.Completed?
    ensures b.Rendered? ==>
              && IsDossier(r, InputOf(db.View(), j, commit, summary, intent), b.content)
              && b.sha == r.h(b.content) && |b.content| <= MAX_DOSSIER_BYTES
    ensures b.TooLarge? ==> exists content ::
              IsDossier(r, InputOf(db.View(), j, commit, summary, intent), content) && |content| > MAX_DOSSIER_BYTES
  {
    var input := InputOf(db.View(), j, commit, summary, intent);
    if exists t <- input.tasks :: !input.tasks[t].state.Completed? { return NotCompleted; }
    var s := EventDigest(r.h, r.canonical, Ledger(db.events, j));
    var content := r.render(PayloadOf(input, s));
    assert IsDossier(r, input, content);
    if |content| > MAX_DOSSIER_BYTES { return TooLarge; }
    return Rendered(content, r.h(content));
  }

  lemma SummaryUnique(a: EventSummary, b: EventSummary, h: string -> string, canonical: Entry -> string, l: seq<Entry>)
    requires Summarizes(a, h, canonical, l) && Summarizes(b, h, canonical, l)
    ensures a == b
  {
    forall name ensures name in a.kinds <==> name in b.kinds {
      assert CountKind(l, name) == if name in a.kinds then a.kinds[name] else 0;
      assert CountKind(l, name) == if name in b.kinds then b.kinds[name] else 0;
    }
    forall name | name in a.kinds ensures a.kinds[name] == b.kinds[name] {
      assert CountKind(l, name) == a.kinds[name];
    }
  }

  /** An input has one dossier. */
  lemma DossierUnique(r: Renderer, i: Input, a: string, b: string)
    requires IsDossier(r, i, a) && IsDossier(r, i, b)
    ensures a == b
  {
    var s :| Summarizes(s, r.h, r.canonical, i.events) && a == r.render(PayloadOf(i, s));
    var s' :| Summarizes(s', r.h, r.canonical, i.events) && b == r.render(PayloadOf(i, s'));
    SummaryUnique(s, s', r.h, r.canonical, i.events);
  }

  // ---- the ledger only grows -----------------------------------------------------------

  lemma {:induction false} LedgerGrows(es: seq<Event>, more: seq<Event>, j: JobId)
    ensures Ledger(es, j) <= Ledger(es + more, j)
    decreases |more|
  {
    if more == [] {
      assert es + more == es;
    } else {
      var n := |more| - 1;
      LedgerGrows(es, more[..n], j);
      assert (es + more)[..|es| + n] == es + more[..n];
    }
  }

  lemma {:induction false} LedgerEvents(es: seq<Event>, j: JobId, i: nat)
    requires i < |Ledger(es, j)|
    ensures exists k :: 0 <= k < |es| && es[k].job == j && Ledger(es, j)[i] == Entry(k + 1, es[k])
    decreases |es|
  {
    var n := |es| - 1;
    if i < |Ledger(es[..n], j)| {
      LedgerEvents(es[..n], j, i);
      var k :| 0 <= k < n && es[..n][k].job == j && Ledger(es[..n], j)[i] == Entry(k + 1, es[..n][k]);
      assert es[k] == es[..n][k];
    } else {
      assert es[n].job == j && Ledger(es, j)[i] == Entry(n + 1, es[n]);
    }
  }

  lemma {:induction false} NoneCounted(es: seq<Event>, j: JobId, tag: Tag)
    requires Count(es, j, tag) == 0
    ensures forall k :: 0 <= k < |es| && es[k].job == j ==> TagOf(es[k].kind) != tag
    decreases |es|
  {
    if es != [] {
      var n := |es| - 1;
      NoneCounted(es[..n], j, tag);
      assert forall k :: 0 <= k < n ==> es[k] == es[..n][k];
    }
  }

  /** Before acceptance the ledger of a job holds no stop event. */
  lemma OrdinaryNoStop(h: string -> string, db: DB, j: JobId)
    requires Inv(h, db) && j in db.jobs && db.jobs[j].phase.Ordinary?
    ensures NoStop(Ledger(db.events, j))
  {
    var l := Ledger(db.events, j);
    assert LedgerOk(db, j) && SliceOk(h, SliceOf(db, j));
    assert Count(db.events, j, TAccepted) == Due(db.jobs[j], TAccepted) == 0;
    assert Count(db.events, j, TDossier) == Due(db.jobs[j], TDossier) == 0;
    NoneCounted(db.events, j, TAccepted);
    NoneCounted(db.events, j, TDossier);
    forall i | 0 <= i < |l| ensures !Stops(l[i].event.kind) {
      LedgerEvents(db.events, j, i);
      var k :| 0 <= k < |db.events| && db.events[k].job == j && l[i] == Entry(k + 1, db.events[k]);
      assert TagOf(db.events[k].kind) != TAccepted && TagOf(db.events[k].kind) != TDossier;
    }
  }

  // ---- regeneration --------------------------------------------------------------------

  /** The first acceptance of a job appends its event and touches neither tasks nor attempts. */
  lemma AcceptedOnce(h: string -> string, db: DB, j: JobId, acc: Acceptance)
    requires j in db.jobs && db.jobs[j].phase.Ordinary? && PrepareAccepted(h, db, j, acc).Ok?
    ensures var after := PrepareAccepted(h, db, j, acc).value;
      && acc.intent.Some? && j in after.jobs && after.jobs[j].phase.Accepted?
      && after.events == db.events + [Event(j, None, JobAccepted(acc.commit, acc.intent.value, acc.sha))]
      && TasksOf(after, j) == TasksOf(db, j) && AttemptsOf(after, j) == AttemptsOf(db, j)
      && after.jobs[j] == AcceptedRow(db.jobs[j], acc)
  {
  }

  /** From acceptance on the rows and facts the dossier quotes no longer change. */
  lemma FrozenFacts(h: string -> string, db: DB, j: JobId, steps: seq<Step>)
    requires Inv(h, db) && j in db.jobs && !db.jobs[j].phase.Ordinary?
    ensures var later := Run(h, db, steps);
      && j in later.jobs && db.events <= later.events
      && TasksOf(later, j) == TasksOf(db, j) && AttemptsOf(later, j) == AttemptsOf(db, j)
      && var x, y := db.jobs[j], later.jobs[j];
      y.repo == x.repo && y.goal == x.goal && y.baseBranch == x.baseBranch && y.baseCommit == x.baseCommit
      && y.integrationBranch == x.integrationBranch && y.autoApply == x.autoApply
  {
    RunKeeps(h, db, steps);
    assert SliceAdvances(SliceOf(db, j), SliceOf(Run(h, db, steps), j));
  }

  /** The prefix that counts stops at the acceptance, whatever is logged afterwards. */
  lemma PrefixEnds(es: seq<Event>, e: Event, later: seq<Event>, j: JobId)
    requires NoStop(Ledger(es, j)) && e.job == j && Stops(e.kind) && es + [e] <= later
    ensures Before(Ledger(later, j)) == Ledger(es, j)
  {
    var l, n := Ledger(later, j), |Ledger(es, j)|;
    assert (es + [e])[..|es|] == es;
    assert Ledger(es + [e], j) == Ledger(es, j) + [Entry(|es| + 1, e)];
    assert later == es + [e] + later[|es| + 1..];
    LedgerGrows(es + [e], later[|es| + 1..], j);
    assert l[..n] == Ledger(es, j) && l[n] == Entry(|es| + 1, e);
    StopsHere(l, n);
  }

  /** What is rebuilt in any later state is the input as it stood right before the acceptance. */
  lemma RegeneratedInput(h: string -> string, db: DB, j: JobId, acc: Acceptance, steps: seq<Step>)
    requires Inv(h, db) && j in db.jobs && db.jobs[j].phase.Ordinary? && PrepareAccepted(h, db, j, acc).Ok?
    ensures acc.intent.Some? && j in Run(h, PrepareAccepted(h, db, j, acc).value, steps).jobs
    ensures InputOf(Run(h, PrepareAccepted(h, db, j, acc).value, steps), j, acc.commit, acc.finalSummary, acc.intent.value)
            == InputOf(db, j, acc.commit, acc.finalSummary, acc.intent.value)
  {
    var after := PrepareAccepted(h, db, j, acc).value;
    AcceptedOnce(h, db, j, acc);
    Journal.PrepareKeeps(h, db, j, acc);
    var later := Run(h, after, steps);
    FrozenFacts(h, after, j, steps);
    OrdinaryNoStop(h, db, j);
    PrefixEnds(db.events, Event(j, None, JobAccepted(acc.commit, acc.intent.value, acc.sha)), later.events, j);
    BeforePrefix(Ledger(db.events, j), |Ledger(db.events, j)|);
    assert Ledger(db.events, j)[..|Ledger(db.events, j)|] == Ledger(db.events, j);
  }

  /** The events a job got between two states. */
  ghost predicate NothingLogged(frozen: DB, db: DB, j: JobId) {
    Ledger(db.events, j) == Ledger(frozen.events, j)
  }

  /** The dossier frozen in one state and accepted in a later one, with the same facts and rows, can be
      rebuilt in every state after the acceptance exactly when no event of the job landed in between. */
  lemma RegenerationStable(h: string -> string, frozen: DB, between: seq<Step>, j: JobId, acc: Acceptance, steps: seq<Step>)
    requires Inv(h, frozen) && j in frozen.jobs
    requires var db := Run(h, frozen, between);
      && j in db.jobs && db.jobs[j].phase.Ordinary? && PrepareAccepted(h, db, j, acc).Ok?
      && TasksOf(db, j) == TasksOf(frozen, j) && AttemptsOf(db, j) == AttemptsOf(frozen, j)
      && db.jobs[j].autoApply == frozen.jobs[j].autoApply
    ensures acc.intent.Some?
    ensures var db := Run(h, frozen, between);
      var later := Run(h, PrepareAccepted(h, db, j, acc).value, steps);
      && j in later.jobs
      && (InputOf(later, j, acc.commit, acc.finalSummary, acc.intent.value)
          == InputOf(frozen, j, acc.commit, acc.finalSummary, acc.intent.value)
          <==> NothingLogged(frozen, db, j))
  {
    var db := Run(h, frozen, between);
    RunKeeps(h, frozen, between);
    RegeneratedInput(h, db, j, acc, steps);
    assert SliceAdvances(SliceOf(frozen, j), SliceOf(db, j));
    assert Rank(frozen.jobs[j].phase) == 0;
    OrdinaryNoStop(h, db, j);
    OrdinaryNoStop(h, frozen, j);
    WholeLedger(Ledger(db.events, j));
    WholeLedger(Ledger(frozen.events, j));
  }

  lemma WholeLedger(l: seq<Entry>)
    requires NoStop(l)
    ensures Before(l) == l
  {
    assert l[..|l|] == l;
    BeforePrefix(l, |l|);
  }

  /** So a dossier that was frozen and accepted with no event in between is what any later rebuild gives,
      to the last character of content and digest. */
  lemma RebuiltDossier(h: string -> string, r: Renderer, frozen: DB, between: seq<Step>, j: JobId, acc: Acceptance,
                       steps: seq<Step>, rebuilt: string)
    requires Inv(h, frozen) && j in frozen.jobs && acc.intent.Some?
    requires var db := Run(h, frozen, between);
      && j in db.jobs && db.jobs[j].phase.Ordinary? && PrepareAccepted(h, db, j, acc).Ok?
      && TasksOf(db, j) == TasksOf(frozen, j) && AttemptsOf(db, j) == AttemptsOf(frozen, j)
      && db.jobs[j].autoApply == frozen.jobs[j].autoApply && NothingLogged(frozen, db, j)
    requires IsDossier(r, InputOf(frozen, j, acc.commit, acc.finalSummary, acc.intent.value), acc.content)
    ensures j in Run(h, PrepareAccepted(h, Run(h, frozen, between), j, acc).value, steps).jobs
    ensures var later := Run(h, PrepareAccepted(h, Run(h, frozen, between), j, acc).value, steps);
      IsDossier(r, InputOf(later, j, acc.commit, acc.finalSummary, acc.intent.value), rebuilt)
      ==> rebuilt == acc.content && r.h(rebuilt) == r.h(acc.content)
  {
    RegenerationStable(h, frozen, between, j, acc, steps);
    var later := Run(h, PrepareAccepted(h, Run(h, frozen, between), j, acc).value, steps);
    var i := InputOf(later, j, acc.commit, acc.finalSummary, acc.intent.value);
    if IsDossier(r, i, rebuilt) { DossierUnique(r, i, rebuilt, acc.content); }
  }
}
