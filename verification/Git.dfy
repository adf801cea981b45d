/** The source repository as the control plane sees it, and the reconciliation of a journaled
    source application, command by command. */
module Git {
  import opened Model

  datatype Checkout = OnBranch(name: string) | Detached(at: Commit)

  datatype Repo = Repo(parents: map<Commit, set<Commit>>, branches: map<string, Commit>,
                       checkout: Checkout, clean: bool)
  {
    /** rev-parse HEAD; an unborn branch has no commit. */
    function Head(): Option<Commit> {
      match checkout
      case OnBranch(name) => if name in branches then Some(branches[name]) else None
      case Detached(at) => Some(at)
    }

    /** branch(): the short name, or the text HEAD when the checkout is detached. */
    function BranchName(): string {
      match checkout case OnBranch(name) => name case Detached(_) => "HEAD"
    }

    function MoveHead(c: Commit): Repo {
      match checkout
      case OnBranch(name) => this.(branches := branches[name := c])
      case Detached(_) => this.(checkout := Detached(c))
    }
  }

  // ---- ancestry ------------------------------------------------------------------------

  ghost predicate IsPath(parents: map<Commit, set<Commit>>, p: seq<Commit>) {
    && p != []
    && forall i :: 0 <= i < |p| - 1 ==> p[i] in parents && p[i + 1] in parents[p[i]]
  }

  /** a is d or is reached from d along parents. */
  ghost predicate Ancestor(parents: map<Commit, set<Commit>>, a: Commit, d: Commit) {
    exists p :: IsPath(parents, p) && p[0] == d && p[|p| - 1] == a
  }

  lemma AncestorSelf(parents: map<Commit, set<Commit>>, c: Commit)
    ensures Ancestor(parents, c, c)
  {
    assert IsPath(parents, [c]);
  }

  /** Commits are immutable: history is only ever added to. */
  ghost predicate Extends(g: Repo, g': Repo) {
    forall c <- g.parents :: c in g'.parents && g'.parents[c] == g.parents[c]
  }

  lemma AncestorStable(g: Repo, g': Repo, a: Commit, d: Commit)
    requires Extends(g, g') && Ancestor(g.parents, a, d)
    ensures Ancestor(g'.parents, a, d)
  {
    var p :| IsPath(g.parents, p) && p[0] == d && p[|p| - 1] == a;
    assert IsPath(g'.parents, p);
  }

  // ---- merge --ff-only -----------------------------------------------------------------

  ghost function FastForward(g: Repo, c: Commit): Option<Repo> {
    if g.Head().None? || c !in g.parents then None
    else if Ancestor(g.parents, c, g.Head().value) then Some(g)
    else if Ancestor(g.parents, g.Head().value, c) then Some(g.MoveHead(c))
    else None
  }

  // ---- reconcile_fast_forward_source ---------------------------------------------------

  datatype Plan = Plan(integrationBranch: string, baseBranch: string, baseCommit: Commit, acceptedCommit: Commit)

  /** The Git command about to run, or how the call ended. */
  datatype Pc =
    | Resolve | Branch | Status | ReadHead | Contains(head: Commit) | Merge | Verify
    | Done(outcome: Outcome, reason: string)
    | Raised

  /** A command runs, fails without effect, or takes effect and is then reported as failed. */
  datatype Fault = NoFault | FailsBefore | FailsAfter

  const DETACHED := "source checkout was detached"
  const DIRTY := "source worktree is dirty"
  const MOVED := "source branch moved since job creation"
  const AT_ACCEPTED := "source already at accepted commit"
  const CONTAINS_ACCEPTED := "source already contains accepted commit"
  const FAST_FORWARDED := "source fast-forwarded to accepted commit"

  function NowOn(current: string, base: string): string {
    "source worktree is now on " + current + ", not " + base
  }

  /** One command, in the order of the source, with the local decisions that follow it. */
  ghost function Command(g: Repo, w: Plan, pc: Pc, fault: Fault): (Repo, Pc) {
    if pc.Done? || pc.Raised? then (g, pc)
    else if pc.Merge? then
      var r := if fault.FailsBefore? then None else FastForward(g, w.acceptedCommit);
      (r.GetOr(g), if fault.NoFault? && r.Some? then Verify else Raised)
    else if !fault.NoFault? then (g, Raised)
    else (g, Decide(g, w, pc))
  }

  ghost function Decide(g: Repo, w: Plan, pc: Pc): Pc
    requires !pc.Merge? && !pc.Done? && !pc.Raised?
  {
    match pc
    case Resolve =>
      if w.integrationBranch !in g.branches || g.branches[w.integrationBranch] != w.acceptedCommit then Raised
      else if w.baseBranch == "HEAD" then Done(Skipped, DETACHED)
      else Branch
    case Branch =>
      if g.BranchName() != w.baseBranch then Done(Skipped, NowOn(g.BranchName(), w.baseBranch)) else Status
    case Status =>
      if !g.clean then Done(Skipped, DIRTY) else ReadHead
    case ReadHead =>
      if g.Head().None? then Raised
      else if g.Head().value == w.acceptedCommit then Done(Applied, AT_ACCEPTED)
      else Contains(g.Head().value)
    case Contains(head) =>
      if w.acceptedCommit !in g.parents || head !in g.parents then Raised
      else if Ancestor(g.parents, w.acceptedCommit, head) then Done(Applied, CONTAINS_ACCEPTED)
      else if head != w.baseCommit then Done(Skipped, MOVED)
      else Merge
    case Verify =>
      if g.Head() == Some(w.acceptedCommit) then Done(Applied, FAST_FORWARDED) else Raised
  }

  ghost function Left(pc: Pc): nat {
    match pc
    case Resolve => 7 case Branch => 6 case Status => 5 case ReadHead => 4 case Contains(_) => 3
    case Merge => 2 case Verify => 1 case Done(_, _) => 0 case Raised => 0
  }

  lemma CommandProgress(g: Repo, w: Plan, pc: Pc, fault: Fault)
    ensures Left(pc) == 0 || Left(Command(g, w, pc, fault).1) < Left(pc)
  {
  }

  /** The rest of the call when nothing interferes; fault n befalls the n-th command from here. */
  ghost function Finish(g: Repo, w: Plan, pc: Pc, fault: nat -> Fault, n: nat): (Repo, Pc)
    decreases Left(pc)
  {
    if Left(pc) == 0 then (g, pc)
    else
      CommandProgress(g, w, pc, fault(n));
      var (g', pc') := Command(g, w, pc, fault(n));
      Finish(g', w, pc', fault, n + 1)
  }

  function Reliable(n: nat): Fault { NoFault }

  /** The whole call, undisturbed. */
  ghost function Reconcile(g: Repo, w: Plan): (Repo, Pc) {
    Finish(g, w, Resolve, Reliable, 0)
  }

  /** The rest of an undisturbed call from a given command. */
  ghost function Rest(g: Repo, w: Plan, pc: Pc): (Repo, Pc) {
    Finish(g, w, pc, Reliable, 0)
  }

  lemma {:induction false} ReliableAnywhere(g: Repo, w: Plan, pc: Pc, m: nat, n: nat)
    ensures Finish(g, w, pc, Reliable, m) == Finish(g, w, pc, Reliable, n)
    decreases Left(pc)
  {
    if Left(pc) != 0 {
      CommandProgress(g, w, pc, NoFault);
      var (g', pc') := Command(g, w, pc, NoFault);
      ReliableAnywhere(g', w, pc', m + 1, n + 1);
    }
  }

  lemma RestStep(g: Repo, w: Plan, pc: Pc)
    ensures Rest(g, w, pc) == Rest(Command(g, w, pc, NoFault).0, w, Command(g, w, pc, NoFault).1)
  {
    if Left(pc) != 0 {
      CommandProgress(g, w, pc, NoFault);
      var (g', pc') := Command(g, w, pc, NoFault);
      ReliableAnywhere(g', w, pc', 1, 0);
    }
  }

  /** The base branch is checked out, clean and born, and the integration ref is where it was accepted. */
  ghost predicate Eligible(g: Repo, w: Plan) {
    && w.baseBranch != "HEAD" && g.BranchName() == w.baseBranch && g.clean && g.Head().Some?
    && w.acceptedCommit in g.parents && g.Head().value in g.parents
  }

  ghost predicate RefKept(g: Repo, w: Plan) {
    w.integrationBranch in g.branches && g.branches[w.integrationBranch] == w.acceptedCommit
  }

  ghost predicate ContainsAccepted(g: Repo, w: Plan) {
    g.Head().Some? && Ancestor(g.parents, w.acceptedCommit, g.Head().value)
  }

  lemma Unroll(g: Repo, w: Plan)
    ensures Reconcile(g, w) == Rest(g, w, Decide(g, w, Resolve))
  {
    RestStep(g, w, Resolve);
  }

  lemma FromHead(g: Repo, w: Plan)
    requires g.Head().Some? && w.acceptedCommit in g.parents && g.Head().value in g.parents
    ensures Rest(g, w, ReadHead) ==
      if g.Head().value == w.acceptedCommit then (g, Done(Applied, AT_ACCEPTED))
      else if ContainsAccepted(g, w) then (g, Done(Applied, CONTAINS_ACCEPTED))
      else if g.Head().value != w.baseCommit then (g, Done(Skipped, MOVED))
      else if Ancestor(g.parents, g.Head().value, w.acceptedCommit)
      then (g.MoveHead(w.acceptedCommit), Done(Applied, FAST_FORWARDED))
      else (g, Raised)
  {
    RestStep(g, w, ReadHead);
    if g.Head().value != w.acceptedCommit { FromContains(g, w); }
  }

  lemma FromContains(g: Repo, w: Plan)
    requires g.Head().Some? && w.acceptedCommit in g.parents && g.Head().value in g.parents
    ensures Rest(g, w, Contains(g.Head().value)) ==
      if ContainsAccepted(g, w) then (g, Done(Applied, CONTAINS_ACCEPTED))
      else if g.Head().value != w.baseCommit then (g, Done(Skipped, MOVED))
      else if Ancestor(g.parents, g.Head().value, w.acceptedCommit)
      then (g.MoveHead(w.acceptedCommit), Done(Applied, FAST_FORWARDED))
      else (g, Raised)
  {
    RestStep(g, w, Contains(g.Head().value));
    if !ContainsAccepted(g, w) && g.Head().value == w.baseCommit { FromMerge(g, w); }
  }

  lemma VerifyMovesNothing(g: Repo, w: Plan)
    ensures Rest(g, w, Verify).0 == g
    ensures g.Head() == Some(w.acceptedCommit) ==> Rest(g, w, Verify) == (g, Done(Applied, FAST_FORWARDED))
  {
    RestStep(g, w, Verify);
  }

  lemma FromMerge(g: Repo, w: Plan)
    requires g.Head().Some? && w.acceptedCommit in g.parents && !ContainsAccepted(g, w)
    ensures Rest(g, w, Merge) ==
      if Ancestor(g.parents, g.Head().value, w.acceptedCommit)
      then (g.MoveHead(w.acceptedCommit), Done(Applied, FAST_FORWARDED))
      else (g, Raised)
  {
    RestStep(g, w, Merge);
    VerifyMovesNothing(g.MoveHead(w.acceptedCommit), w);
  }

  /** Exactly when an undisturbed call on an eligible source ends 'applied', and what it leaves. */
  lemma ReconcileEligible(g: Repo, w: Plan)
    requires RefKept(g, w) && Eligible(g, w)
    ensures var (g', pc) := Reconcile(g, w);
      && ((pc.Done? && pc.outcome.Applied?) <==>
            ContainsAccepted(g, w)
            || (g.Head() == Some(w.baseCommit) && Ancestor(g.parents, w.baseCommit, w.acceptedCommit)))
      && ((pc.Done? && pc.outcome.Skipped?) <==> !ContainsAccepted(g, w) && g.Head() != Some(w.baseCommit))
      && (pc.Done? && pc.outcome.Applied? ==> ContainsAccepted(g', w))
      && (ContainsAccepted(g, w) ==> g' == g)
      && (g' != g ==> g' == g.MoveHead(w.acceptedCommit) && g.Head() == Some(w.baseCommit))
      && (pc.Done? ==>
            pc.reason == if g.Head() == Some(w.acceptedCommit) then AT_ACCEPTED
                         else if ContainsAccepted(g, w) then CONTAINS_ACCEPTED
                         else if pc.outcome.Skipped? then MOVED else FAST_FORWARDED)
  {
    Unroll(g, w);
    RestStep(g, w, Branch);
    RestStep(g, w, Status);
    FromHead(g, w);
    AncestorSelf(g.parents, w.acceptedCommit);
  }

  /** A source that is not eligible for lack of branch or cleanliness is left alone. */
  lemma ReconcileSkips(g: Repo, w: Plan)
    requires RefKept(g, w) && (w.baseBranch == "HEAD" || g.BranchName() != w.baseBranch || !g.clean)
    ensures Reconcile(g, w) == (g, Done(Skipped, if w.baseBranch == "HEAD" then DETACHED
                                                 else if g.BranchName() != w.baseBranch then NowOn(g.BranchName(), w.baseBranch)
                                                 else DIRTY))
  {
    Unroll(g, w);
    RestStep(g, w, Branch);
    RestStep(g, w, Status);
  }

  lemma ReconcileRefuses(g: Repo, w: Plan)
    requires !RefKept(g, w)
    ensures Reconcile(g, w) == (g, Raised)
  {
    Unroll(g, w);
  }

  /** A repository in which nothing stands in the way but the user: the ref is kept, HEAD is a commit,
      and the accepted commit was built on the base commit. */
  ghost predicate Healthy(g: Repo, w: Plan) {
    && RefKept(g, w) && w.acceptedCommit in g.parents && Ancestor(g.parents, w.baseCommit, w.acceptedCommit)
    && g.Head().Some? && g.Head().value in g.parents
  }

  lemma HealthyDone(g: Repo, w: Plan)
    requires Healthy(g, w)
    ensures Reconcile(g, w).1.Done? && (Reconcile(g, w).1.outcome.Applied? || Reconcile(g, w).1.outcome.Skipped?)
  {
    if Eligible(g, w) { ReconcileEligible(g, w); } else { ReconcileSkips(g, w); }
  }

  /** Reconciling again after it has taken effect gives the same outcome and moves nothing. */
  lemma ReconcileTwice(g: Repo, w: Plan)
    requires Reconcile(g, w).1.Done?
    ensures Reconcile(Reconcile(g, w).0, w).0 == Reconcile(g, w).0
    ensures Reconcile(Reconcile(g, w).0, w).1.Done?
    ensures Reconcile(Reconcile(g, w).0, w).1.outcome == Reconcile(g, w).1.outcome
  {
    var g' := Reconcile(g, w).0;
    if g' != g {
      OnlyMergeMoves(g, w);
      Unroll(g', w);
      RestStep(g', w, Branch);
      RestStep(g', w, Status);
      RestStep(g', w, ReadHead);
    }
  }

  lemma OnlyMergeMoves(g: Repo, w: Plan)
    requires Reconcile(g, w).0 != g
    ensures RefKept(g, w) && w.baseBranch != "HEAD" && g.BranchName() == w.baseBranch && g.clean && g.Head().Some?
    ensures Reconcile(g, w) == (g.MoveHead(w.acceptedCommit), Done(Applied, FAST_FORWARDED))
  {
    Unroll(g, w);
    RestStep(g, w, Branch);
    RestStep(g, w, Status);
    RestStep(g, w, ReadHead);
    if g.Head().Some? && w.acceptedCommit in g.parents && g.Head().value in g.parents {
      FromHead(g, w);
    } else if g.Head().Some? {
      RestStep(g, w, Contains(g.Head().value));
    }
  }

  /** 'skipped' does not say that the accepted commit is missing. It is there all the same exactly when the
      call gave up for one of its first three reasons: a detached base, another branch, a dirty worktree. */
  lemma SkippedThoughContained(g: Repo, w: Plan)
    requires RefKept(g, w)
    ensures var (g', pc) := Reconcile(g, w);
      pc.Done? && pc.outcome.Skipped? && ContainsAccepted(g', w)
      <==> ContainsAccepted(g, w) && (w.baseBranch == "HEAD" || g.BranchName() != w.baseBranch || !g.clean)
  {
    if w.baseBranch == "HEAD" || g.BranchName() != w.baseBranch || !g.clean {
      ReconcileSkips(g, w);
    } else if g.Head().Some? && w.acceptedCommit in g.parents && g.Head().value in g.parents {
      ReconcileEligible(g, w);
    } else {
      UnknownCommits(g, w);
    }
  }

  /** On a clean base branch the call raises when it meets a commit the repository does not know. */
  lemma UnknownCommits(g: Repo, w: Plan)
    requires RefKept(g, w) && w.baseBranch != "HEAD" && g.BranchName() == w.baseBranch && g.clean
    requires g.Head().None? || w.acceptedCommit !in g.parents || g.Head().value !in g.parents
    ensures Reconcile(g, w).0 == g && !(Reconcile(g, w).1.Done? && Reconcile(g, w).1.outcome.Skipped?)
  {
    Unroll(g, w);
    RestStep(g, w, Branch);
    RestStep(g, w, Status);
    RestStep(g, w, ReadHead);
    if g.Head().Some? { RestStep(g, w, Contains(g.Head().value)); }
  }

  /** 'skipped' does not say that the source was left alone: when a crash falls between the merge and
      publication and the user then edits a file, the next call skips a source that has the commit. */
  lemma SkippedAfterTheMove(g: Repo, w: Plan)
    requires RefKept(g, w) && Eligible(g, w)
    requires Reconcile(g, w).1.Done? && Reconcile(g, w).1.outcome.Applied?
    ensures var edited := Reconcile(g, w).0.(clean := false);
      && ContainsAccepted(edited, w)
      && Reconcile(edited, w).0 == edited && Reconcile(edited, w).1.Done? && Reconcile(edited, w).1.outcome.Skipped?
  {
    ReconcileEligible(g, w);
    ReconcileSkips(Reconcile(g, w).0.(clean := false), w);
  }

  // ---- what others do elsewhere in the repository --------------------------------------

  /** The parents of every known commit are known. */
  ghost predicate Connected(g: Repo) {
    forall c <- g.parents :: forall p <- g.parents[c] :: p in g.parents
  }

  /** Commits, branches and worktrees may have come and gone, as those of other jobs do; the source
      checkout and the accepted ref are as they were, and no commit is lost. */
  ghost predicate Aside(g: Repo, g': Repo, w: Plan) {
    && Extends(g, g') && (g' == g || (Connected(g) && Connected(g')))
    && g'.checkout == g.checkout && g'.clean == g.clean && g'.Head() == g.Head()
    && (w.integrationBranch in g'.branches <==> w.integrationBranch in g.branches)
    && (w.integrationBranch in g.branches ==> g'.branches[w.integrationBranch] == g.branches[w.integrationBranch])
  }

  /** A commit on another branch, as a worker or an integration of another job makes it. */
  lemma CommitElsewhere(g: Repo, w: Plan, c: Commit, parents: set<Commit>, branch: string)
    requires Connected(g) && c !in g.parents && parents <= g.parents.Keys
    requires branch != w.integrationBranch && g.checkout != OnBranch(branch)
    ensures Aside(g, g.(parents := g.parents[c := parents], branches := g.branches[branch := c]), w)
  {
  }

  lemma AsideTransitive(x: Repo, y: Repo, z: Repo, w: Plan)
    requires Aside(x, y, w) && Aside(y, z, w)
    ensures Aside(x, z, w)
  {
  }

  lemma {:induction false} PathKnown(g: Repo, g': Repo, p: seq<Commit>, i: nat)
    requires Extends(g, g') && Connected(g) && IsPath(g'.parents, p) && p[0] in g.parents && i < |p|
    ensures p[i] in g.parents
  {
    if i > 0 { PathKnown(g, g', p, i - 1); }
  }

  /** New commits are no ancestors of old ones. */
  lemma AncestorAside(g: Repo, g': Repo, a: Commit, d: Commit, w: Plan)
    requires Aside(g, g', w) && d in g.parents
    ensures Ancestor(g'.parents, a, d) <==> Ancestor(g.parents, a, d)
  {
    if Ancestor(g.parents, a, d) { AncestorStable(g, g', a, d); }
    if g' != g && Ancestor(g'.parents, a, d) {
      var p :| IsPath(g'.parents, p) && p[0] == d && p[|p| - 1] == a;
      forall i | 0 <= i < |p| - 1 ensures p[i] in g.parents && p[i + 1] in g.parents[p[i]] {
        PathKnown(g, g', p, i);
      }
      assert IsPath(g.parents, p);
    }
  }

  /** The commits the call asks about are in the repository. */
  ghost predicate Known(g: Repo, w: Plan, pc: Pc) {
    && w.acceptedCommit in g.parents && g.Head().Some? && g.Head().value in g.parents
    && (pc.Contains? ==> pc.head in g.parents)
  }

  lemma MergeAside(g: Repo, g': Repo, w: Plan)
    requires Aside(g, g', w) && Known(g, w, Merge)
    ensures var x, y := FastForward(g, w.acceptedCommit), FastForward(g', w.acceptedCommit);
      && (x.Some? <==> y.Some?)
      && (x.Some? ==> Aside(x.value, y.value, w) && Known(x.value, w, Verify))
  {
    AncestorAside(g, g', w.acceptedCommit, g.Head().value, w);
    AncestorAside(g, g', g.Head().value, w.acceptedCommit, w);
  }

  lemma CommandAside(g: Repo, g': Repo, w: Plan, pc: Pc)
    requires Aside(g, g', w) && Known(g, w, pc)
    ensures var (x, p), (y, q) := Command(g, w, pc, NoFault), Command(g', w, pc, NoFault);
      q == p && Aside(x, y, w) && Known(x, w, p)
  {
    match pc
    case Merge => MergeAside(g, g', w);
    case Contains(head) => AncestorAside(g, g', w.acceptedCommit, head, w);
    case _ =>
  }

  /** The rest of a call ends alike, whatever others did elsewhere in the meantime. */
  lemma {:induction false} RestAside(g: Repo, g': Repo, w: Plan, pc: Pc)
    requires Aside(g, g', w) && Known(g, w, pc)
    ensures Rest(g', w, pc).1 == Rest(g, w, pc).1 && Aside(Rest(g, w, pc).0, Rest(g', w, pc).0, w)
    decreases Left(pc)
  {
    if Left(pc) != 0 {
      CommandAside(g, g', w, pc);
      CommandProgress(g, w, pc, NoFault);
      RestStep(g, w, pc);
      RestStep(g', w, pc);
      RestAside(Command(g, w, pc, NoFault).0, Command(g', w, pc, NoFault).0, w, Command(g, w, pc, NoFault).1);
    }
  }

  /** A command that moves anything moves HEAD, to the accepted commit. */
  lemma MoveIsSeen(g: Repo, w: Plan, pc: Pc)
    requires Command(g, w, pc, NoFault).0 != g
    ensures pc.Merge? && g.Head().Some? && g.Head().value != w.acceptedCommit
    ensures Command(g, w, pc, NoFault).0 == g.MoveHead(w.acceptedCommit)
    ensures Command(g, w, pc, NoFault).0.Head() == Some(w.acceptedCommit)
  {
    AncestorSelf(g.parents, w.acceptedCommit);
  }
}
