/** reconcile_fast_forward_source on a repository whose HEAD, refs and worktree change in place. */
module GitRepoClass {
  import opened Model
  import opened G = Git

  lemma FinishStep(g: Repo, w: Plan, pc: Pc, fault: nat -> Fault, n: nat)
    ensures Finish(g, w, pc, fault, n) ==
      if Left(pc) == 0 then (g, pc)
      else Finish(Command(g, w, pc, fault(n)).0, w, Command(g, w, pc, fault(n)).1, fault, n + 1)
  {
  }

  /** What git merge-base --is-ancestor answers. */
  ghost predicate Answers(isAncestor: (Commit, Commit) -> bool, parents: map<Commit, set<Commit>>) {
    forall a, d {:trigger isAncestor(a, d)} :: isAncestor(a, d) <==> Ancestor(parents, a, d)
  }

  lemma FromHeadOn(g: Repo, w: Plan, fault: nat -> Fault)
    ensures Finish(g, w, ReadHead, fault, 3) ==
      if !fault(3).NoFault? || g.Head().None? then (g, Raised)
      else if g.Head().value == w.acceptedCommit then (g, Done(Applied, AT_ACCEPTED))
      else if !fault(4).NoFault? || w.acceptedCommit !in g.parents || g.Head().value !in g.parents then (g, Raised)
      else if Ancestor(g.parents, w.acceptedCommit, g.Head().value) then (g, Done(Applied, CONTAINS_ACCEPTED))
      else if g.Head().value != w.baseCommit then (g, Done(Skipped, MOVED))
      else Finish(g, w, Merge, fault, 5)
  {
    FinishStep(g, w, ReadHead, fault, 3);
    if fault(3).NoFault? && g.Head().Some? && g.Head().value != w.acceptedCommit {
      FromContainsOn(g, w, g.Head().value, fault);
    }
  }

  lemma FromContainsOn(g: Repo, w: Plan, head: Commit, fault: nat -> Fault)
    ensures Finish(g, w, Contains(head), fault, 4) ==
      if !fault(4).NoFault? || w.acceptedCommit !in g.parents || head !in g.parents then (g, Raised)
      else if Ancestor(g.parents, w.acceptedCommit, head) then (g, Done(Applied, CONTAINS_ACCEPTED))
      else if head != w.baseCommit then (g, Done(Skipped, MOVED))
      else Finish(g, w, Merge, fault, 5)
  {
    var pc := Command(g, w, Contains(head), fault(4)).1;
    FinishStep(g, w, Contains(head), fault, 4);
    assert Left(pc) == 0 || pc.Merge?;
  }

  lemma FromVerifyOn(g: Repo, w: Plan, fault: nat -> Fault)
    ensures Finish(g, w, Verify, fault, 6) ==
      (g, if !fault(6).NoFault? || g.Head() != Some(w.acceptedCommit) then Raised else Done(Applied, FAST_FORWARDED))
  {
    FinishStep(g, w, Verify, fault, 6);
  }

  lemma FromMergeOn(g: Repo, w: Plan, fault: nat -> Fault)
    ensures Finish(g, w, Merge, fault, 5) ==
      if fault(5).FailsBefore? then (g, Raised)
      else
        var g' := FastForward(g, w.acceptedCommit).GetOr(g);
        if !fault(5).NoFault? || FastForward(g, w.acceptedCommit).None? then (g', Raised)
        else if !fault(6).NoFault? || g'.Head() != Some(w.acceptedCommit) then (g', Raised)
        else (g', Done(Applied, FAST_FORWARDED))
  {
    var (g', pc') := Command(g, w, Merge, fault(5));
    FinishStep(g, w, Merge, fault, 5);
    if pc'.Verify? { FromVerifyOn(g', w, fault); }
  }

  lemma FromStatusOn(g: Repo, w: Plan, fault: nat -> Fault)
    ensures Finish(g, w, Status, fault, 2) ==
      if !fault(2).NoFault? then (g, Raised)
      else if !g.clean then (g, Done(Skipped, DIRTY))
      else Finish(g, w, ReadHead, fault, 3)
  {
    FinishStep(g, w, Status, fault, 2);
  }

  lemma FromBranchOn(g: Repo, w: Plan, fault: nat -> Fault)
    ensures Finish(g, w, Branch, fault, 1) ==
      if !fault(1).NoFault? then (g, Raised)
      else if g.BranchName() != w.baseBranch then (g, Done(Skipped, NowOn(g.BranchName(), w.baseBranch)))
      else Finish(g, w, Status, fault, 2)
  {
    FinishStep(g, w, Branch, fault, 1);
  }

  lemma FromResolveOn(g: Repo, w: Plan, fault: nat -> Fault)
    ensures Finish(g, w, Resolve, fault, 0) ==
      if !fault(0).NoFault? || w.integrationBranch !in g.branches then (g, Raised)
      else if g.branches[w.integrationBranch] != w.acceptedCommit then (g, Raised)
      else if w.baseBranch == "HEAD" then (g, Done(Skipped, DETACHED))
      else Finish(g, w, Branch, fault, 1)
  {
    FinishStep(g, w, Resolve, fault, 0);
  }

  class GitRepo {
    var parents: map<Commit, set<Commit>>
    var branches: map<string, Commit>
    var checkout: Checkout
    var clean: bool

    function View(): Repo
      reads this
    {
      Repo(parents, branches, checkout, clean)
    }

    /** git merge --ff-only; whether it takes effect. */
    method MergeFastForward(c: Commit, isAncestor: (Commit, Commit) -> bool) returns (ok: bool)
      requires Answers(isAncestor, parents)
      modifies this`branches, this`checkout
      ensures ok <==> FastForward(old(View()), c).Some?
      ensures View() == FastForward(old(View()), c).GetOr(old(View()))
    {
      var head := View().Head();
      if head.None? || c !in parents { return false; }
      if isAncestor(c, head.value) { return true; }
      if !isAncestor(head.value, c) { return false; }
      match checkout {
        case OnBranch(name) => branches := branches[name := c];
        case Detached(_) => checkout := Detached(c);
      }
      return true;
    }

    /** The checks of ref, branch and worktree; ReadHead when the source may be looked at further. */
    method CheckCheckout(w: Plan, fault: nat -> Fault) returns (r: Pc)
      ensures r.Done? || r.Raised? || r.ReadHead?
      ensures Finish(View(), w, Resolve, fault, 0) == Finish(View(), w, r, fault, 3)
    {
      FromResolveOn(View(), w, fault);
      if !fault(0).NoFault? || w.integrationBranch !in branches { return Raised; }
      if branches[w.integrationBranch] != w.acceptedCommit { return Raised; }
      if w.baseBranch == "HEAD" { return Done(Skipped, DETACHED); }
      FromBranchOn(View(), w, fault);
      if !fault(1).NoFault? { return Raised; }
      var current := View().BranchName();
      if current != w.baseBranch { return Done(Skipped, NowOn(current, w.baseBranch)); }
      FromStatusOn(View(), w, fault);
      if !fault(2).NoFault? { return Raised; }
      if !clean { return Done(Skipped, DIRTY); }
      return ReadHead;
    }

    /** The ff-only merge and the check of its result. */
    method MergeAndVerify(w: Plan, fault: nat -> Fault, isAncestor: (Commit, Commit) -> bool) returns (r: Pc)
      requires Answers(isAncestor, parents)
      modifies this`branches, this`checkout
      ensures (View(), r) == Finish(old(View()), w, Merge, fault, 5)
    {
      FromMergeOn(View(), w, fault);
      if fault(5).FailsBefore? { return Raised; }
      var ok := MergeFastForward(w.acceptedCommit, isAncestor);
      if !fault(5).NoFault? || !ok { return Raised; }
      if !fault(6).NoFault? || View().Head() != Some(w.acceptedCommit) { return Raised; }
      return Done(Applied, FAST_FORWARDED);
    }

    /** fault n says what befalls the n-th Git command; merge-base --is-ancestor answers isAncestor. */
    method ReconcileFastForwardSource(w: Plan, fault: nat -> Fault, isAncestor: (Commit, Commit) -> bool)
      returns (r: Pc)
      requires Answers(isAncestor, parents)
      modifies this`branches, this`checkout
      ensures (View(), r) == Finish(old(View()), w, Resolve, fault, 0)
    {
      r := CheckCheckout(w, fault);
      if !r.ReadHead? { return; }
      FromHeadOn(View(), w, fault);
      if !fault(3).NoFault? || View().Head().None? { return Raised; }
      var head := View().Head().value;
      if head == w.acceptedCommit { return Done(Applied, AT_ACCEPTED); }

      if !fault(4).NoFault? || w.acceptedCommit !in parents || head !in parents { return Raised; }
      if isAncestor(w.acceptedCommit, head) { return Done(Applied, CONTAINS_ACCEPTED); }
      if head != w.baseCommit { return Done(Skipped, MOVED); }
      r := MergeAndVerify(w, fault, isAncestor);
    }
  }
}
