/** Which requests from Init the skips of prove can starve, although none but the job's own
    segment files are found: all that prove segments, and besides those without a quota. */
module QuotaStarvation {
  import opened Tasks
  import opened ProverReplies
  import opened StageSpec
  import opened WorkerSpec
  import opened WorkerInvariant
  import opened WorkerSchedules
  import opened QuotaSpec
  import opened QuotaInvariant
  import opened QuotaClean
  import opened QuotaSchedules

  ghost predicate FullAt(q: QuotaRun, k: nat, gen: GenerateTask) {
    IsQuotaRun(q) && CleanRun(q) && q.gen == gen && k < |q.states| && q.states[k].skips >= Limit(q.states[k])
  }

  /** In some run of the request the skips fill the quota. */
  ghost predicate CanStarve(gen: GenerateTask) {
    exists q, k :: FullAt(q, k, gen)
  }

  /** Segment 0 has failed, and was skipped n times on the node it failed on. */
  ghost predicate SkippedOften(s: System, n: nat) {
    && Steady(s) && s.skips == n
    && Ready(s.worker.stage.proveTasks[0].state) && s.worker.stage.proveTasks[0].trace.nodeInfo == "n"
  }

  lemma {:induction false} OftenReached(gen: GenerateTask, n: nat)
    requires Proves(gen) && n <= gen.maxProverNum
    ensures exists s :: Reached({0}, gen, s) && SkippedOften(s, n)
  {
    if n == 0 {
      var s := FirstSteady(gen);
      FirstTurn({0}, gen);
      ListedRests(gen);
      Attempt({0}, gen, s, 0, "n", FAILED, false);
      assert SkippedOften(Gone(s, 0, FAILED, false), 0);
    } else {
      OftenReached(gen, n - 1);
      var s :| Reached({0}, gen, s) && SkippedOften(s, n - 1);
      Attempt({0}, gen, s, 0, "n", Refused, true);
      assert SkippedOften(Gone(s, 0, Refused, true), n);
    }
  }

  lemma {:induction false} ReachedIsClean(gen: GenerateTask, s: System)
    requires Reached({0}, gen, s) && s.skips >= gen.maxProverNum
    ensures CanStarve(gen)
  {
    ReachedLimit({0}, gen, s);
    var q :| RunTo(q, {0}, gen, s);
    forall k | 0 <= k < |q.moves|
      ensures CleanAt(q, k)
    {
    }
    assert FullAt(q, |q.moves|, gen);
  }

  lemma {:induction false} SplitProvesNothing(s: System, job: Job, c: CallId)
    requires LoopOk(s, job) && CallsListed(s.worker, job) && s.worker.stage.gen.targetStep == Split
    requires c in s.worker.calls
    ensures !s.worker.calls[c].ProveCall?
  {
    assert forall id :: !HasPlace(s.worker.stage, id, job);
  }

  lemma {:induction false} SplitDoesNotSkip(q: QuotaRun, k: nat)
    requires IsQuotaRun(q) && CleanRun(q) && q.gen.fromStep == Init && q.gen.targetStep == Split && k < |q.moves|
    ensures !q.moves[k].SkipNode?
  {
    assert MovesOn(q, k + 1);
    QuotaInv(q, k);
    QuotaGen(q, k);
    RunClean(q, k);
    if q.moves[k].SkipNode? {
      SplitProvesNothing(q.states[k], q.job, q.moves[k].c);
    }
  }

  lemma OnlySkipsCount(s: System, m: Move)
    requires !m.SkipNode?
    ensures Next(s, m).skips == s.skips
  {
  }

  /** A request that only splits never skips a node. */
  lemma {:induction false} SplitNeverSkips(q: QuotaRun, k: nat)
    requires IsQuotaRun(q) && CleanRun(q) && q.gen.fromStep == Init && q.gen.targetStep == Split && k < |q.states|
    ensures q.states[k].skips == 0
  {
    assert MovesOn(q, k);
    if k > 0 {
      SplitNeverSkips(q, k - 1);
      SplitDoesNotSkip(q, k - 1);
      OnlySkipsCount(q.states[k - 1], q.moves[k - 1]);
    }
  }

  /** The skips can fill the quota of a request from Init exactly if it proves segments, or
      has no quota. */
  lemma {:induction false} CanStarveIff(gen: GenerateTask)
    requires RequestOk(gen) && gen.fromStep == Init
    ensures CanStarve(gen) <==> gen.targetStep != Split || gen.maxProverNum == 0
  {
    if gen.maxProverNum == 0 {
      ReachedBegin({0}, gen);
      ReachedIsClean(gen, Begin(gen));
    } else if gen.targetStep != Split {
      OftenReached(gen, gen.maxProverNum);
      var s :| Reached({0}, gen, s) && SkippedOften(s, gen.maxProverNum);
      ReachedIsClean(gen, s);
    } else if CanStarve(gen) {
      var q, k :| FullAt(q, k, gen);
      SplitNeverSkips(q, k);
      QuotaGen(q, k);
    }
  }
}
