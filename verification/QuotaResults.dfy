/** Which requests the refusal of a snark call can hang: of those that start at Agg, exactly
    the ones without a quota; of those that start at Init, only one whose quota is filled by
    skips and by calls for tasks that were cut off the list. */
module QuotaResults {
  import opened DeferredFiles
  import opened Tasks
  import opened StageSpec
  import opened WorkerSpec
  import opened WorkerCalls
  import opened WorkerInvariant
  import opened WorkerSafety
  import opened WorkerSchedules
  import opened QuotaSpec
  import opened QuotaInvariant

  // Requests that start at Agg

  ghost predicate OnlySnark(s: System) {
    && s.worker.stage.step == StageSpec.Snark && s.skips == 0
    && (forall c :: c in s.worker.calls ==> s.worker.calls[c].SnarkCall?)
    && (s.half.Some? ==> s.half.value.top.stage.step == StageSpec.Snark)
  }

  lemma SpawnOnlySnark(w: Worker, e: Event)
    requires w.stage.step == StageSpec.Snark && forall c :: c in w.calls ==> w.calls[c].SnarkCall?
    ensures var w1 := Spawn(w, e);
      w1.stage.step == StageSpec.Snark && forall c :: c in w1.calls ==> w1.calls[c].SnarkCall?
  {
    SpawnInSnark(w, e);
  }

  lemma {:induction false} AggStepOnlySnark(q: QuotaRun, k: nat)
    requires IsQuotaRun(q) && k < |q.moves| && OnlySnark(q.states[k])
    ensures OnlySnark(q.states[k + 1])
  {
    var s := q.states[k];
    assert MovesOn(q, k + 1);
    match q.moves[k]
    case HandOut(e) => SpawnOnlySnark(s.worker, e);
    case EndTurn(e) =>
      EndTurnCalls(q, k);
      IterateStep(s.half.value.top, e);
    case _ =>
  }

  lemma {:induction false} AggOnlySnark(q: QuotaRun, k: nat)
    requires IsQuotaRun(q) && k < |q.states| && q.gen.fromStep == Agg
    ensures OnlySnark(q.states[k])
  {
    if k > 0 {
      AggOnlySnark(q, k - 1);
      AggStepOnlySnark(q, k - 1);
    } else {
      assert MovesOn(q, 0);
    }
  }

  lemma {:induction false} OnlyCallUncounted(job: Job, s: System, m: Move)
    requires SystemOk(s, job) && OnlySnark(s) && Enabled(job, s, m) && SnarkTurnedAway(s, m)
    ensures Limit(s) == 0
  {
    forall d | d in s.phases && s.phases[d].Counted?
      ensures false
    {
      OneSnarkCall(s.worker.stage, s.worker.calls, s.worker.nextCall, d, m.c);
    }
    assert Admitted(s.phases) == {};
  }

  /** Only without a quota does a move doom a run from Agg. */
  lemma {:induction false} AggStepDoom(q: QuotaRun, k: nat)
    requires IsQuotaRun(q) && k < |q.moves| && q.gen.fromStep == Agg && !q.states[k].worker.finished
    requires Doomed(q.states[k + 1]) && !Doomed(q.states[k])
    ensures q.gen.maxProverNum == 0
  {
    assert MovesOn(q, k + 1);
    QuotaInv(q, k);
    QuotaGen(q, k);
    AggOnlySnark(q, k);
    DoomedIff(q, k);
    OnlyCallUncounted(q.job, q.states[k], q.moves[k]);
  }

  lemma {:induction false} BeginNotDoomed(q: QuotaRun)
    requires IsQuotaRun(q)
    ensures !Doomed(q.states[0])
  {
    assert MovesOn(q, 0);
  }

  lemma {:induction false} AggDoomNeedsZero(q: QuotaRun, k: nat)
    requires IsQuotaRun(q) && k < |q.states| && q.gen.fromStep == Agg && Doomed(q.states[k])
    ensures q.gen.maxProverNum == 0
  {
    BeginNotDoomed(q);
    if k > 0 {
      if q.states[k - 1].worker.finished {
        FinishedStays(q, k - 1);
      } else if Doomed(q.states[k - 1]) {
        AggDoomNeedsZero(q, k - 1);
      } else {
        AggStepDoom(q, k - 1);
      }
    }
  }

  ghost predicate DoomedAt(q: QuotaRun, k: nat, gen: GenerateTask) {
    IsQuotaRun(q) && q.gen == gen && k < |q.states| && Doomed(q.states[k])
  }

  /** Some run of the request ends up waiting for ever. */
  ghost predicate CanHang(gen: GenerateTask) {
    exists q, k :: DoomedAt(q, k, gen)
  }

  /** The shortest such run: the snark task is handed out, and its call checks the quota. */
  function Hanging(gen: GenerateTask): QuotaRun {
    var s0 := Begin(gen);
    var s1 := Next(s0, HandOut(IDLE));
    QuotaRun(Job(0, 0), gen, [HandOut(IDLE), FirstCheck(0)], [s0, s1, Next(s1, FirstCheck(0))])
  }

  lemma {:induction false} FirstHandOut(gen: GenerateTask)
    requires RequestOk(gen) && gen.fromStep == Agg
    ensures var w := Spawn(Start(gen), IDLE);
      && w.calls.Keys == {0} && w.calls[0].SnarkCall? && !w.finished
      && w.stage.step == StageSpec.Snark && w.stage.snarkTask.state == Processing && w.stage.gen == gen
  {
    SpawnInSnark(Start(gen), IDLE);
  }

  lemma {:induction false} HangingHangs(gen: GenerateTask)
    requires RequestOk(gen) && gen.fromStep == Agg && gen.maxProverNum == 0
    ensures DoomedAt(Hanging(gen), 2, gen)
  {
    var q := Hanging(gen);
    FirstHandOut(gen);
    assert Produced(DeferredInputs(0)) == [];
    assert MovesOn(q, 0) && MovesOn(q, 1) && MovesOn(q, 2);
  }

  /** A request that starts at Agg can hang exactly if its quota is 0, that is, if no node is
      configured. */
  lemma {:induction false} AggHangsIffNoQuota(gen: GenerateTask)
    requires RequestOk(gen) && gen.fromStep == Agg
    ensures CanHang(gen) <==> gen.maxProverNum == 0
  {
    if gen.maxProverNum == 0 {
      HangingHangs(gen);
    }
    if CanHang(gen) {
      var q, k :| DoomedAt(q, k, gen);
      AggDoomNeedsZero(q, k);
    }
  }

  // Requests that start at Init

  /** The admitted calls for prove tasks that are not on the list any more. */
  function Strays(s: System): set<CallId> {
    set c | c in s.phases && s.phases[c].Counted? && c in s.worker.calls && s.worker.calls[c].ProveCall?
      && Unlisted(s.worker.stage, s.worker.calls[c].prove.taskId)
  }

  predicate Unlisted(s: StageState, id: TaskId) {
    forall i :: 0 <= i < |s.proveTasks| ==> s.proveTasks[i].taskId != id
  }

  /** In step Snark only the snark task's call and those for cut-off tasks are left. */
  lemma {:induction false} SnarkStepCalls(w: Worker, job: Job, c: CallId)
    requires Inv(w, job) && w.stage.step == StageSpec.Snark && w.stage.gen.fromStep == Init && c in w.calls
    ensures w.calls[c].SnarkCall? || (w.calls[c].ProveCall? && Unlisted(w.stage, w.calls[c].prove.taskId))
  {
    assert CallOk(w.stage, w.calls[c]);
    if w.calls[c].AggCall? {
      AggCallInProve(w.stage, w.calls[c].agg);
    }
  }

  lemma {:induction false} AdmittedAreStrays(job: Job, s: System, m: Move)
    requires SystemOk(s, job) && s.worker.stage.gen.fromStep == Init && Enabled(job, s, m)
    requires (m.FirstCheck? || m.SecondCheck?) && m.c in s.worker.calls && s.worker.calls[m.c].SnarkCall?
    ensures Admitted(s.phases) == Strays(s)
  {
    SnarkCallMeans(s, job, m.c);
    forall d | d in s.phases && s.phases[d].Counted?
      ensures d in Strays(s)
    {
      SnarkStepCalls(s.worker, job, d);
      if s.worker.calls[d].SnarkCall? {
        OneSnarkCall(s.worker.stage, s.worker.calls, s.worker.nextCall, d, m.c);
      }
    }
  }

  /** The check of a snark call that dooms a run from Init: leftover calls for cut-off tasks
      and skips fill the quota. */
  predicate StraysFill(s: System, m: Move) {
    && (m.FirstCheck? || m.SecondCheck?) && m.c in s.worker.calls && s.worker.calls[m.c].SnarkCall?
    && |Strays(s)| + s.skips >= Limit(s)
  }

  /** A run from Init becomes doomed exactly at such a check. */
  lemma {:induction false} InitHangsIffStraysFill(q: QuotaRun, k: nat)
    requires IsQuotaRun(q) && k < |q.moves| && q.gen.fromStep == Init
    requires !q.states[k].worker.finished && !Doomed(q.states[k])
    ensures Doomed(q.states[k + 1]) <==> StraysFill(q.states[k], q.moves[k])
  {
    var s, m := q.states[k], q.moves[k];
    QuotaInv(q, k);
    QuotaGen(q, k);
    assert MovesOn(q, k + 1);
    DoomedIff(q, k);
    if (m.FirstCheck? || m.SecondCheck?) && m.c in s.worker.calls && s.worker.calls[m.c].SnarkCall? {
      AdmittedAreStrays(q.job, s, m);
    }
  }
}
