/** A run in which max_prover_num segments are being proved at once, for every request that
    proves segments. */
module WorkerLoad {
  import opened DeferredFiles
  import opened Tasks
  import opened StageSpec
  import opened WorkerSpec
  import opened WorkerInvariant
  import opened WorkerSafety
  import opened WorkerSchedules
  import opened WorkerHandOuts

  function ProveCalls(w: Worker): set<CallId> {
    set c | c in w.calls && w.calls[c].ProveCall?
  }

  function UpTo(n: nat): (r: set<nat>)
    ensures |r| == n && forall i :: i in r <==> 0 <= i < n
  {
    if n == 0 then {} else UpTo(n - 1) + {n - 1}
  }

  // The splitter has written as many segments as may be proved at once.
  function Many(gen: GenerateTask): Job {
    Job(gen.maxProverNum, 0)
  }

  /** Nothing comes back; the files are there. */
  function Splits(gen: GenerateTask): Event {
    Found(UpTo(gen.maxProverNum)).(segmentsTxt := Some(gen.maxProverNum))
  }

  lemma SplitsOk(gen: GenerateTask)
    ensures EventOk(Many(gen), 0, Splits(gen))
  {
    assert Produced(DeferredInputs(0)) == [];
  }

  /** The first n segments are being proved, and the split is under way. */
  ghost predicate Proving(s: StageState, n: nat) {
    && s.step == Prove && !s.tasksGenDone && !s.isError && s.aggTasks == [] && s.snarkTask.state == Initial
    && s.splitTask.state == Processing && |s.proveTasks| >= s.gen.maxProverNum && |s.proveTasks| >= PREALLOCATED
    && forall i :: 0 <= i < |s.proveTasks| ==>
         && !s.proveTasks[i].isDeferred && s.proveTasks[i].fileNo == i
         && s.proveTasks[i].state == (if i < n then Processing else Unprocessed)
  }

  ghost predicate Loaded(h: History, gen: GenerateTask, n: nat) {
    && IsRun(h) && h.job == Many(gen) && h.gen == gen && |h.events| == n + 1
    && var w := h.states[n + 1];
       && Proving(w.stage, n) && w.now == 0 && !w.finished && |ProveCalls(w)| == n
       && forall c :: c in w.calls ==> c < w.nextCall
  }

  lemma {:induction false} StartLists(gen: GenerateTask)
    requires Proves(gen)
    ensures var w := Iterate(Start(gen), Splits(gen));
      && Proving(w.stage, 0) && w.now == 0 && !w.finished && ProveCalls(w) == {} && w.calls.Keys == {0} && w.nextCall == 1
  {
    StartSpawns(gen);
    var w := Spawn(Start(gen), IDLE);
    assert Spawn(Start(gen), Splits(gen)) == w;
    assert Finish(w, Splits(gen)) == w.(stage := Dispatch(w.stage, Some(gen.maxProverNum), []));
    assert GenProve(w.stage, Some(gen.maxProverNum)) == ExtendTo(Listed(gen), gen.maxProverNum);
  }

  lemma {:induction false} RunningIs(s: StageState, n: nat)
    requires Proving(s, n) && n <= |s.proveTasks|
    ensures CountProcessing(s) == n
  {
    CountsAreSizes(s);
    assert Running(s) == UpTo(n);
  }

  /** One more segment is handed out, and nothing else happens. */
  lemma {:induction false} NextSpawns(w: Worker, n: nat)
    requires Proving(w.stage, n) && w.now == 0 && n < w.stage.gen.maxProverNum
    ensures var w1 := Spawn(w, Splits(w.stage.gen));
      && Proving(w1.stage, n + 1) && w1.now == 0 && w1.finished == w.finished && w1.stage.gen == w.stage.gen
      && w1.nextCall == w.nextCall + 1
      && exists t :: w1.calls == w.calls[w.nextCall := ProveCall(t)]
  {
    var s, e := w.stage, Splits(w.stage.gen);
    RunningIs(s, n);
    FirstWhereIs(s.proveTasks, ReadyProve(e.segments), n);
    assert SpawnSplit(w, 0) == w;
    var w1 := SpawnProve(w, e.segments, 0);
    assert Spawn(w, e) == w1;
    assert w1.calls == w.calls[w.nextCall := ProveCall(w1.stage.proveTasks[n])];
  }

  lemma ProvingDispatch(s: StageState, n: nat)
    requires Proving(s, n)
    ensures Dispatch(s, Some(s.gen.maxProverNum), []) == s && !IsSuccess(s)
  {
    assert s.proveTasks + [] == s.proveTasks;
  }

  function More(h: History): History
    requires |h.states| > |h.events|
  {
    var e := Splits(h.gen);
    h.(events := h.events + [e], states := h.states + [Iterate(h.states[|h.events|], e)])
  }

  lemma OneMoreCall(w: Worker, w1: Worker, t: ProveTask)
    requires w1.calls == w.calls[w.nextCall := ProveCall(t)] && forall c :: c in w.calls ==> c < w.nextCall
    ensures |ProveCalls(w1)| == |ProveCalls(w)| + 1
  {
    assert ProveCalls(w1) == ProveCalls(w) + {w.nextCall};
  }

  lemma {:induction false} LoadedMore(h: History, gen: GenerateTask, n: nat)
    requires Loaded(h, gen, n) && n < gen.maxProverNum
    ensures Loaded(More(h), gen, n + 1)
  {
    var w := h.states[n + 1];
    RunGen(h, n + 1);
    SplitsOk(gen);
    RunGoesOn(h, Splits(gen));
    NextSpawns(w, n);
    var w1 := Spawn(w, Splits(gen));
    var t :| w1.calls == w.calls[w.nextCall := ProveCall(t)];
    OneMoreCall(w, w1, t);
    ProvingDispatch(w1.stage, n + 1);
  }

  lemma {:induction false} LoadedFirst(gen: GenerateTask)
    requires Proves(gen)
    ensures exists h :: Loaded(h, gen, 0)
  {
    var h := History(Many(gen), gen, [], [Start(gen)]);
    RunStarts(Many(gen), gen);
    SplitsOk(gen);
    RunGoesOn(h, Splits(gen));
    StartLists(gen);
    assert Loaded(More(h), gen, 0);
  }

  lemma {:induction false} LoadedUpTo(gen: GenerateTask, n: nat)
    requires Proves(gen) && n <= gen.maxProverNum
    ensures exists h :: Loaded(h, gen, n)
  {
    if n == 0 {
      LoadedFirst(gen);
    } else {
      LoadedUpTo(gen, n - 1);
      var h :| Loaded(h, gen, n - 1);
      LoadedMore(h, gen, n - 1);
    }
  }

  ghost predicate FullAt(h: History, gen: GenerateTask, k: nat) {
    IsRun(h) && h.gen == gen && k < |h.states| && |ProveCalls(h.states[k])| == gen.maxProverNum
  }

  /** The bound on segments in progress is reached: every request that proves segments has a run
      with max_prover_num prove calls outstanding at once. */
  lemma {:induction false} BoundReached(gen: GenerateTask)
    requires Proves(gen)
    ensures exists h, k :: FullAt(h, gen, k)
  {
    LoadedUpTo(gen, gen.maxProverNum);
    var h :| Loaded(h, gen, gen.maxProverNum);
    assert FullAt(h, gen, gen.maxProverNum + 1);
  }
}
