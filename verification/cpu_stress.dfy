// Stopping CPU stresses (injector/cpu_stress.go): Inject starts one worker per CPU, Clean sends each a token and waits
// for each to report. Any interleaving of the workers with Inject and Clean is a sequence of the steps below.
module CpuStress {
  import opened DisruptionTypes
  import opened Channels

  datatype Worker = Starting | Running | Leaving | Gone

  // Where the caller of Inject and Clean stands.
  datatype Stage =
    | Idle
    | Spawning
    | Stressing
    | Sending(i: nat, total: nat)
    | Waiting(i: nat, total: nat)
    | Closing(left: nat)

  datatype State = State(exiters: Chan, completed: Chan, workers: seq<Worker>, stage: Stage)

  datatype Action = Inject(cpus: nat) | Clean | Caller | Work(j: nat)

  datatype Outcome = Blocked | Panic | Go(s: State)

  // One step of a worker: it reports that it is set up, polls for a token, and reports that it leaves.
  function StepWorker(s: State, j: nat): Outcome
    requires j < |s.workers|
  {
    match s.workers[j]
    case Starting => Go(s.(workers := s.workers[j := Running]))
    case Running =>
      if s.exiters.Open? && s.exiters.count > 0 then
        Go(s.(exiters := s.exiters.(count := s.exiters.count - 1), workers := s.workers[j := Leaving]))
      else if s.exiters.Closed? then Go(s.(workers := s.workers[j := Leaving]))
      else Blocked
    case Leaving =>
      if s.completed.Closed? then Panic
      else
        var sent := Send(s.completed);
        if sent.None? then Blocked else Go(s.(completed := sent.value, workers := s.workers[j := Gone]))
    case Gone => Blocked
  }

  // Inject waits for each worker to be set up before it starts the next.
  function StepSpawn(s: State): Outcome {
    if s.workers != [] && s.workers[|s.workers| - 1] == Starting then Blocked
    else if |s.workers| < Cap(s.exiters) then Go(s.(workers := s.workers + [Starting]))
    else Go(s.(stage := Stressing))
  }

  function StepClose(s: State, left: nat): Outcome {
    if left == 4 then if s.exiters.Open? then Go(s.(exiters := Closed, stage := Closing(3))) else Panic
    else if left == 3 then Go(s.(exiters := Nil, stage := Closing(2)))
    else if left == 2 then if s.completed.Open? then Go(s.(completed := Closed, stage := Closing(1))) else Panic
    else Go(s.(completed := Nil, stage := Idle))
  }

  function StepCaller(s: State): Outcome {
    match s.stage
    case Idle => Blocked
    case Stressing => Blocked
    case Spawning => StepSpawn(s)
    case Sending(i, total) =>
      if i == total then Go(s.(stage := Waiting(0, total)))
      else if s.exiters.Closed? then Panic
      else
        var sent := Send(s.exiters);
        if sent.None? then Blocked else Go(s.(exiters := sent.value, stage := Sending(i + 1, total)))
    case Waiting(i, total) =>
      if i == total then Go(s.(stage := Closing(4)))
      else if s.completed.Open? && s.completed.count > 0 then
        Go(s.(completed := s.completed.(count := s.completed.count - 1), stage := Waiting(i + 1, total)))
      else Blocked
    case Closing(left) => StepClose(s, left)
  }

  function Step(s: State, a: Action): Outcome {
    match a
    case Inject(cpus) =>
      if s.stage != Idle && s.stage != Stressing then Blocked
      else if Cap(s.exiters) != 0 then Go(s)
      else Go(s.(exiters := Open(cpus, 0), workers := [], stage := Spawning))
    case Clean =>
      if s.stage != Idle && s.stage != Stressing then Blocked
      else Go(s.(completed := Open(Cap(s.exiters), 0), stage := Sending(0, Cap(s.exiters))))
    case Caller => StepCaller(s)
    case Work(j) => if j < |s.workers| then StepWorker(s, j) else Blocked
  }

  // Clean follows a successful Inject that was not cleaned yet.
  predicate Proper(s: State, a: Action) {
    a.Clean? ==> s.stage == Stressing
  }

  ghost predicate Run(s: State, actions: seq<Action>, s': State)
    decreases |actions|
  {
    if actions == [] then s' == s
    else Proper(s, actions[0]) && Step(s, actions[0]).Go? && Run(Step(s, actions[0]).s, actions[1..], s')
  }

  /* ---------- counting workers ---------- */

  function Count(workers: seq<Worker>, w: Worker): (r: nat)
    ensures r <= |workers|
  {
    if workers == [] then 0 else
      Count(workers[..|workers| - 1], w) + if workers[|workers| - 1] == w then 1 else 0
  }

  lemma {:induction false} CountUpdate(workers: seq<Worker>, j: nat, x: Worker, w: Worker)
    requires j < |workers|
    ensures Count(workers[j := x], w) ==
      Count(workers, w) - (if workers[j] == w then 1 else 0) + (if x == w then 1 else 0)
    decreases |workers|
  {
    var n := |workers| - 1;
    if j < n {
      CountUpdate(workers[..n], j, x, w);
      assert workers[j := x][..n] == workers[..n][j := x];
    } else {
      assert workers[j := x][..n] == workers[..n];
    }
  }

  lemma {:induction false} CountSplit(workers: seq<Worker>)
    ensures Count(workers, Starting) + Count(workers, Running) + Count(workers, Leaving) + Count(workers, Gone) ==
      |workers|
  {
    if workers != [] {
      CountSplit(workers[..|workers| - 1]);
    }
  }

  lemma {:induction false} SomeWorker(workers: seq<Worker>, w: Worker) returns (j: nat)
    requires Count(workers, w) > 0
    ensures j < |workers| && workers[j] == w
    decreases |workers|
  {
    var n := |workers| - 1;
    if workers[n] == w {
      j := n;
    } else {
      j := SomeWorker(workers[..n], w);
    }
  }

  /* ---------- what every run keeps ---------- */

  ghost predicate AllGone(workers: seq<Worker>) {
    forall j :: 0 <= j < |workers| ==> workers[j] == Gone
  }

  function Out(workers: seq<Worker>): nat {
    Count(workers, Leaving) + Count(workers, Gone)
  }

  // Tokens sent are buffered or were taken, one by each worker that left; reports sent are buffered or were received.
  ghost predicate Sound(s: State) {
    var w := s.workers;
    match s.stage
    case Idle => s.exiters == Nil && s.completed == Nil && Count(w, Gone) == |w|
    case Spawning =>
      && s.exiters.Open? && s.exiters.count == 0 && s.completed == Nil && |w| <= s.exiters.capacity && Out(w) == 0
      && Count(w, Starting) <= 1 && (Count(w, Starting) == 1 ==> w != [] && w[|w| - 1] == Starting)
    case Stressing => s.exiters == Open(|w|, 0) && s.completed == Nil && Out(w) == Count(w, Starting) == 0
    case Sending(i, total) =>
      && i <= total == |w| && Count(w, Starting) == 0 && Out(w) <= i
      && s.exiters == Open(total, i - Out(w)) && s.completed == Open(total, Count(w, Gone))
    case Waiting(i, total) =>
      && i <= Count(w, Gone) && total == |w| && Count(w, Starting) == 0 && Out(w) <= total
      && s.exiters == Open(total, total - Out(w)) && s.completed == Open(total, Count(w, Gone) - i)
    case Closing(left) =>
      && 1 <= left <= 4 && Count(w, Gone) == |w|
      && s.exiters == (if left == 4 then Open(|w|, 0) else if left == 3 then Closed else Nil)
      && s.completed == (if left == 1 then Closed else Open(|w|, 0))
  }

  lemma Updates(w: seq<Worker>, j: nat, x: Worker)
    requires j < |w|
    ensures forall k :: Count(w[j := x], k) == Count(w, k) - (if w[j] == k then 1 else 0) + (if x == k then 1 else 0)
    ensures Count(w, w[j]) >= 1
  {
    forall k ensures Count(w[j := x], k) == Count(w, k) - (if w[j] == k then 1 else 0) + (if x == k then 1 else 0) {
      CountUpdate(w, j, x, k);
    }
    CountUpdate(w, j, if w[j] == Gone then Running else Gone, w[j]);
  }

  lemma WorkerSound(s: State, j: nat)
    requires Sound(s) && j < |s.workers|
    ensures StepWorker(s, j) != Panic
    ensures StepWorker(s, j).Go? ==> Sound(StepWorker(s, j).s)
  {
    hide Count;
    CountSplit(s.workers);
    Updates(s.workers, j,
      if s.workers[j] == Starting then Running else if s.workers[j] == Running then Leaving else Gone);
    if s.stage.Spawning? && s.workers[j] == Starting {
      LastStarting(s.workers, j);
    }
  }

  // The worker that is being set up is the last one.
  lemma LastStarting(w: seq<Worker>, j: nat)
    requires j < |w| && w[j] == Starting && Count(w, Starting) == 1 && w[|w| - 1] == Starting
    ensures j == |w| - 1
  {
    if j < |w| - 1 {
      Updates(w[..|w| - 1], j, Gone);
    }
  }

  lemma SpawnSound(s: State)
    requires Sound(s) && s.stage.Spawning?
    ensures StepSpawn(s) != Panic && (StepSpawn(s).Go? ==> Sound(StepSpawn(s).s))
  {
    CountSplit(s.workers);
    assert (s.workers + [Starting])[..|s.workers|] == s.workers;
  }

  lemma CallerSound(s: State)
    requires Sound(s)
    ensures StepCaller(s) != Panic && (StepCaller(s).Go? ==> Sound(StepCaller(s).s))
  {
    hide Count;
    CountSplit(s.workers);
    if s.stage.Spawning? {
      SpawnSound(s);
    }
  }

  // No step panics: nobody sends on a closed channel or closes a nil one.
  lemma StepSound(s: State, a: Action)
    requires Sound(s) && Proper(s, a)
    ensures Step(s, a) != Panic && (Step(s, a).Go? ==> Sound(Step(s, a).s))
  {
    match a
    case Inject(cpus) =>
    case Clean => CountSplit(s.workers);
    case Caller => CallerSound(s);
    case Work(j) => if j < |s.workers| { WorkerSound(s, j); }
  }

  lemma {:induction false} RunSound(s: State, actions: seq<Action>, s': State)
    requires Sound(s) && Run(s, actions, s')
    ensures Sound(s')
    decreases |actions|
  {
    hide Sound, Step;
    if actions != [] {
      StepSound(s, actions[0]);
      RunSound(Step(s, actions[0]).s, actions[1..], s');
    }
  }

  lemma {:induction false} CountFull(w: seq<Worker>, x: Worker)
    requires Count(w, x) == |w|
    ensures forall j :: 0 <= j < |w| ==> w[j] == x
  {
    if w != [] {
      CountFull(w[..|w| - 1], x);
    }
  }

  // In every reachable state: no send blocks, no worker reports on a nil or closed channel, and a channel is
  // closed only when every worker is gone.
  lemma EveryRunIsSafe(actions: seq<Action>, s: State)
    requires Run(State(Nil, Nil, [], Idle), actions, s)
    ensures s.stage.Sending? && s.stage.i < s.stage.total ==> s.exiters.Open? && s.exiters.count < s.exiters.capacity
    ensures Leaving in s.workers ==> s.completed.Open? && s.completed.count < s.completed.capacity
    ensures s.exiters.Closed? || s.completed.Closed? ==> AllGone(s.workers)
    ensures forall a :: Proper(s, a) ==> Step(s, a) != Panic
  {
    RunSound(State(Nil, Nil, [], Idle), actions, s);
    CountSplit(s.workers);
    if Leaving in s.workers {
      var j :| 0 <= j < |s.workers| && s.workers[j] == Leaving;
      Updates(s.workers, j, Gone);
    }
    if Count(s.workers, Gone) == |s.workers| {
      CountFull(s.workers, Gone);
    }
    forall a | Proper(s, a) ensures Step(s, a) != Panic {
      StepSound(s, a);
    }
  }

  /* ---------- Clean returns ---------- */

  predicate Cleaning(s: State) {
    s.stage.Sending? || s.stage.Waiting? || s.stage.Closing?
  }

  predicate Inner(a: Action) {
    a.Caller? || a.Work?
  }

  // What is left to do for Clean and the workers.
  function Remaining(s: State): int {
    var w := s.workers;
    match s.stage
    case Sending(i, total) => 2 * total - i + 6 + 2 * Count(w, Running) + Count(w, Leaving)
    case Waiting(i, total) => total - i + 5 + 2 * Count(w, Running) + Count(w, Leaving)
    case Closing(left) => left
    case _ => 0
  }

  lemma WorkCounts(s: State, j: nat)
    requires Sound(s) && Cleaning(s) && j < |s.workers| && StepWorker(s, j).Go?
    ensures Remaining(StepWorker(s, j).s) == Remaining(s) - 1 && StepWorker(s, j).s.stage == s.stage
  {
    hide Count;
    CountSplit(s.workers);
    Updates(s.workers, j, if s.workers[j] == Running then Leaving else Gone);
  }

  lemma CallerCounts(s: State)
    requires Sound(s) && Cleaning(s) && StepCaller(s).Go?
    ensures Remaining(StepCaller(s).s) == Remaining(s) - 1
    ensures Cleaning(StepCaller(s).s) || StepCaller(s).s.stage == Idle
  {
    hide Count;
    CountSplit(s.workers);
  }

  lemma EachStepCounts(s: State, a: Action)
    requires Sound(s) && Cleaning(s) && Inner(a) && Step(s, a).Go?
    ensures Remaining(Step(s, a).s) == Remaining(s) - 1
    ensures Cleaning(Step(s, a).s) || Step(s, a).s.stage == Idle
  {
    hide Sound, StepCaller, StepWorker, Remaining;
    if a.Work? {
      WorkCounts(s, a.j);
    } else {
      CallerCounts(s);
    }
  }

  // Nobody is stuck while Clean runs.
  lemma SomeoneMoves(s: State) returns (a: Action)
    requires Sound(s) && Cleaning(s)
    ensures Inner(a) && Step(s, a).Go?
  {
    a := Caller;
    CountSplit(s.workers);
    if s.stage.Waiting? && s.stage.i < s.stage.total && s.completed.count == 0 {
      if Count(s.workers, Leaving) > 0 {
        var j := SomeWorker(s.workers, Leaving);
        a := Work(j);
      } else {
        var j := SomeWorker(s.workers, Running);
        a := Work(j);
      }
    }
  }

  ghost predicate InnerRun(s: State, actions: seq<Action>, s': State)
    decreases |actions|
  {
    if actions == [] then s' == s
    else
      Cleaning(s) && Inner(actions[0]) && Step(s, actions[0]).Go? && InnerRun(Step(s, actions[0]).s, actions[1..], s')
  }

  lemma {:induction false} InnerRunCounts(s: State, actions: seq<Action>, s': State)
    requires Sound(s) && (Cleaning(s) || s.stage == Idle) && InnerRun(s, actions, s')
    ensures Sound(s') && (Cleaning(s') || s'.stage == Idle) && Remaining(s') == Remaining(s) - |actions|
    decreases |actions|
  {
    hide Sound, Step, Remaining;
    if actions != [] {
      StepSound(s, actions[0]);
      EachStepCounts(s, actions[0]);
      InnerRunCounts(Step(s, actions[0]).s, actions[1..], s');
    }
  }

  // Whatever the interleaving, Clean after a successful Inject of n workers is over after exactly 4n + 6 steps of
  // the caller and the workers: never earlier, and it can always go on until then. Every worker is gone by then.
  lemma CleanTerminates(s: State, actions: seq<Action>, s': State)
    requires Sound(s) && s.stage == Stressing && InnerRun(Step(s, Clean).s, actions, s')
    ensures |actions| <= 4 * |s.workers| + 6
    ensures s'.stage == Idle <==> |actions| == 4 * |s.workers| + 6
    ensures s'.stage == Idle ==> AllGone(s'.workers) && s'.exiters == Nil && s'.completed == Nil
    ensures s'.stage != Idle ==> exists a :: Inner(a) && Step(s', a).Go?
  {
    StepSound(s, Clean);
    CountSplit(s.workers);
    InnerRunCounts(Step(s, Clean).s, actions, s');
    CountSplit(s'.workers);
    if s'.stage == Idle {
      CountFull(s'.workers, Gone);
    } else {
      var a := SomeoneMoves(s');
    }
  }

  // Without an injection to clean, Clean closes a nil channel.
  lemma CleanTooEarlyPanics(s: State)
    requires Sound(s) && s.stage == Idle
    ensures var s1 := Step(s, Clean).s;
      Step(s, Clean).Go? && Step(s1, Caller).Go? && Step(Step(s1, Caller).s, Caller).Go?
      && Step(Step(Step(s1, Caller).s, Caller).s, Caller) == Panic
  {
  }
}
