// Keeping a background process awake (command/command.go): KeepAlive, Stop and the goroutines that KeepAlive starts all
// run under one mutex, so an execution is any sequence of these operations.
module BackgroundCommand {
  import opened DisruptionTypes
  import opened Channels

  // KeepAlive that starts a ticker, and the signals the process gets.
  datatype Event = Kept | Cont | Term

  // What signalling the process gives: it cannot be found, the signal is delivered, the process is done, or an error.
  datatype Reply = NotFound | Delivered | ProcessDone | Failed

  datatype State = State(ticker: bool, quit: Chan, goroutines: nat, log: seq<Event>)

  // An operation ends, or waits for ever holding the mutex, or panics.
  datatype Result = Ends(s: State) | Hangs | Panics

  function ResetTicker(s: State): Result {
    if !s.ticker then Ends(s)
    else match s.quit
      case Nil => Ends(s.(ticker := false))
      case Closed => Panics
      case Open(_, _) =>
        var sent := Send(s.quit);
        if sent.Some? then Ends(s.(ticker := false, quit := sent.value)) else Hangs
  }

  function KeepAlive(s: State, dryRun: bool): Result {
    if dryRun || s.ticker then Ends(s)
    else Ends(State(true, Open(1, 0), s.goroutines + 1, s.log + [Kept]))
  }

  predicate QuitReady(s: State) {
    s.quit.Closed? || (s.quit.Open? && s.quit.count > 0)
  }

  // One turn of a goroutine (sendSIGCONTSignal); it waits for the quit channel or the ticker.
  function Turn(s: State, reply: Reply): Result {
    if s.goroutines == 0 then Ends(s)
    else if !s.ticker then Ends(s.(goroutines := s.goroutines - 1))
    else if QuitReady(s) then
      if s.quit.Closed? then Panics else Ends(s.(quit := Closed, goroutines := s.goroutines - 1))
    else if reply == Delivered then Ends(s.(log := s.log + [Cont]))
    else
      var r := ResetTicker(s);
      if r.Ends? then Ends(r.s.(goroutines := s.goroutines - 1)) else r
  }

  function Stop(s: State, dryRun: bool, reply: Reply): Result {
    if dryRun then Ends(s) else
      var r := ResetTicker(s);
      if r.Ends? && reply == Delivered then Ends(r.s.(log := r.s.log + [Term])) else r
  }

  datatype Action = DoKeepAlive | DoStop(reply: Reply) | DoTurn(reply: Reply)

  function Act(s: State, dryRun: bool, a: Action): Result {
    match a
    case DoKeepAlive => KeepAlive(s, dryRun)
    case DoStop(reply) => Stop(s, dryRun, reply)
    case DoTurn(reply) => Turn(s, reply)
  }

  function Play(s: State, dryRun: bool, actions: seq<Action>): Result {
    if actions == [] then Ends(s) else
      var r := Play(s, dryRun, actions[..|actions| - 1]);
      if r.Ends? then Act(r.s, dryRun, actions[|actions| - 1]) else r
  }

  const START := State(false, Nil, 0, [])

  /* ---------- what every execution keeps ---------- */

  // A KeepAlive follows every SIGTERM before the ticker runs again, and before every later SIGCONT.
  ghost predicate Revived(log: seq<Event>, i: nat, end: nat) {
    exists k :: i < k < end && k < |log| && log[k] == Kept
  }

  ghost predicate Sound(s: State) {
    && (s.ticker ==> s.quit == Open(1, 0))
    && (forall i :: 0 <= i < |s.log| && s.log[i] == Term && s.ticker ==> Revived(s.log, i, |s.log|))
    && (forall i, j :: 0 <= i < j < |s.log| && s.log[i] == Term && s.log[j] == Cont ==> Revived(s.log, i, j))
  }

  lemma RevivedMore(log: seq<Event>, e: Event)
    ensures forall i: nat, end: nat :: end <= |log| && Revived(log, i, end) ==>
      Revived(log + [e], i, end) && Revived(log + [e], i, |log| + 1)
  {
    forall i: nat, end: nat | end <= |log| && Revived(log, i, end)
      ensures Revived(log + [e], i, end) && Revived(log + [e], i, |log| + 1)
    {
      var k :| i < k < end && k < |log| && log[k] == Kept;
      assert (log + [e])[k] == Kept;
    }
  }

  lemma ActSound(s: State, dryRun: bool, a: Action)
    requires Sound(s)
    ensures Act(s, dryRun, a).Ends? && Sound(Act(s, dryRun, a).s)
  {
    RevivedMore(s.log, Kept);
    RevivedMore(s.log, Cont);
    RevivedMore(s.log, Term);
    var kept := s.log + [Kept];
    assert kept[|s.log|] == Kept;
    assert forall i :: 0 <= i < |s.log| ==> Revived(kept, i, |kept|);
  }

  lemma {:induction false} PlaySound(dryRun: bool, actions: seq<Action>)
    ensures Play(START, dryRun, actions).Ends? && Sound(Play(START, dryRun, actions).s)
  {
    hide Sound, Act;
    if actions == [] {
      StartSound();
    } else {
      PlaySound(dryRun, actions[..|actions| - 1]);
      ActSound(Play(START, dryRun, actions[..|actions| - 1]).s, dryRun, actions[|actions| - 1]);
    }
  }

  lemma StartSound()
    ensures Sound(START)
  {
  }

  // In every interleaving: nothing hangs or panics, a ticker comes with an open and empty quit channel, so that no
  // goroutine is ever told to quit through it, and a SIGCONT comes after a SIGTERM only when KeepAlive was called in
  // between.
  lemma NeverHangs(dryRun: bool, actions: seq<Action>)
    ensures Play(START, dryRun, actions).Ends?
    ensures var s := Play(START, dryRun, actions).s;
      && (s.ticker ==> s.quit == Open(1, 0) && !QuitReady(s))
      && (forall i, j :: 0 <= i < j < |s.log| && s.log[i] == Term && s.log[j] == Cont ==> Revived(s.log, i, j))
  {
    PlaySound(dryRun, actions);
  }

  /* ---------- how many goroutines ---------- */

  // Whether the ticker runs after these actions: since the last KeepAlive, no Stop and no turn that failed.
  predicate Ticking(actions: seq<Action>) {
    actions != [] &&
    match actions[|actions| - 1]
    case DoKeepAlive => true
    case DoStop(_) => false
    case DoTurn(reply) => reply == Delivered && Ticking(actions[..|actions| - 1])
  }

  // The i-th action is a Stop that stops the ticker.
  predicate StopsTicker(actions: seq<Action>, i: nat) {
    i < |actions| && actions[i].DoStop? && Ticking(actions[..i])
  }

  predicate TurnBetween(actions: seq<Action>, i: nat, j: nat) {
    exists k :: i < k < j && k < |actions| && actions[k].DoTurn?
  }

  // Between a Stop that stops the ticker and any later KeepAlive there is a turn of the goroutine.
  ghost predicate Spaced(actions: seq<Action>) {
    forall i: nat, j: nat :: i < j < |actions| && StopsTicker(actions, i) && actions[j] == DoKeepAlive ==>
      TurnBetween(actions, i, j)
  }

  // A goroutine whose ticker was stopped has had no turn since.
  ghost predicate Owing(actions: seq<Action>) {
    exists i: nat :: StopsTicker(actions, i) && !TurnBetween(actions, i, |actions|)
  }

  // There is never more than one goroutine.
  predicate Single(dryRun: bool, actions: seq<Action>) {
    && Play(START, dryRun, actions).Ends? && Play(START, dryRun, actions).s.goroutines <= 1
    && (actions != [] ==> Single(dryRun, actions[..|actions| - 1]))
  }

  lemma SpacedNext(init: seq<Action>, a: Action)
    ensures Spaced(init + [a]) <==> Spaced(init) && (a == DoKeepAlive ==> !Owing(init))
    ensures Owing(init + [a]) <==> !a.DoTurn? && (Owing(init) || (a.DoStop? && Ticking(init)))
    ensures Ticking(init + [a]) <==> a == DoKeepAlive || (a == DoTurn(Delivered) && Ticking(init))
  {
    var all, n := init + [a], |init|;
    assert all[..n] == init;
    forall i: nat | i < n ensures all[i] == init[i] && (StopsTicker(all, i) <==> StopsTicker(init, i)) {
      assert all[..i] == init[..i];
    }
    forall i: nat, j: nat | j <= n ensures TurnBetween(all, i, j) <==> TurnBetween(init, i, j) {
    }
    forall i: nat | i < n ensures TurnBetween(all, i, n + 1) <==> TurnBetween(init, i, n) || a.DoTurn? {
      assert a.DoTurn? ==> all[n].DoTurn?;
    }
    if Spaced(all) {
      SpacedInit(init, a);
    }
    if Owing(init) && !a.DoTurn? {
      var i: nat :| StopsTicker(init, i) && !TurnBetween(init, i, n);
      assert StopsTicker(all, i) && !TurnBetween(all, i, n + 1);
    }
    if a.DoStop? && Ticking(init) {
      assert StopsTicker(all, n) && !TurnBetween(all, n, n + 1);
    }
  }

  lemma SpacedInit(init: seq<Action>, a: Action)
    requires Spaced(init + [a])
    ensures Spaced(init) && (a == DoKeepAlive ==> !Owing(init))
  {
    var all, n := init + [a], |init|;
    forall i: nat, j: nat | i < j < n && StopsTicker(init, i) && init[j] == DoKeepAlive
      ensures TurnBetween(init, i, j)
    {
      assert all[..i] == init[..i] && StopsTicker(all, i) && all[j] == DoKeepAlive;
      assert TurnBetween(all, i, j);
    }
    if a == DoKeepAlive {
      forall i: nat | StopsTicker(init, i) ensures TurnBetween(init, i, n) {
        assert all[..i] == init[..i] && StopsTicker(all, i) && all[n] == DoKeepAlive;
        assert TurnBetween(all, i, n);
      }
    }
  }

  // As long as there is a single goroutine, it is the one of the ticker or one that is owed a turn.
  ghost predicate Accounted(s: State, actions: seq<Action>) {
    && (s.ticker <==> Ticking(actions))
    && s.goroutines == (if Ticking(actions) then 1 else 0) + (if Owing(actions) then 1 else 0)
  }

  // There is a single goroutine throughout exactly when a goroutine gets a turn between a Stop that stops its ticker
  // and the next KeepAlive.
  lemma {:induction false} SingleGoroutine(actions: seq<Action>)
    ensures Single(false, actions) <==> Spaced(actions)
    ensures Spaced(actions) ==> Accounted(Play(START, false, actions).s, actions)
    decreases |actions|
  {
    PlaySound(false, actions);
    if actions != [] {
      var init, a := actions[..|actions| - 1], actions[|actions| - 1];
      SingleGoroutine(init);
      PlaySound(false, init);
      assert actions == init + [a];
      SpacedNext(init, a);
      if Spaced(init) {
        AccountedNext(Play(START, false, init).s, init, a);
      }
    }
  }

  lemma AccountedNext(s: State, init: seq<Action>, a: Action)
    requires Sound(s) && Accounted(s, init) && s.goroutines <= 1
    ensures var r := Act(s, false, a);
      && r.Ends? && (r.s.goroutines <= 1 <==> (a == DoKeepAlive ==> !Owing(init)))
      && (r.s.goroutines <= 1 ==> Accounted(r.s, init + [a]))
  {
    SpacedNext(init, a);
  }

  // Nothing is ever started in dry-run mode.
  lemma {:induction false} DryRunSingle(actions: seq<Action>)
    ensures Single(true, actions) && Play(START, true, actions).s.goroutines == 0
  {
    PlaySound(true, actions);
    if actions != [] {
      DryRunSingle(actions[..|actions| - 1]);
    }
  }

  // So the promise of a single goroutine is not kept.
  lemma TwoGoroutines()
    ensures !Single(false, [DoKeepAlive, DoStop(Delivered), DoKeepAlive])
    ensures var r := Play(START, false, [DoKeepAlive, DoStop(Delivered), DoKeepAlive]); r.Ends? && r.s.goroutines == 2
  {
    var a, b := [DoKeepAlive], [DoKeepAlive, DoStop(Delivered)];
    assert a[..0] == [] && b[..1] == a && [DoKeepAlive, DoStop(Delivered), DoKeepAlive][..2] == b;
    assert Play(START, false, a) == Ends(State(true, Open(1, 0), 1, [Kept]));
    assert Play(START, false, b).s.goroutines == 1 && !Play(START, false, b).s.ticker;
  }

  /* ---------- the command ---------- */

  class Command {
    const dryRun: bool
    var ticker: bool          // whether there is one
    var keepAliveQuit: Chan
    ghost var goroutines: nat
    ghost var log: seq<Event>
    ghost var actions: seq<Action>

    ghost function Abstract(): State
      reads this
    {
      State(ticker, keepAliveQuit, goroutines, log)
    }

    ghost predicate Valid()
      reads this
    {
      Play(START, dryRun, actions) == Ends(Abstract())
    }

    constructor (dryRun: bool)
      ensures Valid() && this.dryRun == dryRun && actions == []
    {
      this.dryRun := dryRun;
      ticker, keepAliveQuit, goroutines, log, actions := false, Nil, 0, [], [];
    }

    // What was done so far is extended by one operation.
    ghost method Note(a: Action)
      requires Play(START, dryRun, actions).Ends? && Act(Play(START, dryRun, actions).s, dryRun, a) == Ends(Abstract())
      modifies this`actions
      ensures Valid() && actions == old(actions) + [a]
    {
      assert (actions + [a])[..|actions|] == actions;
      actions := actions + [a];
    }

    method StartTicker()
      requires Valid()
      modifies this
      ensures Valid() && actions == old(actions) + [DoKeepAlive]
    {
      if !dryRun && !ticker {
        ticker, keepAliveQuit := true, Open(1, 0);
        goroutines, log := goroutines + 1, log + [Kept];
      }
      Note(DoKeepAlive);
    }

    // resetTicker: the send finds room.
    method Reset()
      requires Sound(Abstract())
      modifies this`ticker, this`keepAliveQuit
      ensures ResetTicker(old(Abstract())) == Ends(Abstract()) && !ticker
    {
      if ticker {
        ticker := false;
        keepAliveQuit := keepAliveQuit.(count := keepAliveQuit.count + 1);
      }
    }

    method SendSigterm(reply: Reply) returns (ok: bool)
      requires Valid()
      modifies this
      ensures Valid() && actions == old(actions) + [DoStop(reply)]
      ensures (!dryRun ==> !ticker) && (ok <==> dryRun || reply == Delivered)
    {
      PlaySound(dryRun, actions);
      ok := true;
      if !dryRun {
        Reset();
        ok := reply == Delivered;
        if ok {
          log := log + [Term];
        }
      }
      Note(DoStop(reply));
    }

    // sendSIGCONTSignal, called by a goroutine until it says exit.
    method SendSigcont(reply: Reply) returns (exit: bool)
      requires Valid() && goroutines > 0
      modifies this
      ensures Valid() && actions == old(actions) + [DoTurn(reply)]
      ensures exit <==> !old(ticker) || reply != Delivered
      ensures goroutines == old(goroutines) - (if exit then 1 else 0) && (exit ==> !ticker)
    {
      PlaySound(dryRun, actions);
      exit := !ticker;
      if ticker {
        if reply == Delivered {
          log := log + [Cont];
        } else {
          Reset();
          exit := true;
        }
      }
      if exit {
        goroutines := goroutines - 1;
      }
      Note(DoTurn(reply));
    }
  }
}
