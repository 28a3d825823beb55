/**
 Runs cut into pieces, and the progress of one handler among all the others.
 */
module GatewayProgress {
  import opened GatewayInvariant
  import opened GatewayProtocol
  import opened GatewayRuns
  import opened GatewayTables

  lemma {:induction false} RunThen(s: System, first: seq<Action>, second: seq<Action>)
    ensures Run(s, first + second) == Run(Run(s, first), second)
  {
    if second == [] {
      assert first + second == first;
    } else {
      var n := |second| - 1;
      assert (first + second)[..|first + second| - 1] == first + second[..n];
      RunThen(s, first, second[..n]);
    }
  }

  lemma RunOne(s: System, first: seq<Action>, a: Action)
    ensures Run(s, first + [a]) == Next(Run(s, first), a)
  {
    assert (first + [a])[..|first|] == first;
  }

  /** A run before, at and after one of its actions. */
  lemma RunAround(s: System, actions: seq<Action>, n: nat)
    requires n < |actions|
    ensures Run(s, actions) == Run(Next(Run(s, actions[..n]), actions[n]), actions[n + 1..])
  {
    assert actions == actions[..n] + [actions[n]] + actions[n + 1..];
    RunThen(s, actions[..n] + [actions[n]], actions[n + 1..]);
    RunOne(s, actions[..n], actions[n]);
  }

  // ----- The steps of one handler -----

  function StepBy(a: Action, pid: nat): nat {
    if a.Step? && a.pid == pid then 1 else 0
  }

  /** How many steps a handler takes. */
  function StepsOf(actions: seq<Action>, pid: nat): nat {
    if actions == [] then 0 else StepsOf(actions[..|actions| - 1], pid) + StepBy(actions[|actions| - 1], pid)
  }

  /** What a handler may require of the tables it takes a step on, and of the row id it draws. */
  type Condition = (Tables, Handler, Oracle) -> bool

  ghost function Always(): Condition {
    (t: Tables, h: Handler, o: Oracle) => true
  }

  /** The action does not crash the handler, and if it is its step, it loses nothing and meets the condition. */
  ghost predicate Spares(s: System, a: Action, pid: nat, fine: Condition) {
    && a != Crash(pid)
    && (a.Step? && a.pid == pid ==> a.oracle.fault.NoFault? && (pid in s.handlers ==> fine(s.tables, s.handlers[pid], a.oracle)))
  }

  /** A handler never crashes, loses no statement, and takes its steps where the condition holds. */
  ghost predicate Undisturbed(s: System, actions: seq<Action>, pid: nat, fine: Condition) {
    actions == [] ||
    var prefix, last := actions[..|actions| - 1], actions[|actions| - 1];
    Undisturbed(s, prefix, pid, fine) && Spares(Run(s, prefix), last, pid, fine)
  }

  /** Where a handler is after a number of its own steps. */
  type Place = (Tables, Handler, nat) -> bool

  ghost predicate KeptAt(place: Place, t: Tables, t': Tables, h: Handler, n: nat) {
    place(t, h, n) && Grows(t, t') ==> place(t', h, n)
  }

  ghost predicate MovedAt(place: Place, fine: Condition, t: Tables, log: seq<Submission>, pid: nat, h: Handler, o: Oracle, n: nat) {
    Consistent(t) && HandlerOk(t, log, pid, h) && place(t, h, n) && fine(t, h, o) && o.fault.NoFault? ==>
      var w := Write(t, Statement(t, h, o), o.fault);
      place(w.tables, Continue(t, h, o, w), n + 1)
  }

  /** Own steps lead from one place to the next; growing tables leave a handler where it is. */
  ghost predicate Follows(place: Place, fine: Condition) {
    && (forall t, t', h, n :: KeptAt(place, t, t', h, n))
    && (forall t, log, pid, h, o, n :: MovedAt(place, fine, t, log, pid, h, o, n))
  }

  ghost predicate At(place: Place, s: System, pid: nat, n: nat) {
    pid in s.handlers && place(s.tables, s.handlers[pid], n)
  }

  lemma NextFollows(place: Place, fine: Condition, s: System, a: Action, s': System, pid: nat, n: nat, n': nat)
    requires Follows(place, fine) && GInv(s) && Spares(s, a, pid, fine) && At(place, s, pid, n)
    requires s' == Next(s, a) && n' == n + StepBy(a, pid)
    ensures At(place, s', pid, n')
  {
    var h := s.handlers[pid];
    if a.Step? && a.pid == pid {
      assert HandlerOk(s.tables, s.log, pid, h);
      assert MovedAt(place, fine, s.tables, s.log, pid, h, a.oracle, n);
    } else {
      NextExtends(s, a);
      OthersMove(s, a, pid);
      assert KeptAt(place, s.tables, Next(s, a).tables, h, n);
    }
  }

  lemma LastFollows(place: Place, fine: Condition, s: System, actions: seq<Action>, pid: nat, n: nat, m: nat)
    requires actions != []
    requires var prefix, last := actions[..|actions| - 1], actions[|actions| - 1];
      && GInv(Run(s, prefix)) && At(place, Run(s, prefix), pid, n)
      && Follows(place, fine) && Spares(Run(s, prefix), last, pid, fine) && m == n + StepBy(last, pid)
    ensures At(place, Run(s, actions), pid, m)
  {
    NextFollows(place, fine, Run(s, actions[..|actions| - 1]), actions[|actions| - 1], Run(s, actions), pid, n, m);
  }

  /** Whatever happens between its steps, an undisturbed handler follows its places. */
  lemma {:induction false} RunFollows(place: Place, fine: Condition, s: System, actions: seq<Action>, pid: nat, n: nat, m: nat)
    requires Follows(place, fine) && GInv(s) && Undisturbed(s, actions, pid, fine) && At(place, s, pid, n)
    requires m == n + StepsOf(actions, pid)
    ensures At(place, Run(s, actions), pid, m)
    decreases |actions|
  {
    if actions == [] {
      assert m == n;
    } else {
      var prefix := actions[..|actions| - 1];
      var before := n + StepsOf(prefix, pid);
      RunFollows(place, fine, s, prefix, pid, n, before);
      assert GInv(Run(s, prefix)) by { RunKeepsGInv(s, prefix); }
      LastFollows(place, fine, s, actions, pid, before, m);
    }
  }

  // ----- Every handler ends -----

  /** How many own steps a handler has left at most. */
  function StepsLeft(pc: Pc): nat {
    match pc
    case Start => 14
    case SeenCheck => 13
    case Claim => 12
    case Decode => 11
    case Resolve => 10
    case CheckStatus => 9
    case CheckExists => 8
    case FetchId => 2
    case FindContributor => 7
    case Submit => 6
    case LoadRatio => 5
    case SavePayout => 4
    case Increment => 3
    case RecordProcessed => 2
    case Audit(_, _) => 1
    case Done(_) => 0
    case Crashed => 0
  }

  lemma StepsLeftBounds(pc: Pc)
    ensures StepsLeft(pc) <= 14 && (StepsLeft(pc) == 0 <==> pc.Done? || pc.Crashed?)
  {
  }

  lemma StepComesCloser(t: Tables, h: Handler, o: Oracle, w: Written)
    ensures var left := StepsLeft(Continue(t, h, o, w).pc); left == 0 || left < StepsLeft(h.pc)
  {
  }

  lemma NextComesCloser(s: System, a: Action, pid: nat)
    requires pid in s.handlers
    ensures pid in Next(s, a).handlers
    ensures var left := StepsLeft(Next(s, a).handlers[pid].pc);
      left == 0 || left + StepBy(a, pid) <= StepsLeft(s.handlers[pid].pc)
  {
    if a.Step? && a.pid == pid {
      var h := s.handlers[pid];
      StepComesCloser(s.tables, h, a.oracle, Write(s.tables, Statement(s.tables, h, a.oracle), a.oracle.fault));
    } else {
      OthersMove(s, a, pid);
    }
  }

  lemma {:induction false} RunComesCloser(s: System, actions: seq<Action>, pid: nat)
    requires pid in s.handlers
    ensures pid in Run(s, actions).handlers
    ensures var left := StepsLeft(Run(s, actions).handlers[pid].pc);
      left == 0 || left + StepsOf(actions, pid) <= StepsLeft(s.handlers[pid].pc)
  {
    if actions != [] {
      var prefix, last := actions[..|actions| - 1], actions[|actions| - 1];
      RunComesCloser(s, prefix, pid);
      NextComesCloser(Run(s, prefix), last, pid);
    }
  }

  /**
   Whatever is lost and whatever others do, a handler has answered or crashed after at most fourteen
   steps of its own.
   */
  lemma HandlersEnd(s: System, actions: seq<Action>, pid: nat)
    requires pid in s.handlers && StepsOf(actions, pid) >= 14
    ensures pid in Run(s, actions).handlers
    ensures Run(s, actions).handlers[pid].pc.Done? || Run(s, actions).handlers[pid].pc.Crashed?
  {
    RunComesCloser(s, actions, pid);
    StepsLeftBounds(s.handlers[pid].pc);
    StepsLeftBounds(Run(s, actions).handlers[pid].pc);
  }
}
