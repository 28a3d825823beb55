/**
 A genuine delivery from its arrival to its answer, when its handler runs alone and loses nothing: every
 state on the way written out.
 */
module GatewayJourneys {
  import opened Containers
  import opened GatewayProgress
  import opened GatewayProtocol
  import opened GatewayRequests
  import opened GatewayTables
  import opened Integers
  import opened RowEncodings
  import opened Slugs
  import opened Tags

  function Steps(pid: nat, o: Oracle, n: nat): seq<Action> {
    if n == 0 then [] else Steps(pid, o, n - 1) + [Step(pid, o)]
  }

  lemma OneMore(s: System, pid: nat, o: Oracle, n: nat)
    ensures Run(s, Steps(pid, o, n + 1)) == Next(Run(s, Steps(pid, o, n)), Step(pid, o))
  {
    RunOne(s, Steps(pid, o, n), Step(pid, o));
  }

  lemma {:induction false} StepsAdd(pid: nat, o: Oracle, m: nat, n: nat)
    ensures Steps(pid, o, m + n) == Steps(pid, o, m) + Steps(pid, o, n)
  {
    if n > 0 {
      StepsAdd(pid, o, m, n - 1);
    }
  }

  function Moved(s: System, pid: nat, h: Handler): System {
    s.(handlers := s.handlers[pid := h])
  }

  /** A step that only reads. */
  lemma Reads(s: System, pid: nat, o: Oracle, h: Handler)
    requires pid in s.handlers && o.fault.NoFault? && !s.handlers[pid].pc.Submit?
    requires Statement(s.tables, s.handlers[pid], o) == Result.Ok(s.tables)
    requires h == Continue(s.tables, s.handlers[pid], o, Written(s.tables, true, None))
    ensures Next(s, Step(pid, o)) == Moved(s, pid, h)
  {
  }

  // ----- Intake -----

  predicate IsNew(t: Tables, r: Request) {
    r.delivery.Some? ==> !DeliverySeen(t, r.delivery.value)
  }

  /** The tables once the request's delivery id, if it has one, is claimed. */
  function Claimed(t: Tables, r: Request): Tables {
    if r.delivery.Some? then t.(events := t.events + [EventRow(r.delivery, Processing)]) else t
  }

  /** The handler once its event is decoded. */
  function Taken(r: Request): Handler
    requires IsMerge(r)
  {
    var h := NewHandler(r);
    Handler(r, Resolve, h.job.(merge := MergeOf(r)), Marks(r.delivery.Some?, false, false, false))
  }

  function IntakeSteps(r: Request): nat {
    if r.delivery.Some? then 4 else 2
  }

  lemma Asks(s: System, pid: nat, r: Request, o: Oracle)
    requires pid in s.handlers && s.handlers[pid] == NewHandler(r)
    requires r.signed && IsNew(s.tables, r) && r.delivery.Some? && o.fault.NoFault?
    ensures Run(s, Steps(pid, o, 2)) == Moved(s, pid, NewHandler(r).(pc := Claim))
  {
    var h := NewHandler(r);
    OneMore(s, pid, o, 0);
    Reads(s, pid, o, h.(pc := SeenCheck));
    OneMore(s, pid, o, 1);
    Reads(Moved(s, pid, h.(pc := SeenCheck)), pid, o, h.(pc := Claim));
  }

  lemma Claims(s: System, pid: nat, r: Request, o: Oracle)
    requires pid in s.handlers && s.handlers[pid] == NewHandler(r).(pc := Claim)
    requires IsMerge(r) && IsNew(s.tables, r) && r.delivery.Some? && o.fault.NoFault?
    ensures Next(s, Step(pid, o)) ==
      System(Claimed(s.tables, r), s.handlers[pid := Taken(r).(pc := Decode, job := NewHandler(r).job)], s.log)
  {
  }

  lemma IntakeWithId(s: System, pid: nat, r: Request, o: Oracle)
    requires pid in s.handlers && s.handlers[pid] == NewHandler(r)
    requires IsMerge(r) && IsNew(s.tables, r) && r.delivery.Some? && o.fault.NoFault?
    ensures Run(s, Steps(pid, o, 4)) == System(Claimed(s.tables, r), s.handlers[pid := Taken(r)], s.log)
  {
    Asks(s, pid, r, o);
    OneMore(s, pid, o, 2);
    Claims(Run(s, Steps(pid, o, 2)), pid, r, o);
    OneMore(s, pid, o, 3);
    Reads(Run(s, Steps(pid, o, 3)), pid, o, Taken(r));
  }

  lemma IntakeWithoutId(s: System, pid: nat, r: Request, o: Oracle)
    requires pid in s.handlers && s.handlers[pid] == NewHandler(r)
    requires IsMerge(r) && r.delivery.None? && o.fault.NoFault?
    ensures Run(s, Steps(pid, o, 2)) == System(Claimed(s.tables, r), s.handlers[pid := Taken(r)], s.log)
  {
    var h := NewHandler(r);
    OneMore(s, pid, o, 0);
    Reads(s, pid, o, h.(pc := Decode));
    OneMore(s, pid, o, 1);
    Reads(Moved(s, pid, h.(pc := Decode)), pid, o, Taken(r));
  }

  /** Arrival, duplicate check, claim and decoding. */
  lemma Takes(s: System, pid: nat, r: Request, o: Oracle)
    requires pid !in s.handlers && IsMerge(r) && IsNew(s.tables, r) && o.fault.NoFault?
    ensures Run(s, [Arrive(pid, r)] + Steps(pid, o, IntakeSteps(r)))
         == System(Claimed(s.tables, r), s.handlers[pid := Taken(r)], s.log)
  {
    RunThen(s, [Arrive(pid, r)], Steps(pid, o, IntakeSteps(r)));
    RunOne(s, [], Arrive(pid, r));
    var s0 := Moved(s, pid, NewHandler(r));
    assert Run(s, [Arrive(pid, r)]) == s0;
    if r.delivery.Some? {
      IntakeWithId(s0, pid, r, o);
    } else {
      IntakeWithoutId(s0, pid, r, o);
    }
  }

  // ----- From the program reads to the submission -----

  function Found(t: Tables, h: Handler, program: Uuid): Handler
    requires program in t.programs
  {
    h.(pc := CheckExists, job := h.job.(program := program, onChain := AsU64(t.programs[program].onChainId)))
  }

  /** The two program reads. */
  lemma Finds(s: System, pid: nat, o: Oracle, program: Uuid)
    requires Consistent(s.tables) && pid in s.handlers && s.handlers[pid].pc.Resolve? && o.fault.NoFault?
    requires ActiveFor(s.tables, s.handlers[pid].job.merge.repo, program)
    ensures Run(s, Steps(pid, o, 2)) == Moved(s, pid, Found(s.tables, s.handlers[pid], program))
  {
    var h := s.handlers[pid];
    assert ResolveProgram(s.tables, h.job.merge.repo) == Result.Ok(program);
    var h2 := Found(s.tables, h, program);
    OneMore(s, pid, o, 0);
    Reads(s, pid, o, h2.(pc := CheckStatus));
    OneMore(s, pid, o, 1);
    Reads(Moved(s, pid, h2.(pc := CheckStatus)), pid, o, h2);
  }

  predicate Registered(t: Tables, h: Handler) {
    (h.job.program, h.job.merge.user) in t.contributors
  }

  function WithAddress(t: Tables, h: Handler): Handler
    requires Registered(t, h)
  {
    h.(pc := Submit, job := h.job.(address := t.contributors[(h.job.program, h.job.merge.user)]))
  }

  lemma Checks(s: System, pid: nat, o: Oracle)
    requires pid in s.handlers && s.handlers[pid].pc.CheckExists? && o.fault.NoFault?
    requires var h := s.handlers[pid];
      FetchPayoutId(s.tables, h.job.program, h.job.merge.pr).None? && Registered(s.tables, h)
    ensures Run(s, Steps(pid, o, 2)) == Moved(s, pid, WithAddress(s.tables, s.handlers[pid]))
  {
    var h := s.handlers[pid];
    OneMore(s, pid, o, 0);
    Reads(s, pid, o, h.(pc := FindContributor));
    OneMore(s, pid, o, 1);
    Reads(Moved(s, pid, h.(pc := FindContributor)), pid, o, WithAddress(s.tables, h));
  }

  lemma SubmitsNow(s: System, pid: nat, o: Oracle)
    requires pid in s.handlers && s.handlers[pid].pc.Submit? && o.fault.NoFault?
    ensures Next(s, Step(pid, o)) == System(s.tables, s.handlers[pid := Submitted(s.handlers[pid], o.mode)],
                                            s.log + [Attestation(pid, s.handlers[pid], o.mode)])
  {
  }

  function Attested(t: Tables, h: Handler, mode: Mode): Handler
    requires Registered(t, h)
  {
    Submitted(WithAddress(t, h), mode)
  }

  /** The existence check, the contributor read and the submission. */
  lemma Attests(s: System, pid: nat, o: Oracle)
    requires pid in s.handlers && s.handlers[pid].pc.CheckExists? && o.fault.NoFault?
    requires var h := s.handlers[pid];
      FetchPayoutId(s.tables, h.job.program, h.job.merge.pr).None? && Registered(s.tables, h)
    ensures var h := s.handlers[pid];
      Run(s, Steps(pid, o, 3)) == System(s.tables, s.handlers[pid := Attested(s.tables, h, o.mode)],
                                         s.log + [Attestation(pid, h, o.mode)])
  {
    Checks(s, pid, o);
    OneMore(s, pid, o, 2);
    SubmitsNow(Run(s, Steps(pid, o, 2)), pid, o);
  }

  // ----- From the submission to the books -----

  /** The row a handler is about to save, with the amount its program's ratio gives now. */
  function RowOf(t: Tables, h: Handler, id: Uuid): PayoutRow
    requires h.job.program in t.programs && h.job.merge.pr <= I64_MAX && h.job.merge.points == 1
  {
    PayoutRow(id, h.job.program, h.job.merge.pr, h.job.merge.user, h.job.address, 1, t.programs[h.job.program].ratio, h.job.tag)
  }

  function Booked(t: Tables, row: PayoutRow): Tables
    requires row.program in t.programs
    requires var p := t.programs[row.program]; FitsI64(p.spent + row.amount) && 0 <= p.escrow && 0 <= row.amount
  {
    var p := t.programs[row.program];
    t.(payouts := t.payouts[(row.program, row.pr) := row],
       programs := t.programs[row.program := p.(spent := p.spent + row.amount, escrow := Max(p.escrow - row.amount, 0))])
  }

  /** Nothing stands in the way of saving and counting a handler's payout under a row id. */
  predicate CanBook(t: Tables, h: Handler, id: Uuid) {
    && h.job.program in t.programs && h.job.merge.pr <= I64_MAX && h.job.merge.points == 1
    && (h.job.program, h.job.merge.pr) !in t.payouts && !IdTaken(t, id)
    && var p := t.programs[h.job.program];
       p.ratio > 0 && p.escrow >= 0 && FitsI64(p.spent + p.ratio)
  }

  /** The handler and the tables once its row is saved. */
  function SavedAs(h: Handler, row: PayoutRow): Handler {
    Saved(h.(pc := Increment, job := h.job.(amount := row.amount)), row.id, true)
  }

  function WithRow(t: Tables, row: PayoutRow): Tables {
    t.(payouts := t.payouts[(row.program, row.pr) := row])
  }

  lemma Saves(s: System, pid: nat, o: Oracle)
    requires pid in s.handlers && s.handlers[pid].pc.LoadRatio? && o.fault.NoFault? && CanBook(s.tables, s.handlers[pid], o.uuid)
    ensures var row := RowOf(s.tables, s.handlers[pid], o.uuid);
      Run(s, Steps(pid, o, 2)) == System(WithRow(s.tables, row), s.handlers[pid := SavedAs(s.handlers[pid], row)], s.log)
  {
    var h := s.handlers[pid];
    var row := RowOf(s.tables, h, o.uuid);
    RewardFits(1, s.tables.programs[h.job.program].ratio);
    var h1 := h.(pc := SavePayout, job := h.job.(amount := row.amount));
    OneMore(s, pid, o, 0);
    Reads(s, pid, o, h1);
    OneMore(s, pid, o, 1);
    assert PayoutRowFor(o.uuid, h.job.program, h.job.merge, h.job.address, row.amount, h.job.tag) == Result.Ok(row);
    assert PayoutAllowed(s.tables, row);
  }

  function Settled(h: Handler, row: PayoutRow): Handler {
    var h2 := SavedAs(h, row);
    h2.(pc := RecordProcessed, marks := h2.marks.(counted := true))
  }

  lemma Counts(t: Tables, handlers: map<nat, Handler>, log: seq<Submission>, pid: nat, o: Oracle, h: Handler, row: PayoutRow)
    requires h.job.program == row.program && row.program in t.programs && o.fault.NoFault?
    requires var p := t.programs[row.program]; FitsI64(p.spent + row.amount) && 0 <= p.escrow && 0 <= row.amount
    ensures Next(System(WithRow(t, row), handlers[pid := SavedAs(h, row)], log), Step(pid, o))
         == System(Booked(t, row), handlers[pid := Settled(h, row)], log)
  {
    var h2 := SavedAs(h, row);
    assert IncrementSpent(WithRow(t, row), row.program, row.amount) == Result.Ok(Booked(t, row));
    assert handlers[pid := h2][pid := Settled(h, row)] == handlers[pid := Settled(h, row)];
  }

  /** The ratio read, the payout row and the increment. */
  lemma Settles(s: System, pid: nat, o: Oracle)
    requires pid in s.handlers && s.handlers[pid].pc.LoadRatio? && o.fault.NoFault? && CanBook(s.tables, s.handlers[pid], o.uuid)
    ensures var row := RowOf(s.tables, s.handlers[pid], o.uuid);
      Run(s, Steps(pid, o, 3)) == System(Booked(s.tables, row), s.handlers[pid := Settled(s.handlers[pid], row)], s.log)
  {
    var h := s.handlers[pid];
    Saves(s, pid, o);
    OneMore(s, pid, o, 2);
    Counts(s.tables, s.handlers, s.log, pid, o, h, RowOf(s.tables, h, o.uuid));
  }

  // ----- The whole way -----

  /** From its arrival to the existence check. */
  function Approach(pid: nat, r: Request, o: Oracle): seq<Action> {
    [Arrive(pid, r)] + Steps(pid, o, IntakeSteps(r)) + Steps(pid, o, 2)
  }

  lemma FindsNext(s: System, pid: nat, h: Handler, o: Oracle, program: Uuid)
    requires Consistent(s.tables) && h.pc.Resolve? && o.fault.NoFault? && ActiveFor(s.tables, h.job.merge.repo, program)
    ensures Run(Moved(s, pid, h), Steps(pid, o, 2)) == Moved(s, pid, Found(s.tables, h, program))
  {
    Finds(Moved(s, pid, h), pid, o, program);
    assert s.handlers[pid := h][pid := Found(s.tables, h, program)] == s.handlers[pid := Found(s.tables, h, program)];
  }

  lemma AttestsNext(s: System, pid: nat, h: Handler, o: Oracle)
    requires h.pc.CheckExists? && o.fault.NoFault? && Registered(s.tables, h)
    requires FetchPayoutId(s.tables, h.job.program, h.job.merge.pr).None?
    ensures Run(Moved(s, pid, h), Steps(pid, o, 3)) ==
      System(s.tables, s.handlers[pid := Attested(s.tables, h, o.mode)], s.log + [Attestation(pid, h, o.mode)])
  {
    Attests(Moved(s, pid, h), pid, o);
    assert s.handlers[pid := h][pid := Attested(s.tables, h, o.mode)] == s.handlers[pid := Attested(s.tables, h, o.mode)];
  }

  lemma SettlesNext(s: System, pid: nat, h: Handler, o: Oracle)
    requires h.pc.LoadRatio? && o.fault.NoFault? && CanBook(s.tables, h, o.uuid)
    ensures var row := RowOf(s.tables, h, o.uuid);
      Run(Moved(s, pid, h), Steps(pid, o, 3)) == System(Booked(s.tables, row), s.handlers[pid := Settled(h, row)], s.log)
  {
    var row := RowOf(s.tables, h, o.uuid);
    Settles(Moved(s, pid, h), pid, o);
    assert s.handlers[pid := h][pid := Settled(h, row)] == s.handlers[pid := Settled(h, row)];
  }

  /** A system with the request's delivery id claimed. */
  function ClaimedIn(s: System, r: Request): System {
    s.(tables := Claimed(s.tables, r))
  }

  lemma Approaches(s: System, pid: nat, r: Request, o: Oracle, program: Uuid)
    requires Consistent(s.tables) && pid !in s.handlers && IsMerge(r) && IsNew(s.tables, r) && o.fault.NoFault?
    requires ActiveFor(s.tables, MergeOf(r).repo, program)
    ensures Run(s, Approach(pid, r, o)) == Moved(ClaimedIn(s, r), pid, Found(s.tables, Taken(r), program))
  {
    Takes(s, pid, r, o);
    InsertEventKeeps(s.tables, EventRow(r.delivery, Processing));
    RunThen(s, [Arrive(pid, r)] + Steps(pid, o, IntakeSteps(r)), Steps(pid, o, 2));
    FindsNext(ClaimedIn(s, r), pid, Taken(r), o, program);
  }

  /** From its arrival to the last audit row. */
  function Journey(pid: nat, r: Request, o: Oracle): seq<Action> {
    Approach(pid, r, o) + Steps(pid, o, 3) + Steps(pid, o, 3)
  }

  /** What a delivery needs of the tables to be paid by a program, under a row id. */
  predicate CanBePaid(t: Tables, r: Request, program: Uuid, id: Uuid)
    requires IsMerge(r)
  {
    var m := MergeOf(r);
    && IsNew(t, r) && ActiveFor(t, m.repo, program) && (program, m.user) in t.contributors
    && m.pr <= I64_MAX && (program, m.pr) !in t.payouts && !IdTaken(t, id)
    && t.programs[program].ratio > 0 && t.programs[program].escrow >= 0
    && FitsI64(t.programs[program].spent + t.programs[program].ratio)
  }

  function PaidRow(t: Tables, r: Request, program: Uuid, o: Oracle): PayoutRow
    requires IsMerge(r) && CanBePaid(t, r, program, o.uuid)
  {
    var m, p := MergeOf(r), t.programs[program];
    PayoutRow(o.uuid, program, m.pr, m.user, t.contributors[(program, m.user)], 1, p.ratio, Tag(o.mode, AsU64(p.onChainId), m.pr))
  }

  /** The handler between its submission and its row. */
  function OnTheWay(t: Tables, r: Request, program: Uuid, o: Oracle): Handler
    requires IsMerge(r) && CanBePaid(t, r, program, o.uuid)
  {
    Attested(t, Found(t, Taken(r), program), o.mode)
  }

  lemma Submits(s: System, pid: nat, r: Request, o: Oracle, program: Uuid)
    requires Consistent(s.tables) && pid !in s.handlers && IsMerge(r) && CanBePaid(s.tables, r, program, o.uuid) && o.fault.NoFault?
    ensures Run(s, Approach(pid, r, o) + Steps(pid, o, 3)) ==
      System(Claimed(s.tables, r), s.handlers[pid := OnTheWay(s.tables, r, program, o)],
             s.log + [Attestation(pid, Found(s.tables, Taken(r), program), o.mode)])
  {
    Approaches(s, pid, r, o, program);
    RunThen(s, Approach(pid, r, o), Steps(pid, o, 3));
    AttestsNext(ClaimedIn(s, r), pid, Found(s.tables, Taken(r), program), o);
  }

  /** The delivery's attestation. */
  function Attesting(t: Tables, pid: nat, r: Request, program: Uuid, o: Oracle): Submission
    requires IsMerge(r) && program in t.programs
  {
    var m, onChain := MergeOf(r), AsU64(t.programs[program].onChainId);
    Submission(pid, r.delivery, o.mode, onChain, m.user, m.pr, 1, Tag(o.mode, onChain, m.pr))
  }

  /**
   A genuine delivery that can be paid, running alone, is submitted once, saved as its payout row
   and counted, and comes to its last audit row.
   */
  lemma PaidAlone(s: System, pid: nat, r: Request, o: Oracle, program: Uuid)
    requires Consistent(s.tables) && pid !in s.handlers && IsMerge(r) && CanBePaid(s.tables, r, program, o.uuid) && o.fault.NoFault?
    ensures var row := PaidRow(s.tables, r, program, o);
      Run(s, Journey(pid, r, o)) ==
        System(Booked(Claimed(s.tables, r), row), s.handlers[pid := Settled(OnTheWay(s.tables, r, program, o), row)],
               s.log + [Attesting(s.tables, pid, r, program, o)])
  {
    Submits(s, pid, r, o, program);
    RunThen(s, Approach(pid, r, o) + Steps(pid, o, 3), Steps(pid, o, 3));
    var s1 := ClaimedIn(s, r).(log := s.log + [Attesting(s.tables, pid, r, program, o)]);
    SettlesNext(s1, pid, OnTheWay(s.tables, r, program, o), o);
  }

  // ----- An example -----

  const OWNER: Text := [71]
  const REPO: Text := [97, SLASH, 98]
  const LOGIN: Text := [99]
  const BRANCH: Text := [109]

  function ExampleStart(): System {
    var row := ProgramRow(1, REPO, OWNER, 5, 100, None, 0, RowActive);
    System(Tables(map[1 := row], map[(1, LOGIN) := OWNER], map[], []), map[], [])
  }

  function ExampleRequest(delivery: Option<Text>): Request {
    Request(true, true, delivery, PullRequest(PrEvent(CLOSED, 101, true, LOGIN, BRANCH, REPO, BRANCH)))
  }

  lemma ExampleCanBePaid(delivery: Option<Text>, id: Uuid)
    ensures Initial(ExampleStart()) && IsMerge(ExampleRequest(delivery))
    ensures CanBePaid(ExampleStart().tables, ExampleRequest(delivery), 1, id)
  {
  }

  /** A run from an initial state whose handler comes to its last audit row with a delivery id. */
  lemma ReachesLastAudit(delivery: Text)
    ensures var o := Oracle(NoFault, 7, Simulated);
      var s' := Run(ExampleStart(), Journey(0, ExampleRequest(Some(delivery)), o));
      && Initial(ExampleStart()) && 0 in s'.handlers && s'.handlers[0].pc.RecordProcessed?
      && s'.handlers[0].request.delivery == Some(delivery) && |s'.tables.payouts| == 1
  {
    var r, o := ExampleRequest(Some(delivery)), Oracle(NoFault, 7, Simulated);
    ExampleCanBePaid(Some(delivery), 7);
    PaidAlone(ExampleStart(), 0, r, o, 1);
  }
}
