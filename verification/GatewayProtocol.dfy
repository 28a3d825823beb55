/**
 Webhook handlers as state machines over the shared tables. Between two database statements of
 a handler anything may happen: other handlers, admin calls, or its own crash. Any statement
 may be lost before or after it took effect.
 */
module GatewayProtocol {
  import opened Containers
  import opened GatewayTables
  import opened Integers
  import opened RowEncodings
  import opened Slugs
  import opened Tags

  // ----- Requests -----

  datatype PrEvent = PrEvent(action: Text, number: U64, merged: bool, login: Text, baseRef: Text,
                             repo: Text, defaultBranch: Text)

  datatype Body = Malformed | OtherShape | PullRequest(event: PrEvent)

  /** A delivery; whether its signature verifies is not decided here. */
  datatype Request = Request(signed: bool, isPullRequest: bool, delivery: Option<Text>, body: Body)

  /** `closed` */
  const CLOSED: Text := [99, 108, 111, 115, 101, 100]

  /** Only merges into the default branch count, and each is worth one point. */
  function ParseMergeEvent(e: PrEvent): Result<Merge> {
    if e.action != CLOSED || !e.merged || e.baseRef != e.defaultBranch then Err(Validation)
    else Ok(Merge(e.repo, e.login, e.number, 1))
  }

  // ----- Handlers -----

  datatype Reply =
    | Refused
    | Duplicate
    | IgnoredReply
    | AlreadyProcessed(existing: Option<Uuid>)
    | ProcessedReply(payout: Uuid)
    | FailedReply(error: ServiceError)

  /** The next statement of a handler. */
  datatype Pc =
    | Start
    | SeenCheck
    | Claim
    | Decode
    | Resolve
    | CheckStatus
    | CheckExists
    | FetchId
    | FindContributor
    | Submit
    | LoadRatio
    | SavePayout
    | Increment
    | RecordProcessed
    | Audit(reply: Reply, status: EventStatus)
    | Done(answer: Reply)
    | Crashed

  /** What a handler knows about the merge it is processing. */
  datatype Job = Job(
    merge: Merge,
    program: Uuid,
    onChain: U64,
    address: Text,
    tag: string,
    amount: int,
    payoutId: Uuid)

  /** Which effects of a handler have happened: its claim, its submission, its payout row, its increment. */
  datatype Marks = Marks(claimed: bool, submitted: bool, saved: bool, counted: bool)

  datatype Handler = Handler(request: Request, pc: Pc, job: Job, marks: Marks)

  function NewHandler(request: Request): Handler {
    Handler(request, Start, Job(Merge([], [], 0, 0), 0, 0, [], "", 0, 0), Marks(false, false, false, false))
  }

  /** One attestation handed to the chain. */
  datatype Submission = Submission(handler: nat, delivery: Option<Text>, mode: Mode, onChain: U64, user: Text,
                                   pr: U64, points: U32, tag: string)

  datatype Fault = NoFault | LostBefore | LostAfter

  /** What a step does not decide itself: faults, a fresh uuid, the submission mode. */
  datatype Oracle = Oracle(fault: Fault, uuid: Uuid, mode: Mode)

  /** The effect of a statement on the tables, and the error the handler sees. */
  datatype Written = Written(tables: Tables, took: bool, error: Option<ServiceError>)

  /** A failed conversion of a parameter ends the call before the statement is sent, so no fault hides it. */
  function Write(t: Tables, statement: Result<Tables>, fault: Fault): Written {
    if statement.Err? then
      Written(t, false, Some(if fault.NoFault? || statement.error == Internal then statement.error else DatabaseError))
    else match fault {
      case NoFault => Written(statement.value, true, None)
      case LostBefore => Written(t, false, Some(DatabaseError))
      case LostAfter => Written(statement.value, true, Some(DatabaseError))
    }
  }

  /** `process_merge` ends with an error: validation errors are ignored, others reported. */
  function Fail(h: Handler, e: ServiceError): Handler {
    if e == Validation then h.(pc := Audit(IgnoredReply, Ignored))
    else h.(pc := Audit(FailedReply(e), Failed))
  }

  function DecodeRequest(h: Handler): Handler {
    if h.request.body.Malformed? then h.(pc := Done(FailedReply(WebhookError)))
    else if !h.request.isPullRequest then h.(pc := Audit(IgnoredReply, Ignored))
    else if h.request.body.OtherShape? then h.(pc := Done(FailedReply(WebhookError)))
    else
      var m := ParseMergeEvent(h.request.body.event);
      if m.Ok? then h.(pc := Resolve, job := h.job.(merge := m.value)) else Fail(h, m.error)
  }

  /** The statement a handler runs next; the tables themselves when it only reads or computes. */
  function Statement(t: Tables, h: Handler, o: Oracle): Result<Tables> {
    match h.pc
    case Start => if h.request.signed then Result.Ok(t) else InsertEvent(t, EventRow(h.request.delivery, Rejected))
    case Claim => if h.request.delivery.Some? then ClaimDelivery(t, h.request.delivery.value) else Result.Ok(t)
    case SavePayout => PersistPayout(t, o.uuid, h.job.program, h.job.merge, h.job.address, h.job.amount, h.job.tag)
    case Increment => IncrementSpent(t, h.job.program, h.job.amount)
    case RecordProcessed => InsertEvent(t, EventRow(h.request.delivery, Processed))
    case Audit(_, status) => InsertEvent(t, EventRow(h.request.delivery, status))
    case _ => Result.Ok(t)
  }

  function Submitted(h: Handler, mode: Mode): Handler {
    h.(pc := LoadRatio, job := h.job.(tag := Tag(mode, h.job.onChain, h.job.merge.pr)),
       marks := h.marks.(submitted := true))
  }

  function Saved(h: Handler, id: Uuid, took: bool): Handler {
    h.(job := h.job.(payoutId := id), marks := h.marks.(saved := took))
  }

  /** The handler after its statement, which read `t` or had the effect `w`. */
  ghost function Continue(t: Tables, h: Handler, o: Oracle, w: Written): Handler {
    match h.pc
    case Start =>
      if !h.request.signed then h.(pc := Done(Refused))
      else h.(pc := if h.request.delivery.Some? then SeenCheck else Decode)
    case SeenCheck =>
      if h.request.delivery.Some? && w.error.None? && DeliverySeen(t, h.request.delivery.value)
      then h.(pc := Done(Duplicate))
      else h.(pc := Claim)
    case Claim =>
      if h.request.delivery.None? then h.(pc := Decode)
      else if w.error.Some? then h.(pc := Done(FailedReply(w.error.value)), marks := h.marks.(claimed := w.took))
      else h.(pc := Decode, marks := h.marks.(claimed := w.took))
    case Decode => DecodeRequest(h)
    case Resolve =>
      if w.error.Some? then Fail(h, w.error.value)
      else
        var found := ResolveProgram(t, h.job.merge.repo);
        if found.Err? then Fail(h, found.error)
        else h.(pc := CheckStatus, job := h.job.(program := found.value, onChain := AsU64(t.programs[found.value].onChainId)))
    case CheckStatus =>
      if w.error.Some? then Fail(h, w.error.value)
      else if h.job.program !in t.programs then Fail(h, NotFound)
      else if t.programs[h.job.program].status == RowPaused then Fail(h, Validation)
      else h.(pc := CheckExists)
    case CheckExists =>
      if w.error.Some? then Fail(h, w.error.value)
      else if FetchPayoutId(t, h.job.program, h.job.merge.pr).Some? then h.(pc := FetchId)
      else h.(pc := FindContributor)
    case FetchId =>
      if w.error.Some? then Fail(h, w.error.value)
      else h.(pc := Done(AlreadyProcessed(FetchPayoutId(t, h.job.program, h.job.merge.pr))))
    case FindContributor =>
      if w.error.Some? then Fail(h, w.error.value)
      else if (h.job.program, h.job.merge.user) !in t.contributors then Fail(h, NotFound)
      else h.(pc := Submit, job := h.job.(address := t.contributors[(h.job.program, h.job.merge.user)]))
    case Submit => Submitted(h, o.mode)
    case LoadRatio =>
      if w.error.Some? then Fail(h, w.error.value)
      else if h.job.program !in t.programs then Fail(h, NotFound)
      else h.(pc := SavePayout, job := h.job.(amount := RewardAmount(h.job.merge.points, t.programs[h.job.program].ratio)))
    case SavePayout =>
      var h' := Saved(h, o.uuid, w.took);
      if w.error.Some? then Fail(h', w.error.value) else h'.(pc := Increment)
    case Increment =>
      var h' := h.(marks := h.marks.(counted := w.took));
      if w.error.Some? then Fail(h', w.error.value) else h'.(pc := RecordProcessed)
    case RecordProcessed =>
      if w.error.Some? then Fail(h, w.error.value) else h.(pc := Done(ProcessedReply(h.job.payoutId)))
    case Audit(reply, _) => h.(pc := Done(reply))
    case Done(_) => h
    case Crashed => h
  }

  /** The attestation a handler submits: built from the row it resolved and the event it parsed. */
  function Attestation(pid: nat, h: Handler, mode: Mode): Submission {
    Submission(pid, h.request.delivery, mode, h.job.onChain, h.job.merge.user, h.job.merge.pr, h.job.merge.points,
               Tag(mode, h.job.onChain, h.job.merge.pr))
  }

  // ----- The whole system -----

  datatype System = System(tables: Tables, handlers: map<nat, Handler>, log: seq<Submission>)

  datatype Action =
    | Arrive(pid: nat, request: Request)
    | Step(pid: nat, oracle: Oracle)
    | Crash(pid: nat)
    | Create(id: Uuid, onChainId: U64, repo: Text, maintainer: Text, ratio: I64, cap: Option<I64>)
    | Pause(id: Uuid)
    | Resume(id: Uuid)
    | SetRatio(id: Uuid, ratio: I64)
    | Register(id: Uuid, user: Text, address: Text)

  function Admin(s: System, r: Result<Tables>): System {
    if r.Ok? then s.(tables := r.value) else s
  }

  ghost function Next(s: System, a: Action): System {
    match a
    case Arrive(pid, request) =>
      if pid in s.handlers then s else s.(handlers := s.handlers[pid := NewHandler(request)])
    case Step(pid, o) =>
      if pid !in s.handlers then s
      else
        var h := s.handlers[pid];
        var w := Write(s.tables, Statement(s.tables, h, o), o.fault);
        System(w.tables, s.handlers[pid := Continue(s.tables, h, o, w)],
               if h.pc.Submit? then s.log + [Attestation(pid, h, o.mode)] else s.log)
    case Crash(pid) =>
      if pid !in s.handlers then s else s.(handlers := s.handlers[pid := s.handlers[pid].(pc := Crashed)])
    case Create(id, onChainId, repo, maintainer, ratio, cap) =>
      Admin(s, AdminCreate(s.tables, id, onChainId, repo, maintainer, ratio, cap))
    case Pause(id) => Admin(s, AdminSetStatus(s.tables, id, RowActive, RowPaused))
    case Resume(id) => Admin(s, AdminSetStatus(s.tables, id, RowPaused, RowActive))
    case SetRatio(id, ratio) => Admin(s, AdminSetRatio(s.tables, id, ratio))
    case Register(id, user, address) => Admin(s, AdminRegister(s.tables, id, user, address))
  }

  ghost function Run(s: System, actions: seq<Action>): System {
    if actions == [] then s else Next(Run(s, actions[..|actions| - 1]), actions[|actions| - 1])
  }

  /** No handlers, no submissions, no payouts; programs may start with any balance but nothing spent. */
  ghost predicate Initial(s: System) {
    && s.handlers == map[] && s.log == [] && s.tables.payouts == map[]
    && Consistent(s.tables)
    && forall p :: p in s.tables.programs ==> s.tables.programs[p].spent == 0
  }
}
