/**
 The gateway as it runs: statements that update the tables in place, and handlers that execute
 one statement at a time. Every method does what the state machine of `GatewayProtocol` says.
 */
module GatewayService {
  import opened Containers
  import opened GatewayProtocol
  import opened GatewayTables
  import opened Integers
  import opened RowEncodings
  import opened Slugs

  class Database {
    var programs: map<Uuid, ProgramRow>
    var contributors: map<(Uuid, Text), Text>
    var payouts: map<(Uuid, I64), PayoutRow>
    var events: seq<EventRow>

    function State(): Tables
      reads this
    {
      Tables(programs, contributors, payouts, events)
    }

    constructor ()
      ensures State() == Tables(map[], map[], map[], [])
    {
      programs, contributors, payouts, events := map[], map[], map[], [];
    }

    method PersistWebhookEvent(delivery: Option<Text>, status: EventStatus, fault: Fault)
      returns (took: bool, error: Option<ServiceError>)
      modifies this`events
      ensures Written(State(), took, error) == Write(old(State()), InsertEvent(old(State()), EventRow(delivery, status)), fault)
    {
      if delivery.Some? && exists e :: e in events && e.delivery == Some(delivery.value) {
        return false, Some(DatabaseError);
      }
      if fault.LostBefore? {
        return false, Some(DatabaseError);
      }
      events := events + [EventRow(delivery, status)];
      return true, if fault.LostAfter? then Some(DatabaseError) else None;
    }

    method ClaimDeliveryId(delivery: Text, fault: Fault) returns (took: bool, error: Option<ServiceError>)
      modifies this`events
      ensures Written(State(), took, error) == Write(old(State()), ClaimDelivery(old(State()), delivery), fault)
    {
      took, error := PersistWebhookEvent(Some(delivery), Processing, fault);
      if !took && fault.NoFault? {
        error := Some(Conflict);
      }
    }

    method FindProgram(repo: Text) returns (r: Result<Uuid>)
      requires Consistent(State())
      ensures r == ResolveProgram(State(), repo)
    {
      if id :| id in programs && programs[id].repo == repo && programs[id].status == RowActive {
        assert ActiveFor(State(), repo, id);
        return Result.Ok(id);
      }
      assert forall id :: !ActiveFor(State(), repo, id);
      return Err(NotFound);
    }

    method SavePayoutRow(id: Uuid, job: Job, fault: Fault) returns (took: bool, error: Option<ServiceError>)
      modifies this`payouts
      ensures Written(State(), took, error) ==
        Write(old(State()), PersistPayout(old(State()), id, job.program, job.merge, job.address, job.amount, job.tag), fault)
    {
      if !FitsI64(job.amount) || !FitsI64(job.merge.pr) {
        return false, Some(Internal);
      }
      var row := PayoutRow(id, job.program, job.merge.pr, job.merge.user, job.address, PointsColumn(job.merge.points),
                           job.amount, job.tag);
      if job.program !in programs || (job.program, row.pr) in payouts
         || (exists k :: k in payouts && payouts[k].id == id) || row.points <= 0 || row.amount <= 0 {
        return false, Some(if fault.NoFault? then Conflict else DatabaseError);
      }
      if fault.LostBefore? {
        return false, Some(DatabaseError);
      }
      payouts := payouts[(job.program, row.pr) := row];
      return true, if fault.LostAfter? then Some(DatabaseError) else None;
    }

    method IncrementMilestoneSpent(id: Uuid, amount: int, fault: Fault) returns (took: bool, error: Option<ServiceError>)
      modifies this`programs
      ensures Written(State(), took, error) == Write(old(State()), IncrementSpent(old(State()), id, amount), fault)
    {
      if !FitsI64(amount) {
        return false, Some(Internal);
      }
      if id in programs {
        var p := programs[id];
        if !FitsI64(p.spent + amount) || !FitsI64(p.escrow - amount) || fault.LostBefore? {
          return false, Some(DatabaseError);
        }
        programs := programs[id := p.(spent := p.spent + amount, escrow := if p.escrow < amount then 0 else p.escrow - amount)];
      } else if fault.LostBefore? {
        return false, Some(DatabaseError);
      }
      return true, if fault.LostAfter? then Some(DatabaseError) else None;
    }

    method CreateProgram(id: Uuid, onChainId: U64, repo: Text, maintainer: Text, ratio: I64, cap: Option<I64>)
      returns (r: Result<Uuid>)
      modifies this`programs
      ensures match AdminCreate(old(State()), id, onChainId, repo, maintainer, ratio, cap) {
        case Ok(t) => State() == t && r == Result.Ok(id)
        case Err(e) => State() == old(State()) && r == Err(e)
      }
    {
      if !ValidGitHubRepo(repo) {
        return Err(Validation);
      }
      if ratio <= 0 {
        return Err(Validation);
      }
      if !ValidStellarAddress(maintainer) {
        return Err(Validation);
      }
      if id in programs || exists k :: k in programs && (programs[k].onChainId == ClampU64(onChainId) || programs[k].repo == repo) {
        return Err(Conflict);
      }
      programs := programs[id := ProgramRow(ClampU64(onChainId), repo, maintainer, ratio, 0, cap, 0, RowActive)];
      return Result.Ok(id);
    }

    method SetStatus(id: Uuid, from: RowStatus, to: RowStatus) returns (r: Result<()>)
      modifies this`programs
      ensures match AdminSetStatus(old(State()), id, from, to) {
        case Ok(t) => State() == t && r == Result.Ok(())
        case Err(e) => State() == old(State()) && r == Err(e)
      }
    {
      var updated := 0;
      if id in programs && programs[id].status == from {
        programs := programs[id := programs[id].(status := to)];
        updated := 1;
      }
      if updated == 0 {
        return Err(NotFound);
      }
      return Result.Ok(());
    }

    method UpdateRatio(id: Uuid, ratio: I64) returns (r: Result<()>)
      modifies this`programs
      ensures match AdminSetRatio(old(State()), id, ratio) {
        case Ok(t) => State() == t && r == Result.Ok(())
        case Err(e) => State() == old(State()) && r == Err(e)
      }
    {
      if ratio <= 0 {
        return Err(Validation);
      }
      if id !in programs {
        return Err(NotFound);
      }
      programs := programs[id := programs[id].(ratio := ratio)];
      return Result.Ok(());
    }

    method RegisterContributor(id: Uuid, user: Text, address: Text) returns (r: Result<()>)
      modifies this`contributors
      ensures match AdminRegister(old(State()), id, user, address) {
        case Ok(t) => State() == t && r == Result.Ok(())
        case Err(e) => State() == old(State()) && r == Err(e)
      }
    {
      if user == [] || address == [] {
        return Err(Validation);
      }
      if !ValidStellarAddress(address) {
        return Err(Validation);
      }
      if id !in programs {
        return Err(NotFound);
      }
      if (id, user) in contributors {
        return Err(Conflict);
      }
      contributors := contributors[(id, user) := address];
      return Result.Ok(());
    }
  }

  class Gateway {
    const db: Database
    var handlers: map<nat, Handler>
    var log: seq<Submission>

    function State(): System
      reads this, db
    {
      System(db.State(), handlers, log)
    }

    constructor (db: Database)
      ensures this.db == db && handlers == map[] && log == []
    {
      this.db := db;
      handlers, log := map[], [];
    }

    /** Delivery intake: signature, duplicate check, claim. */
    method Intake(h: Handler, o: Oracle) returns (h': Handler)
      requires h.pc.Start? || h.pc.SeenCheck? || h.pc.Claim?
      modifies db
      ensures var t := old(db.State());
        var w := Write(t, Statement(t, h, o), o.fault);
        db.State() == w.tables && h' == Continue(t, h, o, w)
    {
      var took, error;
      match h.pc
      case Start =>
        if !h.request.signed {
          took, error := db.PersistWebhookEvent(h.request.delivery, Rejected, o.fault);
          return h.(pc := Done(Refused));
        }
        return h.(pc := if h.request.delivery.Some? then SeenCheck else Decode);
      case SeenCheck =>
        if h.request.delivery.Some? {
          var seen := o.fault.NoFault? && exists e :: e in db.events && e.delivery == Some(h.request.delivery.value);
          if seen {
            return h.(pc := Done(Duplicate));
          }
        }
        return h.(pc := Claim);
      case Claim =>
        if h.request.delivery.None? {
          return h.(pc := Decode);
        }
        took, error := db.ClaimDeliveryId(h.request.delivery.value, o.fault);
        h' := h.(marks := h.marks.(claimed := took));
        return if error.Some? then h'.(pc := Done(FailedReply(error.value))) else h'.(pc := Decode);
    }

    /** The reads of `process_merge`. */
    method ReadNext(h: Handler, o: Oracle) returns (h': Handler)
      requires Consistent(db.State())
      requires h.pc.Resolve? || h.pc.CheckStatus? || h.pc.CheckExists? || h.pc.FetchId? || h.pc.FindContributor? || h.pc.LoadRatio?
      ensures h' == Continue(db.State(), h, o, Write(db.State(), Statement(db.State(), h, o), o.fault))
    {
      if !o.fault.NoFault? {
        return Fail(h, DatabaseError);
      }
      var job := h.job;
      match h.pc
      case Resolve =>
        var found := db.FindProgram(job.merge.repo);
        if found.Err? {
          return Fail(h, found.error);
        }
        job := job.(program := found.value, onChain := AsU64(db.programs[found.value].onChainId));
        return h.(pc := CheckStatus, job := job);
      case CheckStatus =>
        if job.program !in db.programs {
          return Fail(h, NotFound);
        }
        if db.programs[job.program].status == RowPaused {
          return Fail(h, Validation);
        }
        return h.(pc := CheckExists);
      case CheckExists =>
        var existing := FetchPayoutId(db.State(), job.program, job.merge.pr);
        return h.(pc := if existing.Some? then FetchId else FindContributor);
      case FetchId =>
        return h.(pc := Done(AlreadyProcessed(FetchPayoutId(db.State(), job.program, job.merge.pr))));
      case FindContributor =>
        if (job.program, job.merge.user) !in db.contributors {
          return Fail(h, NotFound);
        }
        return h.(pc := Submit, job := job.(address := db.contributors[(job.program, job.merge.user)]));
      case LoadRatio =>
        if job.program !in db.programs {
          return Fail(h, NotFound);
        }
        return h.(pc := SavePayout, job := job.(amount := RewardAmount(job.merge.points, db.programs[job.program].ratio)));
    }

    /** The writes after the submission, and the audit row of an ignored or failed delivery. */
    method WriteNext(h: Handler, o: Oracle) returns (h': Handler)
      requires h.pc.SavePayout? || h.pc.Increment? || h.pc.RecordProcessed? || h.pc.Audit?
      modifies db
      ensures var t := old(db.State());
        var w := Write(t, Statement(t, h, o), o.fault);
        db.State() == w.tables && h' == Continue(t, h, o, w)
    {
      var took, error;
      match h.pc
      case SavePayout =>
        took, error := db.SavePayoutRow(o.uuid, h.job, o.fault);
        h' := Saved(h, o.uuid, took);
        return if error.Some? then Fail(h', error.value) else h'.(pc := Increment);
      case Increment =>
        took, error := db.IncrementMilestoneSpent(h.job.program, h.job.amount, o.fault);
        h' := h.(marks := h.marks.(counted := took));
        return if error.Some? then Fail(h', error.value) else h'.(pc := RecordProcessed);
      case RecordProcessed =>
        took, error := db.PersistWebhookEvent(h.request.delivery, Processed, o.fault);
        return if error.Some? then Fail(h, error.value) else h.(pc := Done(ProcessedReply(h.job.payoutId)));
      case Audit(reply, status) =>
        took, error := db.PersistWebhookEvent(h.request.delivery, status, o.fault);
        return h.(pc := Done(reply));
    }

    method Receive(pid: nat, request: Request)
      requires pid !in handlers
      modifies this`handlers
      ensures State() == Next(old(State()), Arrive(pid, request))
    {
      handlers := handlers[pid := NewHandler(request)];
    }

    /** Handler `pid` executes up to its next await. */
    method StepHandler(pid: nat, o: Oracle)
      requires pid in handlers && Consistent(db.State())
      modifies this, db
      ensures State() == Next(old(State()), Step(pid, o))
    {
      var h := handlers[pid];
      if h.pc.Start? || h.pc.SeenCheck? || h.pc.Claim? {
        h := Intake(h, o);
      } else if h.pc.Decode? {
        h := DecodeRequest(h);
      } else if h.pc.Submit? {
        log := log + [Attestation(pid, h, o.mode)];
        h := Submitted(h, o.mode);
      } else if h.pc.SavePayout? || h.pc.Increment? || h.pc.RecordProcessed? || h.pc.Audit? {
        h := WriteNext(h, o);
      } else if !h.pc.Done? && !h.pc.Crashed? {
        h := ReadNext(h, o);
      }
      handlers := handlers[pid := h];
    }
  }
}
