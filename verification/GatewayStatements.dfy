/**
 What each database statement and each admin call does: when it is accepted, with what it is refused
 otherwise, and what it leaves in the tables, row by row; and where the entries of the tables come from.
 */
module GatewayStatements {
  import opened Containers
  import opened GatewayProtocol
  import opened GatewayRuns
  import opened GatewayTables
  import opened Integers
  import opened Slugs

  // ----- Statements of the gateway -----

  predicate Unrecorded(t: Tables, delivery: Option<Text>) {
    delivery.Some? ==> forall e :: e in t.events ==> e.delivery != delivery
  }

  lemma EventIsInserted(t: Tables, row: EventRow)
    ensures var r := InsertEvent(t, row);
      && (r.Ok? <==> Unrecorded(t, row.delivery))
      && (r.Ok? ==> r.value == Tables(t.programs, t.contributors, t.payouts, t.events + [row]))
      && (r.Err? ==> r.error == DatabaseError)
  {
  }

  lemma DeliveryIsClaimed(t: Tables, delivery: Text)
    ensures var r := ClaimDelivery(t, delivery);
      && (r.Ok? <==> Unrecorded(t, Some(delivery)))
      && (r.Ok? ==> r.value == Tables(t.programs, t.contributors, t.payouts, t.events + [EventRow(Some(delivery), Processing)]))
      && (r.Err? ==> r.error == Conflict)
  {
  }

  /** The read looks for the PR's row; PR numbers beyond a BIGINT share the last one. */
  lemma PayoutIsFound(t: Tables, program: Uuid, pr: U64, id: Uuid)
    ensures FetchPayoutId(t, program, pr) == Some(id) <==>
      exists k :: k in t.payouts && k.0 == program && (k.1 == pr || (pr > I64_MAX && k.1 == I64_MAX)) && t.payouts[k].id == id
  {
  }

  lemma PayoutIsSaved(t: Tables, id: Uuid, program: Uuid, m: Merge, address: Text, amount: int, tag: string)
    ensures var r := PersistPayout(t, id, program, m, address, amount, tag);
      && (r == Err(Internal) <==> !FitsI64(amount) || m.pr > I64_MAX)
      && (r == Err(Conflict) <==>
           && FitsI64(amount) && m.pr <= I64_MAX
           && (program !in t.programs || (program, m.pr) in t.payouts || IdTaken(t, id) || m.points == 0 || amount <= 0))
      && (r.Ok? ==>
           && r.value == Tables(t.programs, t.contributors, r.value.payouts, t.events)
           && r.value.payouts.Keys == t.payouts.Keys + {(program, m.pr)}
           && forall k :: k in t.payouts ==> r.value.payouts[k] == t.payouts[k])
      && (r.Err? ==> r.error == Internal || r.error == Conflict)
  {
  }

  lemma TotalsAreUpdated(t: Tables, id: Uuid, amount: int)
    requires id in t.programs
    ensures var r, p := IncrementSpent(t, id, amount), t.programs[id];
      && (r == Err(Internal) <==> !FitsI64(amount))
      && (r == Err(DatabaseError) <==> FitsI64(amount) && !(FitsI64(p.spent + amount) && FitsI64(p.escrow - amount)))
      && (r.Err? ==> r.error == Internal || r.error == DatabaseError)
      && (r.Ok? ==>
           && r.value == Tables(r.value.programs, t.contributors, t.payouts, t.events)
           && r.value.programs.Keys == t.programs.Keys
           && (forall k :: k in t.programs && k != id ==> r.value.programs[k] == t.programs[k])
           && var p' := r.value.programs[id];
           && p' == ProgramRow(p.onChainId, p.repo, p.maintainer, p.ratio, p'.escrow, p.cap, p.spent + amount, p.status)
           && (amount <= p.escrow ==> p'.escrow + amount == p.escrow) && (amount > p.escrow ==> p'.escrow == 0))
  {
  }

  /**
   What a fault does to a statement: lost before, it has no effect; lost after, it has its effect
   unseen. The caller sees success only without a fault, and its own error then, or if the statement
   was never sent.
   */
  lemma FaultsDecide(t: Tables, r: Result<Tables>, fault: Fault)
    ensures var w := Write(t, r, fault);
      && (w.took <==> r.Ok? && !fault.LostBefore?)
      && w.tables == (if w.took then r.value else t)
      && (w.error.None? <==> r.Ok? && fault.NoFault?)
      && (r.Err? && (fault.NoFault? || r.error == Internal) ==> w.error == Some(r.error))
      && (!fault.NoFault? && r != Err(Internal) ==> w.error == Some(DatabaseError))
  {
  }

  // ----- Admin calls -----

  predicate IsBase32(c: Byte) {
    'A' as int <= c as int <= 'Z' as int || '2' as int <= c as int <= '7' as int
  }

  /** An address is accepted iff it is a `G` and fifty-five letters of the base-32 alphabet. */
  lemma AddressIsAccepted(first: Byte, rest: Text)
    ensures ValidStellarAddress([first] + rest) <==>
      first as int == 'G' as int && |rest| == 55 && forall i :: 0 <= i < |rest| ==> IsBase32(rest[i])
    ensures !ValidStellarAddress([])
  {
    var a := [first] + rest;
    assert a[1..] == rest;
    assert forall i :: 0 <= i < |rest| ==> rest[i] == a[i + 1] && rest[i] in a;
    assert forall c :: c in a ==> c == first || c in rest;
  }

  predicate SlugFree(t: Tables, onChainId: U64, repo: Text) {
    forall k :: k in t.programs ==>
      t.programs[k].repo != repo && t.programs[k].onChainId != (if onChainId <= I64_MAX then onChainId else I64_MAX)
  }

  /** Only this program's row is new or different. */
  function WithProgram(s: System, id: Uuid, row: ProgramRow): System {
    s.(tables := s.tables.(programs := s.tables.programs[id := row]))
  }

  lemma ProgramIsCreated(s: System, id: Uuid, onChainId: U64, repo: Text, maintainer: Text, ratio: I64, cap: Option<I64>)
    ensures var r := AdminCreate(s.tables, id, onChainId, repo, maintainer, ratio, cap);
      var valid := ValidGitHubRepo(repo) && ratio > 0 && ValidStellarAddress(maintainer);
      && (r == Err(Validation) <==> !valid)
      && (r == Err(Conflict) <==> valid && (id in s.tables.programs || !SlugFree(s.tables, onChainId, repo)))
      && (r.Ok? <==> valid && id !in s.tables.programs && SlugFree(s.tables, onChainId, repo))
      && var s' := Next(s, Create(id, onChainId, repo, maintainer, ratio, cap));
      && (r.Err? ==> s' == s)
      && (r.Ok? ==>
           && id in s'.tables.programs
           && var p := s'.tables.programs[id];
           && s' == WithProgram(s, id, p)
           && p == ProgramRow(p.onChainId, repo, maintainer, ratio, 0, cap, 0, RowActive)
           && (onChainId <= I64_MAX ==> p.onChainId == onChainId))
  {
  }

  /** Pausing and resuming turn the status of an existing program, and change nothing else. */
  lemma StatusIsTurned(s: System, id: Uuid)
    ensures var found := id in s.tables.programs && s.tables.programs[id].status == RowActive;
      && AdminSetStatus(s.tables, id, RowActive, RowPaused).Ok? == found
      && (!found ==> AdminSetStatus(s.tables, id, RowActive, RowPaused) == Err(NotFound))
      && Next(s, Pause(id)) ==
           (if found then WithProgram(s, id, s.tables.programs[id].(status := RowPaused)) else s)
    ensures var found := id in s.tables.programs && s.tables.programs[id].status == RowPaused;
      && AdminSetStatus(s.tables, id, RowPaused, RowActive).Ok? == found
      && (!found ==> AdminSetStatus(s.tables, id, RowPaused, RowActive) == Err(NotFound))
      && Next(s, Resume(id)) ==
           (if found then WithProgram(s, id, s.tables.programs[id].(status := RowActive)) else s)
  {
  }

  lemma RatioIsSet(s: System, id: Uuid, ratio: I64)
    ensures var r := AdminSetRatio(s.tables, id, ratio);
      && (r.Ok? <==> ratio > 0 && id in s.tables.programs)
      && (r == Err(Validation) <==> ratio <= 0)
      && (r == Err(NotFound) <==> ratio > 0 && id !in s.tables.programs)
      && Next(s, SetRatio(id, ratio)) ==
           (if r.Ok? then WithProgram(s, id, s.tables.programs[id].(ratio := ratio)) else s)
  {
  }

  /** A registration stores the address it was given, once. */
  lemma ContributorIsRegistered(s: System, id: Uuid, user: Text, address: Text)
    ensures var r := AdminRegister(s.tables, id, user, address);
      var valid := user != [] && ValidStellarAddress(address);
      && (r == Err(Validation) <==> !valid)
      && (r == Err(NotFound) <==> valid && id !in s.tables.programs)
      && (r == Err(Conflict) <==> valid && id in s.tables.programs && (id, user) in s.tables.contributors)
      && (r.Ok? <==> valid && id in s.tables.programs && (id, user) !in s.tables.contributors)
      && Next(s, Register(id, user, address)) ==
           if r.Ok? then s.(tables := s.tables.(contributors := s.tables.contributors[(id, user) := address])) else s
  {
  }

  // ----- Where the addresses come from -----

  /** Every statement but the increment leaves programs and contributors alone. */
  lemma QuietStatement(t: Tables, h: Handler, o: Oracle)
    requires !h.pc.Increment? && Statement(t, h, o).Ok?
    ensures Statement(t, h, o).value.programs == t.programs && Statement(t, h, o).value.contributors == t.contributors
  {
  }

  lemma CountingStatement(t: Tables, h: Handler, o: Oracle, p: Uuid)
    requires h.pc.Increment? && Statement(t, h, o).Ok?
    ensures var t' := Statement(t, h, o).value;
      && t'.contributors == t.contributors && t'.programs.Keys == t.programs.Keys
      && (p in t.programs ==>
           t'.programs[p] == t.programs[p].(escrow := t'.programs[p].escrow, spent := t'.programs[p].spent))
  {
    if h.job.program in t.programs {
      TotalsAreUpdated(t, h.job.program, h.job.amount);
    }
  }

  /** A handler's step leaves all contributors and the terms of all programs. */
  lemma StepTerms(t: Tables, h: Handler, o: Oracle, p: Uuid)
    ensures var t' := Write(t, Statement(t, h, o), o.fault).tables;
      && t'.contributors == t.contributors
      && t'.programs.Keys == t.programs.Keys
      && (p in t.programs ==>
           t'.programs[p] == t.programs[p].(escrow := t'.programs[p].escrow, spent := t'.programs[p].spent))
  {
    FaultsDecide(t, Statement(t, h, o), o.fault);
    if Statement(t, h, o).Ok? {
      if h.pc.Increment? {
        CountingStatement(t, h, o, p);
      } else {
        QuietStatement(t, h, o);
      }
    }
  }

  /** The `n`-th action registers this address for this contributor, and is accepted. */
  ghost predicate RegisteredAt(s: System, actions: seq<Action>, n: nat, k: (Uuid, Text), address: Text) {
    && n < |actions| && actions[n] == Register(k.0, k.1, address)
    && k !in Run(s, actions[..n]).tables.contributors
    && AdminRegister(Run(s, actions[..n]).tables, k.0, k.1, address).Ok?
  }

  /** Only a registration adds a contributor. */
  lemma OthersKeepContributors(s: System, a: Action)
    requires !a.Register?
    ensures Next(s, a).tables.contributors == s.tables.contributors
  {
    if a.Step? && a.pid in s.handlers {
      StepTerms(s.tables, s.handlers[a.pid], a.oracle, 0);
    }
  }

  lemma NextContributors(s: System, a: Action, k: (Uuid, Text))
    requires k in Next(s, a).tables.contributors
    ensures k in s.tables.contributors ==> Next(s, a).tables.contributors[k] == s.tables.contributors[k]
    ensures k !in s.tables.contributors ==>
      a == Register(k.0, k.1, Next(s, a).tables.contributors[k]) && AdminRegister(s.tables, k.0, k.1, a.address).Ok?
  {
    if a.Register? {
      ContributorIsRegistered(s, a.id, a.user, a.address);
    } else {
      OthersKeepContributors(s, a);
    }
  }

  lemma RegisteredBefore(s: System, prefix: seq<Action>, a: Action, n: nat, k: (Uuid, Text), address: Text)
    requires RegisteredAt(s, prefix, n, k, address)
    ensures RegisteredAt(s, prefix + [a], n, k, address)
  {
    assert (prefix + [a])[..n] == prefix[..n];
  }

  lemma RegisteredNow(s: System, prefix: seq<Action>, k: (Uuid, Text), address: Text)
    requires k !in Run(s, prefix).tables.contributors && AdminRegister(Run(s, prefix).tables, k.0, k.1, address).Ok?
    ensures RegisteredAt(s, prefix + [Register(k.0, k.1, address)], |prefix|, k, address)
  {
    assert (prefix + [Register(k.0, k.1, address)])[..|prefix|] == prefix;
  }

  /** Every contributor's address was in the tables at the start, or is the one given when it was registered. */
  lemma {:induction false} AddressesWereGiven(s: System, actions: seq<Action>, k: (Uuid, Text))
    requires k in Run(s, actions).tables.contributors
    ensures var address := Run(s, actions).tables.contributors[k];
      || (k in s.tables.contributors && s.tables.contributors[k] == address)
      || exists n :: RegisteredAt(s, actions, n, k, address)
  {
    if actions != [] {
      var prefix, last := actions[..|actions| - 1], actions[|actions| - 1];
      var address := Run(s, actions).tables.contributors[k];
      assert actions == prefix + [last];
      NextContributors(Run(s, prefix), last, k);
      if k in Run(s, prefix).tables.contributors {
        AddressesWereGiven(s, prefix, k);
        if n: nat :| RegisteredAt(s, prefix, n, k, address) {
          RegisteredBefore(s, prefix, last, n, k, address);
        }
      } else {
        RegisteredNow(s, prefix, k, address);
      }
    }
  }

  /** So does every payout row pay to such an address. */
  lemma PayoutAddressesWereGiven(s: System, actions: seq<Action>, k: (Uuid, I64))
    requires Initial(s) && k in Run(s, actions).tables.payouts
    ensures var row := Run(s, actions).tables.payouts[k];
      var c := (row.program, row.user);
      || (c in s.tables.contributors && s.tables.contributors[c] == row.address)
      || exists n :: RegisteredAt(s, actions, n, c, row.address)
  {
    RowsAreBacked(s, actions, k);
    var row := Run(s, actions).tables.payouts[k];
    AddressesWereGiven(s, actions, (row.program, row.user));
  }

  // ----- Where the terms of a program come from -----

  /** The action creates the program. */
  predicate Creates(a: Action, p: Uuid) {
    a.Create? && a.id == p
  }

  lemma NextTerms(s: System, a: Action, p: Uuid)
    requires p in Next(s, a).tables.programs
    ensures var row' := Next(s, a).tables.programs[p];
      if p in s.tables.programs then
        var row := s.tables.programs[p];
        && row'.repo == row.repo && row'.maintainer == row.maintainer && row'.cap == row.cap && row'.onChainId == row.onChainId
        && (row'.ratio == row.ratio || a == SetRatio(p, row'.ratio))
        && (row'.status == row.status || a == Pause(p) || a == Resume(p))
        && (a == Pause(p) ==> row'.status == RowPaused) && (a == Resume(p) ==> row'.status == RowActive)
      else
        && Creates(a, p) && row'.repo == a.repo && row'.maintainer == a.maintainer && row'.cap == a.cap && row'.ratio == a.ratio
        && row'.status == RowActive
  {
    match a
    case Arrive(_, _) =>
    case Step(pid, o) => if pid in s.handlers { StepTerms(s.tables, s.handlers[pid], o, p); }
    case Crash(_) =>
    case Create(id, onChainId, repo, maintainer, ratio, cap) =>
      ProgramIsCreated(s, id, onChainId, repo, maintainer, ratio, cap);
    case Pause(id) => StatusIsTurned(s, id);
    case Resume(id) => StatusIsTurned(s, id);
    case SetRatio(id, ratio) => RatioIsSet(s, id, ratio);
    case Register(id, user, address) => ContributorIsRegistered(s, id, user, address);
  }

  /**
   The terms of a program in any state of any run: repository, maintainer, cap and ratio were there at
   the start or were given at its creation, the ratio unless it was set since; and after a pause or a
   resume the status is what was asked for.
   */
  lemma {:induction false} TermsWereGiven(s: System, actions: seq<Action>, p: Uuid)
    requires p in Run(s, actions).tables.programs
    ensures var row := Run(s, actions).tables.programs[p];
      && ((p in s.tables.programs && row.repo == s.tables.programs[p].repo && row.maintainer == s.tables.programs[p].maintainer
           && row.cap == s.tables.programs[p].cap)
          || exists a :: a in actions && Creates(a, p) && row.repo == a.repo && row.maintainer == a.maintainer && row.cap == a.cap)
      && ((p in s.tables.programs && row.ratio == s.tables.programs[p].ratio)
          || SetRatio(p, row.ratio) in actions
          || exists a :: a in actions && Creates(a, p) && a.ratio == row.ratio)
  {
    if actions != [] {
      var prefix, last := actions[..|actions| - 1], actions[|actions| - 1];
      assert actions == prefix + [last];
      NextTerms(Run(s, prefix), last, p);
      if p in Run(s, prefix).tables.programs {
        TermsWereGiven(s, prefix, p);
      }
    }
  }

  lemma {:induction false} StatusWasTurned(s: System, actions: seq<Action>, p: Uuid)
    requires p in Run(s, actions).tables.programs
    ensures var status := Run(s, actions).tables.programs[p].status;
      && (status == RowPaused ==> Pause(p) in actions || (p in s.tables.programs && s.tables.programs[p].status == RowPaused))
      && (status == RowActive && p in s.tables.programs && s.tables.programs[p].status == RowPaused ==> Resume(p) in actions)
  {
    if actions != [] {
      var prefix, last := actions[..|actions| - 1], actions[|actions| - 1];
      assert actions == prefix + [last];
      NextTerms(Run(s, prefix), last, p);
      if p in Run(s, prefix).tables.programs {
        StatusWasTurned(s, prefix, p);
      } else if p in s.tables.programs {
        ProgramsStay(s, prefix, p);
      }
    }
  }

  lemma NextKeepsPrograms(s: System, a: Action, p: Uuid)
    requires p in s.tables.programs
    ensures p in Next(s, a).tables.programs
  {
    if a.Step? && a.pid in s.handlers {
      StepTerms(s.tables, s.handlers[a.pid], a.oracle, p);
    }
  }

  lemma {:induction false} ProgramsStay(s: System, actions: seq<Action>, p: Uuid)
    requires p in s.tables.programs
    ensures p in Run(s, actions).tables.programs
  {
    if actions != [] {
      ProgramsStay(s, actions[..|actions| - 1], p);
      NextKeepsPrograms(Run(s, actions[..|actions| - 1]), actions[|actions| - 1], p);
    }
  }
}
