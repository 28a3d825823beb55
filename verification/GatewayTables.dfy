/**
 The Postgres tables shared by the gateway and the admin API, and the statements run on them.
 The payouts table is indexed by its unique key (program, PR). Audit columns that no statement
 reads back (event type, payload, error text, timestamps) are not kept.
 */
module GatewayTables {
  import opened Containers
  import opened Integers
  import opened RowEncodings
  import opened Slugs

  type Uuid = nat

  datatype ServiceError =
    | Validation
    | NotFound
    | Conflict
    | DatabaseError
    | WebhookError
    | Internal

  datatype Result<+T> = Ok(value: T) | Err(error: ServiceError) {
    predicate IsFailure() {
      Err?
    }

    function PropagateFailure<U>(): Result<U>
      requires Err?
    {
      Err(error)
    }

    function Extract(): T
      requires Ok?
    {
      value
    }
  }

  datatype RowStatus = RowActive | RowPaused

  datatype ProgramRow = ProgramRow(
    onChainId: I64,
    repo: Text,
    maintainer: Text,
    ratio: I64,
    escrow: I64,
    cap: Option<I64>,
    spent: I64,
    status: RowStatus)

  datatype PayoutRow = PayoutRow(
    id: Uuid,
    program: Uuid,
    pr: I64,
    user: Text,
    address: Text,
    points: I32,
    amount: I64,
    tag: string)

  datatype EventStatus = Processing | Processed | Ignored | Failed | Rejected

  datatype EventRow = EventRow(delivery: Option<Text>, status: EventStatus)

  datatype Tables = Tables(
    programs: map<Uuid, ProgramRow>,
    contributors: map<(Uuid, Text), Text>,
    payouts: map<(Uuid, I64), PayoutRow>,
    events: seq<EventRow>)

  /** What the gateway takes from a merged pull request. */
  datatype Merge = Merge(repo: Text, user: Text, pr: U64, points: U32)

  // ----- Statements of the gateway -----

  predicate DeliverySeen(t: Tables, delivery: Text) {
    exists e :: e in t.events && e.delivery == Some(delivery)
  }

  /** INSERT INTO webhook_events; delivery ids that are not null are unique. */
  function InsertEvent(t: Tables, row: EventRow): Result<Tables> {
    if row.delivery.Some? && DeliverySeen(t, row.delivery.value) then Err(DatabaseError)
    else Ok(t.(events := t.events + [row]))
  }

  function ClaimDelivery(t: Tables, delivery: Text): Result<Tables> {
    if DeliverySeen(t, delivery) then Err(Conflict) else InsertEvent(t, EventRow(Some(delivery), Processing))
  }

  /** SELECT id FROM payouts for a program and a PR number. */
  function FetchPayoutId(t: Tables, program: Uuid, pr: U64): Option<Uuid> {
    var key := (program, ClampU64(pr));
    if key in t.payouts then Some(t.payouts[key].id) else None
  }

  predicate ActiveFor(t: Tables, repo: Text, id: Uuid) {
    id in t.programs && t.programs[id].repo == repo && t.programs[id].status == RowActive
  }

  /** SELECT the active program of a repository. */
  ghost function ResolveProgram(t: Tables, repo: Text): (r: Result<Uuid>)
    ensures r.Ok? ==> ActiveFor(t, repo, r.value)
    ensures r.Err? ==> r.error == NotFound && forall id :: !ActiveFor(t, repo, id)
  {
    if id :| ActiveFor(t, repo, id) then Ok(id) else Err(NotFound)
  }

  /** The row a payout is stored as, unless its amount or its PR number does not fit a BIGINT. */
  function PayoutRowFor(id: Uuid, program: Uuid, m: Merge, address: Text, amount: int, tag: string): Result<PayoutRow> {
    if TryI64(amount).None? || TryI64(m.pr).None? then Err(Internal)
    else Ok(PayoutRow(id, program, m.pr, m.user, address, PointsColumn(m.points), amount, tag))
  }

  predicate IdTaken(t: Tables, id: Uuid) {
    exists k :: k in t.payouts && t.payouts[k].id == id
  }

  /** The constraints on payouts: foreign key, unique (program, PR), unique id, positive points and amount. */
  predicate PayoutAllowed(t: Tables, row: PayoutRow) {
    && row.program in t.programs
    && (row.program, row.pr) !in t.payouts
    && !IdTaken(t, row.id)
    && row.points > 0 && row.amount > 0
  }

  function PersistPayout(t: Tables, id: Uuid, program: Uuid, m: Merge, address: Text, amount: int, tag: string)
    : Result<Tables>
  {
    var row :- PayoutRowFor(id, program, m, address, amount, tag);
    if PayoutAllowed(t, row) then Ok(t.(payouts := t.payouts[(program, row.pr) := row])) else Err(Conflict)
  }

  /** UPDATE of `milestone_spent` and `escrow_balance`; out-of-range BIGINT arithmetic fails the statement. */
  function IncrementSpent(t: Tables, id: Uuid, amount: int): Result<Tables> {
    if TryI64(amount).None? then Err(Internal)
    else if id !in t.programs then Ok(t)
    else
      var p := t.programs[id];
      if !FitsI64(p.spent + amount) || !FitsI64(p.escrow - amount) then Err(DatabaseError)
      else Ok(t.(programs := t.programs[id := p.(spent := p.spent + amount, escrow := Max(p.escrow - amount, 0))]))
  }

  // ----- Statements of the admin API -----

  predicate ValidStellarAddress(a: Text) {
    |a| == 56 && a[0] == 71 && forall c :: c in a ==> 65 <= c <= 90 || 50 <= c <= 55
  }

  predicate ProgramAllowed(t: Tables, id: Uuid, row: ProgramRow) {
    && id !in t.programs
    && (forall k :: k in t.programs ==> t.programs[k].onChainId != row.onChainId && t.programs[k].repo != row.repo)
    && row.ratio > 0
  }

  function AdminCreate(t: Tables, id: Uuid, onChainId: U64, repo: Text, maintainer: Text, ratio: I64, cap: Option<I64>)
    : Result<Tables>
  {
    if !ValidGitHubRepo(repo) || ratio <= 0 || !ValidStellarAddress(maintainer) then Err(Validation)
    else
      var row := ProgramRow(ClampU64(onChainId), repo, maintainer, ratio, 0, cap, 0, RowActive);
      if ProgramAllowed(t, id, row) then Ok(t.(programs := t.programs[id := row])) else Err(Conflict)
  }

  function AdminSetStatus(t: Tables, id: Uuid, from: RowStatus, to: RowStatus): Result<Tables> {
    if id in t.programs && t.programs[id].status == from
    then Ok(t.(programs := t.programs[id := t.programs[id].(status := to)]))
    else Err(NotFound)
  }

  function AdminSetRatio(t: Tables, id: Uuid, ratio: I64): Result<Tables> {
    if ratio <= 0 then Err(Validation)
    else if id !in t.programs then Err(NotFound)
    else Ok(t.(programs := t.programs[id := t.programs[id].(ratio := ratio)]))
  }

  function AdminRegister(t: Tables, id: Uuid, user: Text, address: Text): Result<Tables> {
    if user == [] || address == [] || !ValidStellarAddress(address) then Err(Validation)
    else if id !in t.programs then Err(NotFound)
    else if (id, user) in t.contributors then Err(Conflict)
    else Ok(t.(contributors := t.contributors[(id, user) := address]))
  }

  // ----- What the constraints keep -----

  ghost predicate ProgramsOk(programs: map<Uuid, ProgramRow>) {
    && (forall a, b :: a in programs && b in programs && a != b ==>
         programs[a].repo != programs[b].repo && programs[a].onChainId != programs[b].onChainId)
    && (forall a :: a in programs ==> programs[a].ratio > 0 && programs[a].spent >= 0 && programs[a].escrow >= 0)
  }

  ghost predicate PayoutsOk(payouts: map<(Uuid, I64), PayoutRow>) {
    && (forall k :: k in payouts ==> k == (payouts[k].program, payouts[k].pr) && payouts[k].amount > 0 && payouts[k].points > 0)
    && (forall k, l :: k in payouts && l in payouts && k != l ==> payouts[k].id != payouts[l].id)
  }

  ghost predicate EventsOk(events: seq<EventRow>) {
    forall i, j :: 0 <= i < j < |events| && events[i].delivery.Some? ==> events[i].delivery != events[j].delivery
  }

  /** Every contributor and every payout belongs to a program. */
  ghost predicate ReferencesOk(t: Tables) {
    && (forall k :: k in t.contributors ==> k.0 in t.programs)
    && (forall k :: k in t.payouts ==> k.0 in t.programs)
  }

  ghost predicate Consistent(t: Tables) {
    ProgramsOk(t.programs) && PayoutsOk(t.payouts) && EventsOk(t.events) && ReferencesOk(t)
  }

  /** Rows are never removed; ids, repositories, addresses and payouts never change. */
  predicate Grows(t: Tables, t': Tables) {
    && (forall a :: a in t.programs ==>
         && a in t'.programs
         && t'.programs[a].repo == t.programs[a].repo
         && t'.programs[a].onChainId == t.programs[a].onChainId)
    && (forall k :: k in t.contributors ==> k in t'.contributors && t'.contributors[k] == t.contributors[k])
    && (forall k :: k in t.payouts ==> k in t'.payouts && t'.payouts[k] == t.payouts[k])
    && t.events <= t'.events
  }

  /** A statement, if accepted, keeps the constraints and only adds. */
  ghost predicate Keeps(t: Tables, r: Result<Tables>) {
    r.Ok? ==> Consistent(r.value) && Grows(t, r.value)
  }

  lemma InsertEventKeeps(t: Tables, row: EventRow)
    requires Consistent(t)
    ensures Keeps(t, InsertEvent(t, row))
  {
    if InsertEvent(t, row).Ok? {
      forall i | 0 <= i < |t.events| && t.events[i].delivery.Some? ensures t.events[i].delivery != row.delivery {
        assert t.events[i] in t.events;
      }
    }
  }

  lemma PayoutAdded(payouts: map<(Uuid, I64), PayoutRow>, row: PayoutRow)
    requires PayoutsOk(payouts) && (row.program, row.pr) !in payouts && row.amount > 0 && row.points > 0
    requires forall k :: k in payouts ==> payouts[k].id != row.id
    ensures PayoutsOk(payouts[(row.program, row.pr) := row])
  {
  }

  lemma PersistPayoutKeeps(t: Tables, id: Uuid, program: Uuid, m: Merge, address: Text, amount: int, tag: string)
    requires Consistent(t)
    ensures Keeps(t, PersistPayout(t, id, program, m, address, amount, tag))
  {
    var row := PayoutRowFor(id, program, m, address, amount, tag);
    if row.Ok? && PayoutAllowed(t, row.value) {
      PayoutAdded(t.payouts, row.value);
    }
  }

  /** An update that leaves a program's id and repository and keeps its numbers in range. */
  lemma ProgramUpdateKeeps(t: Tables, id: Uuid, row: ProgramRow)
    requires Consistent(t) && id in t.programs
    requires row.repo == t.programs[id].repo && row.onChainId == t.programs[id].onChainId
    requires row.ratio > 0 && row.spent >= 0 && row.escrow >= 0
    ensures Keeps(t, Ok(t.(programs := t.programs[id := row])))
  {
    var programs := t.programs[id := row];
    forall a, b | a in programs && b in programs && a != b
      ensures programs[a].repo != programs[b].repo && programs[a].onChainId != programs[b].onChainId
    {
      assert programs[a].repo == t.programs[a].repo && programs[b].repo == t.programs[b].repo;
    }
  }

  lemma IncrementKeeps(t: Tables, id: Uuid, amount: int)
    requires Consistent(t) && amount >= 0
    ensures Keeps(t, IncrementSpent(t, id, amount))
  {
    if IncrementSpent(t, id, amount).Ok? && id in t.programs {
      ProgramUpdateKeeps(t, id, IncrementSpent(t, id, amount).value.programs[id]);
    }
  }

  lemma StatusKeeps(t: Tables, id: Uuid, from: RowStatus, to: RowStatus)
    requires Consistent(t)
    ensures Keeps(t, AdminSetStatus(t, id, from, to))
  {
    if id in t.programs {
      ProgramUpdateKeeps(t, id, t.programs[id].(status := to));
    }
  }

  lemma RatioKeeps(t: Tables, id: Uuid, ratio: I64)
    requires Consistent(t)
    ensures Keeps(t, AdminSetRatio(t, id, ratio))
  {
    if id in t.programs && ratio > 0 {
      ProgramUpdateKeeps(t, id, t.programs[id].(ratio := ratio));
    }
  }

  lemma RegisterKeeps(t: Tables, id: Uuid, user: Text, address: Text)
    requires Consistent(t)
    ensures Keeps(t, AdminRegister(t, id, user, address))
  {
  }

  lemma AdminCreateKeeps(t: Tables, id: Uuid, onChainId: U64, repo: Text, maintainer: Text, ratio: I64, cap: Option<I64>)
    requires Consistent(t)
    ensures Keeps(t, AdminCreate(t, id, onChainId, repo, maintainer, ratio, cap))
  {
  }

  lemma GrowsTransitive(t1: Tables, t2: Tables, t3: Tables)
    requires Grows(t1, t2) && Grows(t2, t3)
    ensures Grows(t1, t3)
  {
  }
}
