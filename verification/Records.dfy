/**
 Reading rows back as the records the API returns, against what was written.
 */
module Records {
  import opened Containers
  import opened GatewayTables
  import opened Integers
  import opened RowEncodings
  import opened Slugs

  datatype ProgramRecord = ProgramRecord(
    id: Uuid,
    onChainId: U64,
    repo: Text,
    maintainer: Text,
    ratio: I128,
    escrow: I128,
    cap: Option<I128>,
    spent: I128,
    paused: bool)

  datatype PayoutRecord = PayoutRecord(
    id: Uuid,
    program: Uuid,
    pr: U64,
    user: Text,
    address: Text,
    points: U32,
    amount: I128,
    tag: string)

  function ProgramRecordOf(id: Uuid, row: ProgramRow): ProgramRecord {
    var cap: Option<I128> := if row.cap.Some? then Some(row.cap.value) else None;
    ProgramRecord(id, AsU64(row.onChainId), row.repo, row.maintainer, row.ratio, row.escrow, cap, row.spent, row.status == RowPaused)
  }

  function PayoutRecordOf(row: PayoutRow): PayoutRecord {
    PayoutRecord(row.id, row.program, AsU64(row.pr), row.user, row.address, AsU32(row.points), row.amount, row.tag)
  }

  /** A created program is read back with its own on-chain id exactly when the id fits a BIGINT. */
  lemma CreatedProgramReadsBack(t: Tables, id: Uuid, onChainId: U64, repo: Text, maintainer: Text, ratio: I64, cap: Option<I64>)
    requires AdminCreate(t, id, onChainId, repo, maintainer, ratio, cap).Ok?
    ensures var r := ProgramRecordOf(id, AdminCreate(t, id, onChainId, repo, maintainer, ratio, cap).value.programs[id]);
      && (r.onChainId == onChainId <==> onChainId <= I64_MAX)
      && r == ProgramRecord(id, r.onChainId, repo, maintainer, ratio, 0, cap, 0, false)
  {
    IdRoundTrip(onChainId);
  }

  /**
   A payout is stored exactly when its amount and PR number fit, its program exists, the PR is not
   paid yet, the row id is free and points and amount are positive. It is then read back as it was
   written, points included unless they exceed an INTEGER.
   */
  lemma StoredPayoutReadsBack(t: Tables, id: Uuid, program: Uuid, m: Merge, address: Text, amount: int, tag: string)
    ensures var r := PersistPayout(t, id, program, m, address, amount, tag);
      && (r.Ok? <==>
           && 0 < amount && FitsI64(amount) && m.points > 0 && m.pr <= I64_MAX
           && program in t.programs && FetchPayoutId(t, program, m.pr).None? && !IdTaken(t, id))
      && (r.Ok? ==>
           && FetchPayoutId(r.value, program, m.pr) == Some(id)
           && var row := PayoutRecordOf(r.value.payouts[(program, m.pr)]);
           && row == PayoutRecord(id, program, m.pr, m.user, address, row.points, amount, tag)
           && (row.points == m.points <==> m.points <= I32_MAX))
  {
    IdRoundTrip(m.pr);
    PointsRoundTrip(m.points);
  }

  /**
   The record of any program row shows every column: amounts and ratio as they are, an id as it is
   unless it is negative, and `paused` exactly for a paused row. Two rows with one record are one row.
   */
  lemma ProgramRecordShows(id: Uuid, row: ProgramRow)
    ensures var r := ProgramRecordOf(id, row);
      && r.id == id && r.repo == row.repo && r.maintainer == row.maintainer && r.ratio == row.ratio
      && r.escrow == row.escrow && r.spent == row.spent && (r.paused <==> row.status == RowPaused)
      && (r.cap.Some? <==> row.cap.Some?) && (row.cap.Some? ==> r.cap.value == row.cap.value)
      && (0 <= row.onChainId ==> r.onChainId == row.onChainId)
    ensures forall id2, row2 :: ProgramRecordOf(id2, row2) == ProgramRecordOf(id, row) ==> id2 == id && row2 == row
  {
    forall id2, row2 | ProgramRecordOf(id2, row2) == ProgramRecordOf(id, row) ensures id2 == id && row2 == row {
      AsU64Injective(row2.onChainId, row.onChainId);
    }
  }

  /** The same for payouts. */
  lemma PayoutRecordShows(row: PayoutRow)
    ensures var r := PayoutRecordOf(row);
      && r.id == row.id && r.program == row.program && r.user == row.user && r.address == row.address
      && r.amount == row.amount && r.tag == row.tag
      && (0 <= row.pr ==> r.pr == row.pr) && (0 <= row.points ==> r.points == row.points)
    ensures forall row2 :: PayoutRecordOf(row2) == PayoutRecordOf(row) ==> row2 == row
  {
    forall row2 | PayoutRecordOf(row2) == PayoutRecordOf(row) ensures row2 == row {
      AsU64Injective(row2.pr, row.pr);
    }
  }
}
