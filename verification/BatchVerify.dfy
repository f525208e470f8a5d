/**
 batchVerify (backend/src/resolution/resolution.service.ts): rows are evaluated one after another, each against the
 database as it is at that moment, counted by category, and the loop may stop at the first risky row.
 */
module BatchVerify {
  import opened Wrappers
  import opened Text
  import opened Normalization
  import opened Registry
  import opened Lookups

  datatype RowMode = BY_RECIPIENT | BY_ADDRESS

  datatype BatchMode = ALL_BY_RECIPIENT | ALL_BY_ADDRESS | MIXED

  datatype RowInput = RowInput(
    mode: Option<RowMode>, identifier: Option<string>, platform: Option<string>, address: Option<string>)

  datatype Batch = Batch(chain: string, asset: string, mode: BatchMode, stopOnFirstHighRisk: bool, rows: seq<RowInput>)

  /** What one row meets: the database then, its answers, and whether recording the row fails. */
  datatype Reading = Reading(db: Database, answers: Answers, fault: bool)

  datatype RowResponse = RowResponse(
    mode: RowMode, platform: Option<string>, identifier: Option<string>, address: string, matched: bool,
    verified: bool, risk: Risk, flags: seq<Flag>, recommendation: Recommendation)

  /** A row's response, and what is recorded and counted for it. */
  datatype Judged = Judged(
    response: RowResponse, outcome: Outcome, risk: Risk, flags: seq<Flag>, recommendation: Recommendation)

  function TrimOr(value: Option<string>): string {
    match value case Some(s) => Trim(s) case None => ""
  }

  function ResolveRowMode(mode: BatchMode, rowMode: Option<RowMode>): RowMode {
    match mode
    case MIXED => if rowMode == Some(BY_ADDRESS) then BY_ADDRESS else BY_RECIPIENT
    case ALL_BY_ADDRESS => BY_ADDRESS
    case ALL_BY_RECIPIENT => BY_RECIPIENT
  }

  predicate RowMeetsRequirements(mode: BatchMode, row: RowInput) {
    && (ResolveRowMode(mode, row.mode) == BY_RECIPIENT ==> TrimOr(row.identifier) != "")
    && TrimOr(row.address) != ""
    && (ResolveRowMode(mode, row.mode) == BY_ADDRESS ==> TrimOr(row.platform) != "")
  }

  /** The catch block. */
  function Failed(mode: RowMode, row: RowInput): Judged {
    Judged(
      RowResponse(mode, if row.platform.None? then None else Some(Trim(row.platform.value)),
                  if TrimOr(row.identifier) == "" then None else Some(TrimOr(row.identifier)),
                  TrimOr(row.address), false, false, HIGH, [ADDRESS_MISMATCH], InvalidRequest),
      ERROR, HIGH, [ADDRESS_MISMATCH], InvalidRequest)
  }

  function RecipientRow(b: Batch, row: RowInput, reading: Reading): Option<Judged> {
    match (ReadSensitiveInput(TrimOr(row.address), 200), ReadSensitiveInput(TrimOr(row.identifier), 160))
    case (Some(address), Some(identifier)) => (
      match EvaluateVerifyLookup(reading.db, identifier, b.chain, b.asset, address, reading.answers)
      case None => None
      case Some(v) => Some(Judged(
        RowResponse(BY_RECIPIENT, v.lookup.platform, Some(identifier), address, v.matched, v.verified, v.lookup.risk,
                    v.lookup.flags, v.lookup.recommendation),
        v.lookup.outcome, v.lookup.risk, v.lookup.flags, v.lookup.recommendation)))
    case _ => None
  }

  function AddressRow(b: Batch, row: RowInput, reading: Reading): Option<Judged> {
    match ReadSensitiveInput(TrimOr(row.address), 200)
    case None => None
    case Some(address) =>
      if TrimOr(row.platform) == "" then None
      else
        match NormalizeConfirmInput(Some(TrimOr(row.platform)), b.chain, b.asset, address)
        case None => None
        case Some(input) =>
          var r := LookupRecipientConfirmation(reading.db, input, reading.answers);
          Some(Judged(
            RowResponse(BY_ADDRESS, r.platform, None, address, r.verified, r.verified, r.risk, r.flags,
                        r.recommendation),
            r.outcome, r.risk, r.flags, r.recommendation))
  }

  /** One turn of the loop. */
  function Judge(b: Batch, row: RowInput, reading: Reading): Judged {
    var mode := ResolveRowMode(b.mode, row.mode);
    var evaluated := if mode == BY_RECIPIENT then RecipientRow(b, row, reading) else AddressRow(b, row, reading);
    if reading.fault || evaluated.None? then Failed(mode, row) else evaluated.value
  }

  datatype Category = Verified | Unsupported | Blocked | Warning

  predicate IsHigh(j: Judged) {
    j.risk == HIGH || j.risk == CRITICAL
  }

  function CategoryOf(j: Judged): Category {
    if j.response.verified then Verified
    else if j.recommendation == UnsupportedAssetNetwork then Unsupported
    else if IsHigh(j) then Blocked
    else Warning
  }

  function Count(judged: seq<Judged>, category: Category): nat {
    if judged == [] then 0
    else Count(judged[..|judged| - 1], category) + if CategoryOf(judged[|judged| - 1]) == category then 1 else 0
  }

  function JudgeAll(b: Batch, readings: seq<Reading>): (r: seq<Judged>)
    requires |readings| == |b.rows|
    ensures |r| == |b.rows|
  {
    seq(|b.rows|, i requires 0 <= i < |b.rows| => Judge(b, b.rows[i], readings[i]))
  }

  /** The rows the loop gets to: all of them, or those up to the first risky one if it is to stop there. */
  function Processed(judged: seq<Judged>, stop: bool): seq<Judged> {
    if judged == [] then []
    else if stop && IsHigh(judged[0]) then [judged[0]]
    else [judged[0]] + Processed(judged[1..], stop)
  }

  function Responses(judged: seq<Judged>): (r: seq<RowResponse>)
    ensures |r| == |judged|
    ensures forall i :: 0 <= i < |r| ==> r[i] == judged[i].response
  {
    seq(|judged|, i requires 0 <= i < |judged| => judged[i].response)
  }

  datatype BatchResponse = BatchResponse(
    totalRows: nat, verifiedRows: nat, warningRows: nat, blockedRows: nat, unsupportedRows: nat,
    rows: seq<RowResponse>)

  function ResponseOf(judged: seq<Judged>): BatchResponse {
    BatchResponse(|judged|, Count(judged, Verified), Count(judged, Warning), Count(judged, Blocked),
                  Count(judged, Unsupported), Responses(judged))
  }

  /** The stored run: its counts are written when it completes. */
  datatype BatchRun = BatchRun(rowCount: nat, verified: nat, warning: nat, blocked: nat, unsupported: nat, completed: bool)

  datatype BatchRow = BatchRow(run: nat, rowIndex: nat, outcome: Outcome, risk: Risk, flags: seq<Flag>)

  predicate Accepted(b: Batch, maxRows: nat) {
    && 0 < |b.rows| <= maxRows
    && (forall i :: 0 <= i < |b.rows| ==> RowMeetsRequirements(b.mode, b.rows[i]))
    && NormalizeChain(b.chain).Some? && NormalizeAssetSymbol(b.asset).Some?
  }

  function RecordsOf(judged: seq<Judged>, run: nat): (r: seq<BatchRow>)
    ensures |r| == |judged|
  {
    seq(|judged|, i requires 0 <= i < |judged| =>
      BatchRow(run, i, judged[i].outcome, judged[i].risk, judged[i].flags))
  }

  class BatchVerifier {
    const maxRows: nat
    var runs: seq<BatchRun>
    var batchRows: seq<BatchRow>

    constructor (maxRows: nat)
      ensures this.maxRows == maxRows && runs == [] && batchRows == []
    {
      this.maxRows := maxRows;
      runs, batchRows := [], [];
    }

    /** assertBatchLookupRequirements. */
    method MeetsRequirements(b: Batch) returns (ok: bool)
      ensures ok <==> forall i :: 0 <= i < |b.rows| ==> RowMeetsRequirements(b.mode, b.rows[i])
    {
      for i := 0 to |b.rows|
        invariant forall k :: 0 <= k < i ==> RowMeetsRequirements(b.mode, b.rows[k])
      {
        if !RowMeetsRequirements(b.mode, b.rows[i]) { return false; }
      }
      ok := true;
    }

    /** The loop over the rows of an accepted batch. */
    method ProcessRows(b: Batch, readings: seq<Reading>, run: nat) returns (response: BatchResponse)
      requires |readings| == |b.rows|
      modifies this`batchRows
      ensures response == ResponseOf(Processed(JudgeAll(b, readings), b.stopOnFirstHighRisk))
      ensures batchRows ==
              old(batchRows) + RecordsOf(Processed(JudgeAll(b, readings), b.stopOnFirstHighRisk), run)
    {
      hide Judge, Processed, Count, CategoryOf, Responses, RecordsOf;
      var rows: seq<RowResponse> := [];
      var verified, warning, blocked, unsupported := 0, 0, 0, 0;
      ghost var all := JudgeAll(b, readings);
      var i, stopped := 0, false;
      NothingYet(all, b.stopOnFirstHighRisk, run);
      while i < |b.rows| && !stopped
        modifies this`batchRows
        invariant i <= |b.rows|
        invariant Processed(all, b.stopOnFirstHighRisk)
                  == all[..i] + if stopped then [] else Processed(all[i..], b.stopOnFirstHighRisk)
        invariant rows == Responses(all[..i])
        invariant verified == Count(all[..i], Verified) && warning == Count(all[..i], Warning)
        invariant blocked == Count(all[..i], Blocked) && unsupported == Count(all[..i], Unsupported)
        invariant batchRows == old(batchRows) + RecordsOf(all[..i], run)
        decreases |b.rows| - i, !stopped
      {
        var judged := Judge(b, b.rows[i], readings[i]);
        assert judged == all[i];
        OneMore(all, b.stopOnFirstHighRisk, run, i);
        batchRows := batchRows + [BatchRow(run, i, judged.outcome, judged.risk, judged.flags)];
        rows := rows + [judged.response];
        if judged.response.verified {
          verified := verified + 1;
        } else if judged.recommendation == UnsupportedAssetNetwork {
          unsupported := unsupported + 1;
        } else if judged.risk == HIGH || judged.risk == CRITICAL {
          blocked := blocked + 1;
        } else {
          warning := warning + 1;
        }
        stopped := b.stopOnFirstHighRisk && (judged.risk == HIGH || judged.risk == CRITICAL);
        i := i + 1;
      }
      NothingLeft(all, b.stopOnFirstHighRisk, i);
      response := BatchResponse(|rows|, verified, warning, blocked, unsupported, rows);
    }

    /**
     The response holds the evaluations of the processed rows in order and counts each of them once; the same rows
     and counts are stored.
     */
    method BatchVerify(b: Batch, readings: seq<Reading>) returns (r: Result<BatchResponse, RegistryError>)
      requires |readings| == |b.rows|
      modifies this
      ensures r.Success? <==> Accepted(b, maxRows)
      ensures r.Failure? ==> runs == old(runs) && batchRows == old(batchRows)
      ensures r.Success? ==>
        var processed := Processed(JudgeAll(b, readings), b.stopOnFirstHighRisk);
        && r.value == ResponseOf(processed)
        && batchRows == old(batchRows) + RecordsOf(processed, |old(runs)|)
        && runs == old(runs) + [BatchRun(|b.rows|, r.value.verifiedRows, r.value.warningRows, r.value.blockedRows,
                                         r.value.unsupportedRows, true)]
    {
      hide NormalizeChain, NormalizeAssetSymbol, RowMeetsRequirements, JudgeAll, Processed, ResponseOf, RecordsOf;
      if |b.rows| == 0 || |b.rows| > maxRows { return Failure(BadRequest); }
      var ok := MeetsRequirements(b);
      if !ok || NormalizeChain(b.chain).None? || NormalizeAssetSymbol(b.asset).None? { return Failure(BadRequest); }
      var run := |runs|;
      runs := runs + [BatchRun(|b.rows|, 0, 0, 0, 0, false)];
      var response := ProcessRows(b, readings, run);
      runs := runs[run := BatchRun(|b.rows|, response.verifiedRows, response.warningRows, response.blockedRows,
                                   response.unsupportedRows, true)];
      r := Success(response);
    }
  }

  // ---- the loop's bookkeeping ----

  lemma NothingYet(all: seq<Judged>, stop: bool, run: nat)
    ensures Responses(all[..0]) == [] && RecordsOf(all[..0], run) == []
    ensures forall category :: Count(all[..0], category) == 0
    ensures Processed(all, stop) == all[..0] + Processed(all[0..], stop)
  {
    assert all[0..] == all;
  }

  /** Row `i` adds itself to everything that is kept. */
  lemma OneMore(all: seq<Judged>, stop: bool, run: nat, i: nat)
    requires i < |all|
    ensures Responses(all[..i + 1]) == Responses(all[..i]) + [all[i].response]
    ensures RecordsOf(all[..i + 1], run)
            == RecordsOf(all[..i], run) + [BatchRow(run, i, all[i].outcome, all[i].risk, all[i].flags)]
    ensures forall category ::
      Count(all[..i + 1], category) == Count(all[..i], category) + if CategoryOf(all[i]) == category then 1 else 0
    ensures CategoryOf(all[i]) ==
      if all[i].response.verified then Verified
      else if all[i].recommendation == UnsupportedAssetNetwork then Unsupported
      else if all[i].risk == HIGH || all[i].risk == CRITICAL then Blocked else Warning
    ensures all[..i] + Processed(all[i..], stop)
            == all[..i + 1] + if stop && IsHigh(all[i]) then [] else Processed(all[i + 1..], stop)
  {
    assert all[..i + 1][..i] == all[..i];
    assert all[i..][0] == all[i] && all[i..][1..] == all[i + 1..];
  }

  lemma NothingLeft(all: seq<Judged>, stop: bool, i: nat)
    requires i <= |all|
    ensures i == |all| ==> Processed(all[i..], stop) == []
    ensures all[..i] + [] == all[..i]
  {
  }
}
