/**
 * Two lines of utils/batchRequest.js as they are written, beside the
 * corrected behaviour that the module BatchRequest uses. Both read a property
 * of `combinedResults` that the object never has.
 */
module AsWritten {

  import opened BatchRequest

  /** A property of `combinedResults` read as a number: the three counters
      exist (lines 128-130); a name that is not a key of the object, `accepted`
      among them, reads `undefined` (None). The arrays `errors` and `data`
      (lines 131-132) are not read as numbers here. */
  function NumberProperty<P, R, E>(report: Report<P, R, E>, key: string): (v: Option<int>)
    ensures key == "accepted_count" ==> v == Some(report.acceptedCount)
    ensures key == "rejected_count" ==> v == Some(report.rejectedCount)
    ensures key == "batches_count" ==> v == Some(report.batchesCount)
    ensures key !in {"accepted_count", "rejected_count", "batches_count", "errors", "data"} ==> v.None?
  {
    if key == "rejected_count" then Some(report.rejectedCount)
    else if key == "accepted_count" then Some(report.acceptedCount)
    else if key == "batches_count" then Some(report.batchesCount)
    else None
  }

  /** `v > 0` in JavaScript: `undefined > 0` compares NaN and is false. */
  predicate Positive(v: Option<int>)
  {
    v.Some? && v.value > 0
  }

  /** Lines 142-143 as written: the test reads `combinedResults.accepted`. */
  function SettleAsWritten<P, R, E>(report: Report<P, R, E>): (s: Settlement<P, R, E>)
    ensures !s.Pending? && s.report == report
    ensures s.Resolved? <==> Positive(NumberProperty(report, "accepted"))
  {
    if Positive(NumberProperty(report, "accepted")) then Resolved(report) else Rejected(report)
  }

  /** As written, every batch is rejected, whatever it accepted. */
  lemma SettleAsWrittenAlwaysRejects<P, R, E>(report: Report<P, R, E>)
    ensures SettleAsWritten(report) == Rejected(report)
  {
    assert NumberProperty(report, "accepted") == None;
  }

  /** With line 65 corrected, a batch of one payload that was accepted:
      line 142 as written rejects it, while the evident intent
      (BatchRequest.Settle) resolves it. With line 65 as written no settled
      batch has accepted anything, since every success throws before it is
      counted; the defect at line 142 shows only once line 65 is fixed. */
  lemma AcceptedBatchRejectedAsWritten()
    ensures var report: Report<int, int, int> := Report(0, 1, 0, None, [7]);
      SettleAsWritten(report).Rejected? && Settle(report).Resolved?
  {
    var report: Report<int, int, int> := Report(0, 1, 0, None, [7]);
    SettleAsWrittenAlwaysRejects(report);
  }

  /** The outcome of running lines 58-69 as written. */
  datatype Outcome<P, R, E> =
    | Pushed(results: Aggregate<P, R, E>)
    | ThrowsTypeError

  /** Lines 58-69 as written: an error is pushed onto `errors`; a result is
      pushed onto `combinedResults.results`, which is `undefined` since the
      object's only array of results is `data` (line 132), so the `push` call
      throws a TypeError before any counter moves. */
  function RecordAsWritten<P, R, E>(results: Aggregate<P, R, E>, payload: P, response: Response<R, E>): (o: Outcome<P, R, E>)
    ensures response.Failed? ==> o == Pushed(results.(errors := results.errors + [ErrorEntry(payload, response.error)],
                                                        rejectedCount := results.rejectedCount + 1))
    ensures response.Succeeded? ==> o.ThrowsTypeError?
  {
    match response
    case Failed(error, _) =>
      Pushed(results.(errors := results.errors + [ErrorEntry(payload, error)],
                        rejectedCount := results.rejectedCount + 1))
    case Succeeded(_, _) =>
      ThrowsTypeError
  }

  /** As written, every success throws instead of being recorded, while the
      corrected recording (BatchRequest.Recorded) appends it to `data`; on an
      error the two agree. */
  lemma SuccessPushThrows<P, R, E>(st: State<P, R, E>, payload: P, response: Response<R, E>)
    ensures response.Succeeded? ==>
      RecordAsWritten(st.results, payload, response).ThrowsTypeError? &&
      BatchRequest.Recorded(st, payload, response).results.data == st.results.data + [response.result]
    ensures response.Failed? ==>
      RecordAsWritten(st.results, payload, response) == Pushed(BatchRequest.Recorded(st, payload, response).results)
  {
  }
}
