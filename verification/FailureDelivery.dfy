/** The administrator's request for the names of one run, from the history tables to the reader of the pipe
    (apps/resticpal-service/src/history.rs `failure_details`, crates/resticpal-protocol/src/lib.rs). */
module FailureDelivery {
  import opened Common
  import opened FailureDetails
  import opened Frame
  import opened History

  lemma StoredDetailsAreDeliverable(requestId: nat, id: nat, d: Details)
    requires requestId <= U64_MAX && id <= U64_MAX
    ensures Deliverable(FailureDetailsResponse(requestId, id, Normalize(d).items, Normalize(d).omitted))
  {
    PushedIsBounded(d);
  }

  /** Whatever was appended, a stored run's names arrive at the reader as they are stored, in one frame that is always
      small enough, and a run that is not stored yields nothing. */
  method ServeFailureDetails(store: BackupHistoryStore, stream: ByteStream, requestId: nat, id: nat)
    returns (received: Option<FailureDetailsResponse>)
    requires store.Valid() && stream.bytes == [] && requestId <= U64_MAX && id <= U64_MAX
    modifies stream
    ensures received.Some? <==> id in IdsOf(Newest(store.runs, MAX_STORED_RUNS))
    ensures received.Some? ==>
      && 1 <= id <= |store.runs|
      && received.value == FailureDetailsResponse(requestId, id, Normalize(store.runs[id - 1].details).items,
                                                  Normalize(store.runs[id - 1].details).omitted)
  {
    var found := store.ReadFailureDetails(id);
    if found.None? {
      return None;
    }
    StoredDetailsAreDeliverable(requestId, id, store.runs[id - 1].details);
    var response := FailureDetailsResponse(requestId, id, found.value.items, found.value.omitted);
    received := DeliverFailureDetails(stream, response);
  }
}
