/**
 * What the ingestor promises, proved about the run it makes
 * (Ingest.Expected, which Ingest.PortIngestor.Process is proved to follow).
 */
module IngestProperties {

  import opened Optional
  import opened Domain
  import opened Ingest
  import DomainTest

  /** Why the loop of a run over a file that opens stopped. */
  function StopOf(size: nat, src: Source, polls: seq<Poll>, sink: Sink): Stop
  {
    StopAt(size, src.entries, Delim('{'), polls, sink, StopIndex(size, src.entries, polls, sink, 0))
  }

  /**
   * A file that cannot be opened or stat'ed, whose first token cannot be read
   * or is not `{`, ends the run with that error and no BulkUpsert call.
   */
  lemma EarlyFailuresNeverUpsert(size: int, src: Source, polls: seq<Poll>, sink: Sink)
    requires !Opens(src)
    ensures Upserts(Expected(size, src, polls, sink)) == []
    ensures src.openError.Some? ==>
      Expected(size, src, polls, sink).outcome == Returned(Some(FileOpen(src.openError.value)))
    ensures src.openError.None? && src.statError.Some? ==>
      Expected(size, src, polls, sink).outcome == Returned(Some(FileStat(src.statError.value)))
    ensures src.openError.None? && src.statError.None? && src.opening.ReadFailed? ==>
      Expected(size, src, polls, sink).outcome == Returned(Some(OpeningDelimiterRead(src.opening.cause)))
    ensures src.openError.None? && src.statError.None? && src.opening.Read? ==>
      Expected(size, src, polls, sink).outcome == Returned(Some(UnexpectedOpeningToken(src.opening.token)))
  {
  }

  /** A negative batch size gets past the file checks and then panics, before reading any member. */
  lemma NegativeBatchSizePanics(size: int, src: Source, polls: seq<Poll>, sink: Sink)
    requires Opens(src) && size < 0
    ensures Expected(size, src, polls, sink) == Run(Panics, [], None)
  {
  }

  /**
   * Every port passed to BulkUpsert is the port of a member read before the
   * loop stopped, with the member's key as its identifier whatever identifier
   * its payload carried.
   */
  lemma DeliveredPortsCarryTheirKeys(size: int, src: Source, polls: seq<Poll>, sink: Sink, batch: Ports, p: Port)
    requires batch in Upserts(Expected(size, src, polls, sink)) && p in batch
    ensures Opens(src) && size >= 0
    ensures exists i :: (0 <= i < StopIndex(size, src.entries, polls, sink, 0)
      && src.entries[i].Member? && p.id == src.entries[i].key && p == Stamp(src.entries[i]))
  {
    if Opens(src) && size >= 0 {
      var r := Expected(size, src, polls, sink);
      var s := StopIndex(size, src.entries, polls, sink, 0);
      var records := Decoded(src.entries, s);
      BatchesCoverRecords(records, size);
      var j :| 0 <= j < |Upserts(r)| && Upserts(r)[j] == batch;
      if j < |r.dispatched| {
        InConcat(r.dispatched, j, p);
      }
      assert p in Delivered(r);
      assert p in records;
      DecodedFromEntries(src.entries, s, p);
    }
  }

  /** Every batch dispatched to a goroutine holds exactly the batch size; with size 0 none is dispatched. */
  lemma DispatchedBatchesAreFull(size: int, src: Source, polls: seq<Poll>, sink: Sink)
    ensures forall b :: b in Expected(size, src, polls, sink).dispatched ==> |b| == size
    ensures size == 0 ==> Expected(size, src, polls, sink).dispatched == []
  {
  }

  /**
   * With no cancellation, no received error and no bad member, every member is
   * read and the BulkUpsert calls receive all ports, stamped, in input order;
   * when no call fails the run returns nil.
   */
  lemma CleanRunDeliversAllInOrder(size: nat, src: Source, polls: seq<Poll>, sink: Sink)
    requires Opens(src)
    requires forall k :: 0 <= k < |src.entries| ==> src.entries[k].Member? && PollAt(polls, k) == Proceed
    ensures |Delivered(Expected(size, src, polls, sink))| == |src.entries|
    ensures forall i :: 0 <= i < |src.entries| ==>
      Delivered(Expected(size, src, polls, sink))[i] == Stamp(src.entries[i])
    ensures ((forall g :: 0 <= g < |Expected(size, src, polls, sink).dispatched| ==> !Failed(sink, g))
      && sink.final == None) ==> Expected(size, src, polls, sink).outcome == Returned(None)
  {
    var n := |src.entries|;
    ProceedingOverMembersReadsAll(size, src.entries, polls, sink);
    var records := Decoded(src.entries, n);
    var batches := FullBatches(records, size);
    var rest := Remainder(records, size);
    var r := Expected(size, src, polls, sink);
    assert r.dispatched == batches;
    assert r.final == if |rest| > 0 then Some(rest) else None;
    assert r.outcome == if FailedCount(sink, |batches|) > 0 then Hangs
      else Returned(if |rest| > 0 then SinkError(sink.final) else None);
    BatchesCoverRecords(records, size);
    assert Delivered(r) == records;
    DecodedAllMembers(src.entries, n);
    FailedCountNone(sink, |batches|);
  }

  /** When every `select` runs default and every member is a port, the loop reads all members. */
  lemma ProceedingOverMembersReadsAll(size: nat, entries: seq<Entry>, polls: seq<Poll>, sink: Sink)
    requires forall k :: 0 <= k < |entries| ==> entries[k].Member? && PollAt(polls, k) == Proceed
    ensures StopIndex(size, entries, polls, sink, 0) == |entries|
    ensures StopAt(size, entries, Delim('{'), polls, sink, |entries|) == Exhausted
  {
  }

  /**
   * The synchronous batch is sent only when the loop read every member
   * without stopping; it is never empty, smaller than the batch size, and
   * completes the records the goroutines received.
   */
  lemma FinalBatchOnlyAtCleanEnd(size: int, src: Source, polls: seq<Poll>, sink: Sink)
    requires Expected(size, src, polls, sink).final.Some?
    ensures Opens(src) && size >= 0
    ensures StopIndex(size, src.entries, polls, sink, 0) == |src.entries|
    ensures StopOf(size, src, polls, sink) == Exhausted
    ensures 0 < |Expected(size, src, polls, sink).final.value|
    ensures size > 0 ==> |Expected(size, src, polls, sink).final.value| < size
    ensures Delivered(Expected(size, src, polls, sink)) == Decoded(src.entries, |src.entries|)
  {
    var s := StopIndex(size, src.entries, polls, sink, 0);
    BatchesCoverRecords(Decoded(src.entries, s), size);
  }

  /**
   * A member whose key cannot be read, whose key is not a string or whose
   * value does not decode stops the run: nothing from it or after it is
   * delivered, the buffered partial batch is dropped, and the run returns the
   * member's error (a decode error names the key) unless a goroutine hangs.
   */
  lemma BadMemberStopsReading(size: nat, src: Source, polls: seq<Poll>, sink: Sink, s: nat)
    requires Opens(src)
    requires s == StopIndex(size, src.entries, polls, sink, 0)
    requires s < |src.entries| && !PollStops(size, src.entries, polls, sink, s)
    ensures !src.entries[s].Member?
    ensures Expected(size, src, polls, sink).final == None
    ensures Concat(Expected(size, src, polls, sink).dispatched) <= Decoded(src.entries, s)
    ensures Expected(size, src, polls, sink).outcome in
      {Hangs, Returned(Some(EntryError(src.entries[s], Delim('{'))))}
    ensures src.entries[s].ValueDecodeFailed? ==>
      Expected(size, src, polls, sink).outcome in
        {Hangs, Returned(Some(PortDecode(src.entries[s].key, src.entries[s].cause)))}
  {
    BatchesCoverRecords(Decoded(src.entries, s), size);
  }

  /**
   * A cancellation seen at the top of an iteration stops reading there: no
   * member from there on is delivered, no synchronous batch is sent, and the
   * run returns nil unless a goroutine hangs.
   */
  lemma CancelledRunReturnsNil(size: nat, src: Source, polls: seq<Poll>, sink: Sink, s: nat)
    requires Opens(src)
    requires s == StopIndex(size, src.entries, polls, sink, 0)
    requires s < |src.entries| && PollAt(polls, s) == Cancelled
    ensures Expected(size, src, polls, sink).final == None
    ensures Concat(Expected(size, src, polls, sink).dispatched) <= Decoded(src.entries, s)
    ensures Expected(size, src, polls, sink).outcome in {Hangs, Returned(None)}
    ensures (forall g :: 0 <= g < |Expected(size, src, polls, sink).dispatched| ==> !Failed(sink, g))
      ==> Expected(size, src, polls, sink).outcome == Returned(None)
  {
    var records := Decoded(src.entries, s);
    BatchesCoverRecords(records, size);
    FailedCountNone(sink, |FullBatches(records, size)|);
  }

  /**
   * An error received from goroutine `g` at the top of an iteration stops
   * reading there and is what the run returns, unless another goroutine's
   * upsert failed too: that one can never send and the run hangs.
   */
  lemma ReceivedErrorIsReturned(size: nat, src: Source, polls: seq<Poll>, sink: Sink, s: nat, g: nat)
    requires Opens(src)
    requires s == StopIndex(size, src.entries, polls, sink, 0)
    requires s < |src.entries| && PollAt(polls, s) == Receive(g) && Ready(size, src.entries, sink, s, g)
    ensures Expected(size, src, polls, sink).final == None
    ensures Concat(Expected(size, src, polls, sink).dispatched) <= Decoded(src.entries, s)
    ensures Expected(size, src, polls, sink).outcome in
      {Hangs, Returned(Some(BulkUpsertFailed(AsyncResult(sink, g).value)))}
    ensures Expected(size, src, polls, sink).outcome == Hangs <==>
      exists h :: 0 <= h < |Expected(size, src, polls, sink).dispatched| && h != g && Failed(sink, h)
  {
    var records := Decoded(src.entries, s);
    BatchesCoverRecords(records, size);
    FailedCountOther(sink, |FullBatches(records, size)|, g);
  }

  /**
   * The error of the synchronous last BulkUpsert is what the run returns,
   * unless a goroutine's upsert failed: nothing receives its error any more
   * and the run hangs.
   */
  lemma FinalUpsertErrorIsReturned(size: int, src: Source, polls: seq<Poll>, sink: Sink)
    requires Expected(size, src, polls, sink).final.Some?
    ensures Expected(size, src, polls, sink).outcome in {Hangs, Returned(SinkError(sink.final))}
    ensures Expected(size, src, polls, sink).outcome == Hangs <==>
      exists g :: 0 <= g < |Expected(size, src, polls, sink).dispatched| && Failed(sink, g)
  {
    FinalBatchOnlyAtCleanEnd(size, src, polls, sink);
    var s := StopIndex(size, src.entries, polls, sink, 0);
    FailedCountNone(sink, |FullBatches(Decoded(src.entries, s), size)|);
  }

  /** A run over a file that opens hangs exactly when some dispatched goroutine failed and its error was not the one received. */
  lemma HangsIffUnreceivedFailure(size: nat, src: Source, polls: seq<Poll>, sink: Sink)
    requires Opens(src)
    ensures Expected(size, src, polls, sink).outcome == Hangs <==>
      exists g :: 0 <= g < |Expected(size, src, polls, sink).dispatched| && Failed(sink, g)
        && StopOf(size, src, polls, sink) != Received(g, AsyncResult(sink, g).value)
  {
    var s := StopIndex(size, src.entries, polls, sink, 0);
    var n := |FullBatches(Decoded(src.entries, s), size)|;
    var stop := StopOf(size, src, polls, sink);
    FailedCountNone(sink, n);
    if stop.Received? {
      FailedCountOther(sink, n, stop.goroutine);
    }
  }

  /** The error for a key that is not a string carries the opening `{`, not the offending key. */
  lemma NonStringKeyReportsOpeningDelimiter(size: int, src: Source, polls: seq<Poll>, sink: Sink, t: Token)
    requires Expected(size, src, polls, sink).outcome == Returned(Some(UnexpectedPortKeyType(t)))
    ensures t == Delim('{')
  {
  }

  // ---------------------------------------------------------------------------
  // The scenarios of the ingestor's tests

  function ValidEntries(): seq<Entry>
  {
    [ Member("AEAJM", NamedPort("", "Ajman")),
      Member("AEAUH", NamedPort("", "Abu Dhabi")),
      Member("AEDXB", NamedPort("", "Dubai")),
      Member("AEFJR", NamedPort("", "Al Fujayrah")) ]
  }

  function ValidFile(): Source
  {
    Source(None, None, Read(Delim('{')), ValidEntries())
  }

  /** Four ports with batch size 2: two batches, matched by the tests' matcher, no synchronous call, nil. */
  lemma BatchSizeTwoScenario()
    ensures Expected(2, ValidFile(), [], Sink([], None)) == Run(Returned(None),
      [ [NamedPort("AEAJM", "Ajman"), NamedPort("AEAUH", "Abu Dhabi")],
        [NamedPort("AEDXB", "Dubai"), NamedPort("AEFJR", "Al Fujayrah")] ],
      None)
    ensures DomainTest.PortsMatches([NamedPort("AEAJM", "Ajman"), NamedPort("AEAUH", "Abu Dhabi")],
      PortsValue(Expected(2, ValidFile(), [], Sink([], None)).dispatched[0]))
  {
    var entries := ValidEntries();
    CleanRunDeliversAllInOrder(2, ValidFile(), [], Sink([], None));
    var s := StopIndex(2, entries, [], Sink([], None), 0);
    assert s == 4;
    DecodedAllMembers(entries, 4);
    var records := Decoded(entries, 4);
    assert records == [NamedPort("AEAJM", "Ajman"), NamedPort("AEAUH", "Abu Dhabi"),
                       NamedPort("AEDXB", "Dubai"), NamedPort("AEFJR", "Al Fujayrah")];
    assert records[2..][2..] == [];
    assert FullBatches(records, 2) == [records[..2], records[2..][..2]];
    assert Remainder(records, 2) == [];
    assert records[..2] == [NamedPort("AEAJM", "Ajman"), NamedPort("AEAUH", "Abu Dhabi")];
    assert records[2..][..2] == [NamedPort("AEDXB", "Dubai"), NamedPort("AEFJR", "Al Fujayrah")];
    FailedCountNone(Sink([], None), 2);
    DomainTest.PortsMatchReflexive(records[..2]);
  }

  /** The same file with the default batch size 20 goes out in one synchronous call, whose error the run returns. */
  lemma DefaultBatchSizeUpsertErrorScenario()
    ensures Expected(BatchSizeDefault, ValidFile(), [], Sink([], Some("bulk err"))) == Run(
      Returned(Some(BulkUpsertFailed("bulk err"))),
      [],
      Some([ NamedPort("AEAJM", "Ajman"), NamedPort("AEAUH", "Abu Dhabi"),
             NamedPort("AEDXB", "Dubai"), NamedPort("AEFJR", "Al Fujayrah") ]))
  {
    var entries := ValidEntries();
    var sink := Sink([], Some("bulk err"));
    CleanRunDeliversAllInOrder(20, ValidFile(), [], sink);
    var s := StopIndex(20, entries, [], sink, 0);
    assert s == 4;
    DecodedAllMembers(entries, 4);
    assert FullBatches(Decoded(entries, 4), 20) == [];
    assert Decoded(entries, 4) == [ NamedPort("AEAJM", "Ajman"), NamedPort("AEAUH", "Abu Dhabi"),
             NamedPort("AEDXB", "Dubai"), NamedPort("AEFJR", "Al Fujayrah") ];
  }

  /** The failing files of the tests: a missing file, a first token that is not `{`, an unreadable key, a value that does not decode. */
  lemma FailingFileScenarios()
    ensures Expected(BatchSizeDefault, Source(Some("no such file"), None, Read(Delim('{')), []), [], Sink([], None)).outcome
      == Returned(Some(FileOpen("no such file")))
    ensures Expected(BatchSizeDefault, Source(None, None, Read(Str("abc")), []), [], Sink([], None)).outcome
      == Returned(Some(UnexpectedOpeningToken(Str("abc"))))
    ensures Expected(BatchSizeDefault, Source(None, None, Read(Delim('{')), [KeyReadFailed("invalid character '1'")]), [], Sink([], None)).outcome
      == Returned(Some(PortKeyRead("invalid character '1'")))
    ensures Expected(BatchSizeDefault, Source(None, None, Read(Delim('{')), [ValueDecodeFailed("ABC", "cannot unmarshal")]), [], Sink([], None)).outcome
      == Returned(Some(PortDecode("ABC", "cannot unmarshal")))
  {
  }
}
