/**
 * The file ingestor (internal/adapters/handler/ingest/port.go): it reads a
 * JSON object whose members are ports keyed by identifier, stamps each port
 * with its key, gathers the ports into batches of `batchSize` and hands every
 * full batch to a goroutine that calls the port service's BulkUpsert; a
 * partial batch left at the end is upserted synchronously.
 *
 * The JSON decoder is given as the sequence of what it yields; the goroutines
 * are given by the result each one's BulkUpsert call returns; the `select` at
 * the top of each iteration is given by an oracle that says which case ran.
 */
module Ingest {

  import opened Optional
  import opened Domain

  const BatchSizeDefault: int := 20

  /** The one functional option the ingestor offers. */
  datatype IngestorOption = WithBatchSize(size: int)

  /** A JSON token as `encoding/json` yields it. */
  datatype Token = Delim(c: char) | Str(s: string) | Number(literal: string) | Bool(b: bool) | Null

  /** The first token of the file, or the error reading it. */
  datatype Opening = ReadFailed(cause: string) | Read(token: Token)

  /** What one object member gives the decoder: a key that cannot be read, a key that is not a string, a value that does not decode, or a port. */
  datatype Entry =
    | KeyReadFailed(cause: string)
    | NonStringKey(token: Token)
    | ValueDecodeFailed(key: string, cause: string)
    | Member(key: string, value: Port)

  /**
   * The file: the errors of opening and of Stat (None: success), its first
   * token, and the members the decoder yields while `More()` is true.
   */
  datatype Source = Source(openError: Option<string>, statError: Option<string>, opening: Opening, entries: seq<Entry>)

  /** The case the `select` at the top of an iteration runs: ctx.Done(), a receive from goroutine `goroutine`, or default. */
  datatype Poll = Cancelled | Receive(goroutine: nat) | Proceed

  /**
   * The port service: `async[g]` is what BulkUpsert returns for the g-th batch
   * dispatched to a goroutine (None: nil; past the end: nil), `final` what it
   * returns for the synchronous last batch.
   */
  datatype Sink = Sink(async: seq<Option<string>>, final: Option<string>)

  datatype Error =
    | FileOpen(cause: string)
    | FileStat(cause: string)
    | OpeningDelimiterRead(cause: string)
    | UnexpectedOpeningToken(token: Token)
    | PortKeyRead(cause: string)
    | UnexpectedPortKeyType(token: Token)
    | PortDecode(key: string, cause: string)
    | BulkUpsertFailed(cause: string)

  /** How Process ends: it returns an error or nil, it blocks forever in wg.Wait(), or it panics. */
  datatype Outcome = Returned(err: Option<Error>) | Hangs | Panics

  /** A run: its outcome, the batches handed to goroutines in order, and the synchronous last batch if there was one. */
  datatype Run = Run(outcome: Outcome, dispatched: seq<Ports>, final: Option<Ports>)

  /** Why the loop stopped reading. */
  datatype Stop =
    | Exhausted
    | Cancel
    | Received(goroutine: nat, cause: string)
    | Failure(err: Error)

  // ---------------------------------------------------------------------------
  // Batching

  /** The full batches of `size` records, cut from the front; none when `size` is 0. */
  function FullBatches(records: Ports, size: nat): (batches: seq<Ports>)
    ensures forall i :: 0 <= i < |batches| ==> |batches[i]| == size
    ensures size == 0 ==> batches == []
    decreases |records|
  {
    if size == 0 || |records| < size then []
    else [records[..size]] + FullBatches(records[size..], size)
  }

  /** The records left over after the full batches. */
  function Remainder(records: Ports, size: nat): (rest: Ports)
    ensures size > 0 ==> |rest| < size
    ensures size == 0 ==> rest == records
    decreases |records|
  {
    if size == 0 || |records| < size then records
    else Remainder(records[size..], size)
  }

  function Concat(batches: seq<Ports>): Ports
  {
    if batches == [] then [] else batches[0] + Concat(batches[1..])
  }

  /** The full batches followed by the remainder give back the records, in order. */
  lemma {:induction false} BatchesCoverRecords(records: Ports, size: nat)
    ensures Concat(FullBatches(records, size)) + Remainder(records, size) == records
    decreases |records|
  {
    if size > 0 && |records| >= size {
      BatchesCoverRecords(records[size..], size);
      var tail := FullBatches(records[size..], size);
      assert FullBatches(records, size)[1..] == tail;
      assert records == records[..size] + records[size..];
    }
  }

  /** Appending one record either completes the remainder into a new full batch or grows the remainder. */
  lemma {:induction false} AppendRecord(records: Ports, size: nat, p: Port)
    ensures |Remainder(records, size)| + 1 == size ==>
      FullBatches(records + [p], size) == FullBatches(records, size) + [Remainder(records, size) + [p]]
      && Remainder(records + [p], size) == []
    ensures |Remainder(records, size)| + 1 != size ==>
      FullBatches(records + [p], size) == FullBatches(records, size)
      && Remainder(records + [p], size) == Remainder(records, size) + [p]
    decreases |records|
  {
    if size > 0 && |records| >= size {
      var r := records + [p];
      assert r[..size] == records[..size];
      assert r[size..] == records[size..] + [p];
      AppendRecord(records[size..], size, p);
    } else if size > 0 && |records| + 1 == size {
      var r := records + [p];
      assert r[..size] == r;
      assert r[size..] == [];
    }
  }

  lemma {:induction false} InConcat(batches: seq<Ports>, i: nat, p: Port)
    requires i < |batches| && p in batches[i]
    ensures p in Concat(batches)
    decreases |batches|
  {
    if i > 0 {
      InConcat(batches[1..], i - 1, p);
    }
  }

  // ---------------------------------------------------------------------------
  // The oracles

  function PollAt(polls: seq<Poll>, k: nat): Poll
  {
    if k < |polls| then polls[k] else Proceed
  }

  function AsyncResult(sink: Sink, g: nat): Option<string>
  {
    if g < |sink.async| then sink.async[g] else None
  }

  predicate Failed(sink: Sink, g: nat)
  {
    AsyncResult(sink, g).Some?
  }

  /** How many of the first `n` goroutines have a failed BulkUpsert. */
  function FailedCount(sink: Sink, n: nat): nat
  {
    if n == 0 then 0 else FailedCount(sink, n - 1) + (if Failed(sink, n - 1) then 1 else 0)
  }

  lemma {:induction false} FailedCountNone(sink: Sink, n: nat)
    ensures FailedCount(sink, n) == 0 <==> forall g :: 0 <= g < n ==> !Failed(sink, g)
  {
    if n > 0 {
      FailedCountNone(sink, n - 1);
    }
  }

  /** With goroutine `g` known to have failed, another failed goroutine exists exactly when the count exceeds one. */
  lemma {:induction false} FailedCountOther(sink: Sink, n: nat, g: nat)
    requires g < n && Failed(sink, g)
    ensures FailedCount(sink, n) >= 1
    ensures FailedCount(sink, n) > 1 <==> exists h :: 0 <= h < n && h != g && Failed(sink, h)
  {
    if n - 1 == g {
      FailedCountNone(sink, g);
      assert FailedCount(sink, n) == FailedCount(sink, g) + 1;
      if exists h :: 0 <= h < n && h != g && Failed(sink, h) {
        var h :| 0 <= h < n && h != g && Failed(sink, h);
        assert h < g;
      }
    } else {
      FailedCountOther(sink, n - 1, g);
      if exists h :: 0 <= h < n && h != g && Failed(sink, h) {
        var h :| 0 <= h < n && h != g && Failed(sink, h);
        if h < n - 1 {
          assert exists h' :: 0 <= h' < n - 1 && h' != g && Failed(sink, h');
        }
      }
    }
  }

  // ---------------------------------------------------------------------------
  // Decoding

  /** A decoded port with its key as identifier. */
  function Stamp(e: Entry): Port
    requires e.Member?
  {
    e.value.(id := e.key)
  }

  /** The stamped ports among the first `k` entries. */
  function Decoded(entries: seq<Entry>, k: nat): Ports
    requires k <= |entries|
  {
    if k == 0 then []
    else Decoded(entries, k - 1) + (if entries[k - 1].Member? then [Stamp(entries[k - 1])] else [])
  }

  /** Every decoded port is a port of an entry before `k`, identified by that entry's key. */
  lemma {:induction false} DecodedFromEntries(entries: seq<Entry>, k: nat, p: Port)
    requires k <= |entries| && p in Decoded(entries, k)
    ensures exists i :: 0 <= i < k && entries[i].Member? && p == Stamp(entries[i])
  {
    if p !in Decoded(entries, k - 1) {
      assert p == Stamp(entries[k - 1]);
    } else {
      DecodedFromEntries(entries, k - 1, p);
    }
  }

  /** When every entry before `k` is a port, the decoded ports are those ports, stamped, in input order. */
  lemma {:induction false} DecodedAllMembers(entries: seq<Entry>, k: nat)
    requires k <= |entries|
    requires forall i :: 0 <= i < k ==> entries[i].Member?
    ensures |Decoded(entries, k)| == k
    ensures forall i :: 0 <= i < k ==> Decoded(entries, k)[i] == Stamp(entries[i])
  {
    if k > 0 {
      DecodedAllMembers(entries, k - 1);
    }
  }

  // ---------------------------------------------------------------------------
  // Where the loop stops

  /** At iteration `k`, goroutine `g` is waiting to send an error: it was launched and its upsert failed. */
  predicate Ready(size: nat, entries: seq<Entry>, sink: Sink, k: nat, g: nat)
    requires k <= |entries|
  {
    g < |FullBatches(Decoded(entries, k), size)| && Failed(sink, g)
  }

  /** The `select` of iteration `k` ends the loop. */
  predicate PollStops(size: nat, entries: seq<Entry>, polls: seq<Poll>, sink: Sink, k: nat)
    requires k <= |entries|
  {
    match PollAt(polls, k)
    case Cancelled => true
    case Receive(g) => Ready(size, entries, sink, k, g)
    case Proceed => false
  }

  /** Iteration `k` ends the loop: through the `select`, or because entry `k` is not a port. */
  predicate Halts(size: nat, entries: seq<Entry>, polls: seq<Poll>, sink: Sink, k: nat)
    requires k < |entries|
  {
    PollStops(size, entries, polls, sink, k) || !entries[k].Member?
  }

  /** The first iteration from `k` on that ends the loop, or the number of entries if none does. */
  function StopIndex(size: nat, entries: seq<Entry>, polls: seq<Poll>, sink: Sink, k: nat): (s: nat)
    requires k <= |entries|
    ensures k <= s <= |entries|
    ensures forall j :: k <= j < s ==> !Halts(size, entries, polls, sink, j)
    ensures s < |entries| ==> Halts(size, entries, polls, sink, s)
    decreases |entries| - k
  {
    if k == |entries| then k
    else if Halts(size, entries, polls, sink, k) then k
    else StopIndex(size, entries, polls, sink, k + 1)
  }

  /** The error a bad entry sets; a non-string key reports the type of the opening token, which the source formats in place of the key. */
  function EntryError(e: Entry, opening: Token): Error
    requires !e.Member?
  {
    match e
    case KeyReadFailed(cause) => PortKeyRead(cause)
    case NonStringKey(_) => UnexpectedPortKeyType(opening)
    case ValueDecodeFailed(key, cause) => PortDecode(key, cause)
  }

  /** Why the loop stopped at iteration `s`. */
  function StopAt(size: nat, entries: seq<Entry>, opening: Token, polls: seq<Poll>, sink: Sink, s: nat): Stop
    requires s <= |entries|
    requires s < |entries| ==> Halts(size, entries, polls, sink, s)
  {
    if s == |entries| then Exhausted
    else if PollAt(polls, s).Cancelled? then Cancel
    else if PollAt(polls, s).Receive? && Ready(size, entries, sink, s, PollAt(polls, s).goroutine) then
      Received(PollAt(polls, s).goroutine, AsyncResult(sink, PollAt(polls, s).goroutine).value)
    else Failure(EntryError(entries[s], opening))
  }

  /** The error held when the loop stops. */
  function StopError(stop: Stop): Option<Error>
  {
    match stop
    case Exhausted => None
    case Cancel => None
    case Received(_, cause) => Some(BulkUpsertFailed(cause))
    case Failure(e) => Some(e)
  }

  function SinkError(result: Option<string>): Option<Error>
  {
    match result
    case None => None
    case Some(cause) => Some(BulkUpsertFailed(cause))
  }

  // ---------------------------------------------------------------------------
  // What a run does

  /** The file opens, stats and starts with `{`. */
  predicate Opens(src: Source)
  {
    src.openError.None? && src.statError.None? && src.opening == Read(Delim('{'))
  }

  /**
   * The run the ingestor makes: the records before the stopping iteration,
   * cut into full batches for the goroutines; the remainder upserted only
   * when every entry was read; a hang whenever a failed goroutine's error is
   * never received.
   */
  function Expected(size: int, src: Source, polls: seq<Poll>, sink: Sink): (r: Run)
    ensures !Opens(src) || size < 0 ==> r.dispatched == [] && r.final == None
    ensures r.outcome.Returned? && r.outcome.err.Some? && r.outcome.err.value.BulkUpsertFailed? ==> Opens(src)
  {
    if src.openError.Some? then Run(Returned(Some(FileOpen(src.openError.value))), [], None)
    else if src.statError.Some? then Run(Returned(Some(FileStat(src.statError.value))), [], None)
    else if src.opening.ReadFailed? then Run(Returned(Some(OpeningDelimiterRead(src.opening.cause))), [], None)
    else if src.opening.token != Delim('{') then Run(Returned(Some(UnexpectedOpeningToken(src.opening.token))), [], None)
    else if size < 0 then Run(Panics, [], None)
    else
      var s := StopIndex(size, src.entries, polls, sink, 0);
      var records := Decoded(src.entries, s);
      var batches := FullBatches(records, size);
      var rest := Remainder(records, size);
      var stop := StopAt(size, src.entries, src.opening.token, polls, sink, s);
      var final := if stop.Exhausted? && |rest| > 0 then Some(rest) else None;
      var err := if final.Some? then SinkError(sink.final) else StopError(stop);
      var blocked := FailedCount(sink, |batches|) - (if stop.Received? then 1 else 0);
      Run(if blocked > 0 then Hangs else Returned(err), batches, final)
  }

  /** Every batch passed to BulkUpsert in a run, the synchronous one last. */
  function Upserts(r: Run): seq<Ports>
  {
    r.dispatched + (if r.final.Some? then [r.final.value] else [])
  }

  /** The records passed to BulkUpsert, batch after batch. */
  function Delivered(r: Run): Ports
  {
    Concat(r.dispatched) + (if r.final.Some? then r.final.value else [])
  }

  // ---------------------------------------------------------------------------
  // The ingestor

  class PortIngestor {
    var batchSize: int

    /** Starts from the default batch size and applies the options in order, so the last WithBatchSize wins. */
    constructor (opts: seq<IngestorOption>)
      ensures opts == [] ==> batchSize == BatchSizeDefault
      ensures opts != [] ==> batchSize == opts[|opts| - 1].size
    {
      var size := BatchSizeDefault;
      var i := 0;
      while i < |opts|
        invariant 0 <= i <= |opts|
        invariant i == 0 ==> size == BatchSizeDefault
        invariant i > 0 ==> size == opts[i - 1].size
      {
        match opts[i]
        case WithBatchSize(v) => size := v;
        i := i + 1;
      }
      batchSize := size;
    }

    /**
     * Process: check the file and its opening `{`, then read member after
     * member, stopping on cancellation, on a received goroutine error or on a
     * bad member; stamp each port with its key, dispatch every full batch,
     * upsert a non-empty remainder only if the loop did not stop early, and
     * wait for the goroutines. `dispatched` and `final` log the BulkUpsert calls.
     */
    method Process(src: Source, polls: seq<Poll>, sink: Sink)
      returns (outcome: Outcome, ghost dispatched: seq<Ports>, ghost final: Option<Ports>)
      ensures outcome == Expected(batchSize, src, polls, sink).outcome
      ensures dispatched == Expected(batchSize, src, polls, sink).dispatched
      ensures final == Expected(batchSize, src, polls, sink).final
    {
      dispatched, final := [], None;
      if src.openError.Some? {
        outcome := Returned(Some(FileOpen(src.openError.value)));
        return;
      }
      if src.statError.Some? {
        outcome := Returned(Some(FileStat(src.statError.value)));
        return;
      }
      var token: Token;
      match src.opening
      case ReadFailed(cause) =>
        outcome := Returned(Some(OpeningDelimiterRead(cause)));
        return;
      case Read(t) =>
        token := t;
      if token != Delim('{') {
        outcome := Returned(Some(UnexpectedOpeningToken(token)));
        return;
      }
      if batchSize < 0 {
        // make(domain.Ports, 0, i.batchSize) panics on a negative capacity
        outcome := Panics;
        return;
      }
      var size: nat := batchSize;
      var entries := src.entries;

      var batch: Ports := [];
      var launched: nat := 0;   // goroutines started (the WaitGroup count)
      var blocked: nat := 0;    // goroutines whose upsert failed, not yet received from errCh
      var err: Option<Error> := None;
      var done := false;
      ghost var stop := Exhausted;
      var k := 0;
      while !done && k < |entries|
        invariant 0 <= k <= |entries|
        invariant StopIndex(size, entries, polls, sink, 0) == StopIndex(size, entries, polls, sink, k)
        invariant batch == Remainder(Decoded(entries, k), size)
        invariant dispatched == FullBatches(Decoded(entries, k), size)
        invariant launched == |dispatched|
        invariant blocked + (if stop.Received? then 1 else 0) == FailedCount(sink, launched)
        invariant !done ==> err == None && stop == Exhausted
        invariant done ==> k < |entries| && Halts(size, entries, polls, sink, k)
        invariant done ==> stop == StopAt(size, entries, token, polls, sink, k) && err == StopError(stop)
      {
        var poll := PollAt(polls, k);
        if poll.Cancelled? {
          done := true;
          stop := Cancel;
        } else if poll.Receive? && poll.goroutine < launched && Failed(sink, poll.goroutine) {
          FailedCountOther(sink, launched, poll.goroutine);
          var cause := AsyncResult(sink, poll.goroutine).value;
          err := Some(BulkUpsertFailed(cause));
          blocked := blocked - 1;
          done := true;
          stop := Received(poll.goroutine, cause);
        } else {
          match entries[k]
          case KeyReadFailed(cause) =>
            err := Some(PortKeyRead(cause));
            done := true;
            stop := Failure(err.value);
          case NonStringKey(_) =>
            err := Some(UnexpectedPortKeyType(token));
            done := true;
            stop := Failure(err.value);
          case ValueDecodeFailed(key, cause) =>
            err := Some(PortDecode(key, cause));
            done := true;
            stop := Failure(err.value);
          case Member(key, value) =>
            var port := value.(id := key);
            AppendRecord(Decoded(entries, k), size, port);
            batch := batch + [port];
            if |batch| == size {
              dispatched := dispatched + [batch];
              if Failed(sink, launched) {
                blocked := blocked + 1;
              }
              launched := launched + 1;
              batch := [];
            }
            k := k + 1;
        }
      }

      if !done && |batch| > 0 {
        final := Some(batch);
        err := SinkError(sink.final);
      }
      if blocked > 0 {
        outcome := Hangs;
      } else {
        outcome := Returned(err);
      }
    }
  }
}
