/**
 The durable maintenance record: a generation counter and, while maintenance is requested, its
 inhibitor.  The file system is abstracted to the outcome of each stage of a transaction.
 */
module MaintenanceStores {
  import opened Wrappers

  const SCHEMA_VERSION: nat := 1
  const MAXIMUM_REQUESTER_BYTES: nat := 128
  const MAXIMUM_REASON_BYTES: nat := 4096

  datatype Inhibitor = Inhibitor(generation: nat, requester: string, reason: string)

  datatype Record = Record(schemaVersion: nat, lastGeneration: nat, inhibitor: Option<Inhibitor>)

  datatype Code =
    | Ok | Missing | InvalidState | UnsupportedSchema | IoError
    | AlreadyActive | OwnedByOther | TokenMismatch | GenerationExhausted

  datatype Result = Result(code: Code, record: Option<Record>, committed: bool)

  /** Failures of the file system, as the store reports them. */
  datatype Failure = FileMissing | FileInvalid | FileUnsupported | FileIoError

  datatype Write = Written | FailedBeforeCommit(failure: Failure) | SyncFailedAfterCommit

  /** What the file system does at each stage: lock, read, write (when reached), unlock. */
  datatype Disk = Disk(open: Option<Failure>, read: Option<Failure>, write: Write, finishFails: bool)

  const HEALTHY := Disk(None, None, Written, false)

  function FailureCode(failure: Failure): Code {
    match failure
    case FileMissing => Missing
    case FileInvalid => InvalidState
    case FileUnsupported => UnsupportedSchema
    case FileIoError => IoError
  }

  predicate OperationalFailure(code: Code) {
    code.Missing? || code.InvalidState? || code.UnsupportedSchema? || code.IoError?
  }

  predicate ValidRequester(requester: string) {
    0 < |requester| <= MAXIMUM_REQUESTER_BYTES
  }

  /** The invariant that reading a record checks. */
  predicate ValidRecord(record: Record) {
    && record.schemaVersion == SCHEMA_VERSION
    && record.lastGeneration <= MAX_UINT64
    && (record.inhibitor.Some? ==>
          && record.inhibitor.value.generation == record.lastGeneration != 0
          && ValidRequester(record.inhibitor.value.requester)
          && |record.inhibitor.value.reason| <= MAXIMUM_REASON_BYTES)
  }

  function Finished(result: Result, disk: Disk): Result {
    if disk.finishFails then result.(code := IoError) else result
  }

  /** A transaction that has read `durable`: its result and the record it leaves behind. */
  function Replaced(durable: Record, next: Record, disk: Disk): (Result, Record) {
    match disk.write
    case Written => (Finished(Result(Ok, Some(next), true), disk), next)
    case FailedBeforeCommit(failure) => (Finished(Result(FailureCode(failure), None, false), disk), durable)
    case SyncFailedAfterCommit => (Finished(Result(IoError, Some(next), true), disk), next)
  }

  function Activation(durable: Record, requester: string, reason: string): Record {
    Record(durable.schemaVersion, durable.lastGeneration + 1,
           Some(Inhibitor(durable.lastGeneration + 1, requester, reason)))
  }

  function Loaded(durable: Record, disk: Disk): Result {
    if disk.open.Some? then Result(FailureCode(disk.open.value), None, false)
    else if disk.read.Some? then Finished(Result(FailureCode(disk.read.value), None, false), disk)
    else Finished(Result(Ok, Some(durable), false), disk)
  }

  function Activated(durable: Record, requester: string, reason: string, disk: Disk): (Result, Record) {
    if !ValidRequester(requester) || |reason| > MAXIMUM_REASON_BYTES then
      (Result(InvalidState, None, false), durable)
    else if disk.open.Some? || disk.read.Some? then
      (Loaded(durable, disk), durable)
    else if durable.inhibitor.Some? then
      var code := if durable.inhibitor.value.requester == requester then AlreadyActive else OwnedByOther;
      (Finished(Result(code, Some(durable), false), disk), durable)
    else if durable.lastGeneration >= MAX_UINT64 then
      (Finished(Result(GenerationExhausted, Some(durable), false), disk), durable)
    else
      Replaced(durable, Activation(durable, requester, reason), disk)
  }

  function Released(durable: Record, generation: nat, requester: string, disk: Disk): (Result, Record) {
    if !ValidRequester(requester) then
      (Result(InvalidState, None, false), durable)
    else if disk.open.Some? || disk.read.Some? then
      (Loaded(durable, disk), durable)
    else if durable.inhibitor.None? || durable.inhibitor.value.generation != generation
            || durable.inhibitor.value.requester != requester
    then
      (Finished(Result(TokenMismatch, Some(durable), false), disk), durable)
    else
      Replaced(durable, durable.(inhibitor := None), disk)
  }

  /** Generation `g` was handed out once and is no longer held. */
  predicate IsReleased(durable: Record, g: nat) {
    0 < g <= durable.lastGeneration && (durable.inhibitor.Some? ==> durable.inhibitor.value.generation != g)
  }

  /** No transaction takes a generation back: counters only grow, and a released one stays released. */
  ghost predicate Advances(before: Record, after: Record) {
    && before.lastGeneration <= after.lastGeneration
    && (forall g :: IsReleased(before, g) ==> IsReleased(after, g))
    && (after.inhibitor.Some? && after.inhibitor != before.inhibitor ==>
          before.lastGeneration < after.inhibitor.value.generation)
  }

  /**
   Every transaction, whatever the file system does, keeps the record valid, never reuses a generation,
   reports `committed` exactly when it changed the record, and then reports the record it left.
   */
  lemma TransactionsAdvance(durable: Record, requester: string, reason: string, generation: nat, disk: Disk)
    requires ValidRecord(durable)
    ensures var (r, after) := Activated(durable, requester, reason, disk);
            && ValidRecord(after) && Advances(durable, after)
            && (r.committed <==> after != durable)
            && (r.committed ==> r.record == Some(after) && after.inhibitor.Some?)
            && (r.code.Ok? ==> r.committed)
            && (r.record.Some? ==> r.record == Some(after))
    ensures var (r, after) := Released(durable, generation, requester, disk);
            && ValidRecord(after) && Advances(durable, after)
            && (r.committed <==> after != durable)
            && (r.committed ==> r.record == Some(after) && IsReleased(after, generation) && after.inhibitor.None?)
            && (r.code.Ok? ==> r.committed)
            && (after != durable ==> durable.inhibitor == Some(Inhibitor(generation, requester, durable.inhibitor.value.reason)))
  {
  }

  /** The file system does everything asked of it. */
  predicate Works(disk: Disk) { disk.open.None? && disk.read.None? && disk.write.Written? && !disk.finishFails }

  /** What the file system refuses before the record is replaced changes nothing. */
  predicate Replaces(disk: Disk) { disk.open.None? && disk.read.None? && !disk.write.FailedBeforeCommit? }

  /** Both sizes are those the record's format allows. */
  predicate FieldsFit(requester: string, reason: string) { 1 <= |requester| <= 128 && |reason| <= 4096 }

  /**
   A request is granted exactly when the file system works, no inhibitor stands and a generation is left, and then the
   next one is handed out; the record is replaced exactly when the file system comes that far.
   */
  lemma ActivatedExactlyWhen(durable: Record, requester: string, reason: string, disk: Disk)
    requires ValidRecord(durable)
    ensures
      var (r, after) := Activated(durable, requester, reason, disk);
      var free := FieldsFit(requester, reason) && durable.inhibitor.None? && durable.lastGeneration < MAX_UINT64;
      && (r.code.Ok? <==> free && Works(disk))
      && (r.committed <==> free && Replaces(disk))
      && (r.committed ==>
            && after.lastGeneration == durable.lastGeneration + 1
            && after.inhibitor == Some(Inhibitor(durable.lastGeneration + 1, requester, reason)))
      && (!r.committed ==> after == durable)
      && (FieldsFit(requester, reason) && durable.inhibitor.Some? && Works(disk) ==>
            r.code == if durable.inhibitor.value.requester == requester then AlreadyActive else OwnedByOther)
  {
  }

  /** A release is granted exactly by the generation and the requester that hold it, and then nothing is held. */
  lemma ReleasedExactlyWhen(durable: Record, generation: nat, requester: string, disk: Disk)
    requires ValidRecord(durable)
    ensures
      var (r, after) := Released(durable, generation, requester, disk);
      var holds := && FieldsFit(requester, "") && durable.inhibitor.Some?
                   && durable.inhibitor.value.generation == generation && durable.inhibitor.value.requester == requester;
      && (r.code.Ok? <==> holds && Works(disk))
      && (r.committed <==> holds && Replaces(disk))
      && (r.committed ==> after.inhibitor == None && after.lastGeneration == durable.lastGeneration)
      && (!r.committed ==> after == durable)
      && (FieldsFit(requester, "") && !holds && Works(disk) ==> r.code.TokenMismatch?)
  {
  }

  class MaintenanceStore {
    var durable: Record

    /** A store over the record already on disk. */
    constructor (record: Record)
      ensures durable == record
    {
      durable := record;
    }

    method Load(disk: Disk) returns (r: Result)
      ensures r == Loaded(durable, disk)
    {
      if disk.open.Some? {
        return Result(FailureCode(disk.open.value), None, false);
      }
      r := ReadLocked(disk);
      r := Finished(r, disk);
    }

    method ReadLocked(disk: Disk) returns (r: Result)
      ensures r == if disk.read.Some? then Result(FailureCode(disk.read.value), None, false)
                   else Result(Ok, Some(durable), false)
    {
      if disk.read.Some? {
        return Result(FailureCode(disk.read.value), None, false);
      }
      return Result(Ok, Some(durable), false);
    }

    /** Write a temporary file, replace the record (the commit point), sync the directory. */
    method WriteLocked(next: Record, disk: Disk) returns (r: Result)
      modifies this
      ensures (Finished(r, disk), durable) == Replaced(old(durable), next, disk)
      ensures !disk.finishFails ==> (r, durable) == Replaced(old(durable), next, disk)
    {
      if disk.write.FailedBeforeCommit? {
        return Result(FailureCode(disk.write.failure), None, false);
      }
      durable := next;
      if disk.write.SyncFailedAfterCommit? {
        return Result(IoError, Some(next), true);
      }
      return Result(Ok, Some(next), true);
    }

    method Activate(requester: string, reason: string, disk: Disk) returns (r: Result)
      modifies this
      ensures (r, durable) == Activated(old(durable), requester, reason, disk)
    {
      if !ValidRequester(requester) || |reason| > MAXIMUM_REASON_BYTES {
        return Result(InvalidState, None, false);
      }
      if disk.open.Some? {
        return Result(FailureCode(disk.open.value), None, false);
      }
      r := ReadLocked(disk);
      if r.code == Ok {
        if durable.inhibitor.Some? {
          r := r.(code := if durable.inhibitor.value.requester == requester then AlreadyActive else OwnedByOther);
        } else if durable.lastGeneration >= MAX_UINT64 {
          r := r.(code := GenerationExhausted);
        } else {
          r := WriteLocked(Activation(durable, requester, reason), disk);
        }
      }
      r := Finished(r, disk);
    }

    method Release(generation: nat, requester: string, disk: Disk) returns (r: Result)
      modifies this
      ensures (r, durable) == Released(old(durable), generation, requester, disk)
    {
      if !ValidRequester(requester) {
        return Result(InvalidState, None, false);
      }
      if disk.open.Some? {
        return Result(FailureCode(disk.open.value), None, false);
      }
      r := ReadLocked(disk);
      if r.code == Ok {
        if durable.inhibitor.None? || durable.inhibitor.value.generation != generation
           || durable.inhibitor.value.requester != requester
        {
          r := r.(code := TokenMismatch);
        } else {
          r := WriteLocked(durable.(inhibitor := None), disk);
        }
      }
      r := Finished(r, disk);
    }
  }
}
