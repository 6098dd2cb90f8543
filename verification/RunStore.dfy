/** A run's durable state: journal, manifest cache and lease, and what the store does to them (run_context.py). */
module RunStore {
  import opened Wrappers
  import opened JournalText

  datatype RunStatus = Pending | Running | Success | Completed | Failed | Interrupted | Cancelled | OtherStatus(name: string)

  predicate Final(status: RunStatus) {
    status == Success || status == Completed || status == Failed || status == Interrupted || status == Cancelled
  }

  datatype Fence = Fence(owner: string, token: nat)

  datatype Lease = Lease(fence: Fence, expires: real)

  /** `fenceToken` is 0 until a lease owner first writes. */
  datatype Manifest = Manifest(
    status: RunStatus, stage: string, nextStage: string, lastSeq: nat, endedAt: Option<real>,
    fenceToken: nat, fenceOwner: Option<string>)

  const FIRST_STAGE := "received"
  const FIRST_NEXT_STAGE := "summarize_messages"

  datatype Disk = Disk(journal: string, manifest: Option<Manifest>, lease: Option<Lease>)

  /** A store object is bound to a lease epoch, or to none. */
  type Binding = Option<Fence>

  datatype StoreError = FenceLost | JournalCorrupted | ManifestMissing | Died

  datatype Flags = Flags(failedResume: bool, fenceAdvance: bool, fenceHeld: bool)

  const NO_FLAGS := Flags(false, false, false)

  datatype Updates = Updates(
    status: Option<RunStatus>, stage: Option<string>, nextStage: Option<string>, lastSeq: Option<nat>, fence: Option<Fence>)

  const NO_UPDATES := Updates(None, None, None, None, None)

  // -------------------------------------------------------------------------- fencing

  /** The lease file names this binding and has not run out. */
  predicate HoldsLease(lease: Option<Lease>, fence: Fence, now: real) {
    lease.Some? && lease.value.fence == fence && now < lease.value.expires
  }

  predicate GuardPasses(disk: Disk, binding: Binding, now: real) {
    match binding
    case None => disk.manifest.None? || disk.manifest.value.fenceToken == 0
    case Some(fence) => HoldsLease(disk.lease, fence, now)
  }

  predicate ManifestAdmits(manifest: Manifest, binding: Binding, fenceAdvance: bool) {
    manifest.fenceToken == 0
    || (binding.Some?
        && if fenceAdvance then manifest.fenceToken <= binding.value.token
           else manifest.fenceToken == binding.value.token && manifest.fenceOwner == Some(binding.value.owner))
  }

  // ------------------------------------------------------------------------- manifest

  /** Completed and cancelled runs stay so; a failed one is only ever resumed on request. */
  function NextStatus(current: RunStatus, wanted: RunStatus, failedResume: bool): RunStatus {
    if (current == Completed || current == Cancelled) && wanted != current then current
    else if current == Failed && wanted != Failed && !(failedResume && wanted == Running) then current
    else wanted
  }

  /** A requested status is taken, unless the run is over for good or a failed one is resumed without a request. */
  lemma RequestedStatusIsTaken(current: RunStatus, wanted: RunStatus, failedResume: bool)
    ensures var next := NextStatus(current, wanted, failedResume);
      && (next == wanted || next == current)
      && (next == wanted <==>
          || wanted == current
          || current in {Pending, Running, Success, Interrupted}
          || current.OtherStatus?
          || (current == Failed && wanted == Running && failedResume))
  {
  }

  function EndedAt(current: Option<real>, status: RunStatus, now: real): Option<real> {
    if Final(status) then (if current.Some? then current else Some(now))
    else if status == Running then None
    else current
  }

  function Updated(manifest: Manifest, updates: Updates, failedResume: bool, now: real): Manifest {
    var status := if updates.status.Some? then NextStatus(manifest.status, updates.status.value, failedResume)
                  else manifest.status;
    Manifest(
      status,
      if updates.stage.Some? then updates.stage.value else manifest.stage,
      if updates.nextStage.Some? then updates.nextStage.value else manifest.nextStage,
      if updates.lastSeq.Some? && updates.lastSeq.value > manifest.lastSeq then updates.lastSeq.value else manifest.lastSeq,
      if updates.status.Some? then EndedAt(manifest.endedAt, status, now) else manifest.endedAt,
      if updates.fence.Some? then updates.fence.value.token else manifest.fenceToken,
      if updates.fence.Some? then Some(updates.fence.value.owner) else manifest.fenceOwner)
  }

  /** The locked part of `_update_manifest`, on a manifest that is there. */
  function UpdateLoaded(disk: Disk, binding: Binding, now: real, flags: Flags, updates: Updates): (Disk, Option<StoreError>) {
    if disk.manifest.None? then (disk, Some(ManifestMissing))
    else if !flags.fenceHeld && !GuardPasses(disk, binding, now) then (disk, Some(FenceLost))
    else if !ManifestAdmits(disk.manifest.value, binding, flags.fenceAdvance) then (disk, Some(FenceLost))
    else (disk.(manifest := Some(Updated(disk.manifest.value, updates, flags.failedResume, now))), None)
  }

  /**
   * A manifest is written exactly when nobody holds a fence on it or the store has that very fence
   * (a newer one, to advance it), and the lease is still the store's unless it is held already.
   */
  lemma ManifestIsWrittenIff(disk: Disk, binding: Binding, now: real, flags: Flags, updates: Updates)
    ensures var (after, error) := UpdateLoaded(disk, binding, now, flags, updates);
      && after.journal == disk.journal && after.lease == disk.lease
      && (error.Some? ==> after == disk && error == Some(if disk.manifest.None? then ManifestMissing else FenceLost))
      && (error.None? <==>
          && disk.manifest.Some?
          && match binding
             case None => disk.manifest.value.fenceToken == 0
             case Some(fence) =>
               && (disk.manifest.value.fenceToken == 0
                   || (if flags.fenceAdvance then disk.manifest.value.fenceToken <= fence.token
                       else disk.manifest.value.fenceToken == fence.token && disk.manifest.value.fenceOwner == Some(fence.owner)))
               && (flags.fenceHeld
                   || (disk.lease.Some? && disk.lease.value.fence.owner == fence.owner
                       && disk.lease.value.fence.token == fence.token && now < disk.lease.value.expires)))
  {
  }

  /** What a written manifest holds: what was asked for, except that records are never uncounted and runs that are over stay so. */
  lemma WrittenManifest(disk: Disk, binding: Binding, now: real, flags: Flags, updates: Updates)
    requires UpdateLoaded(disk, binding, now, flags, updates).1.None?
    ensures disk.manifest.Some? && UpdateLoaded(disk, binding, now, flags, updates).0.manifest.Some?
    ensures var m, n := disk.manifest.value, UpdateLoaded(disk, binding, now, flags, updates).0.manifest.value;
      && (updates.stage == None ==> n.stage == m.stage) && (updates.stage.Some? ==> n.stage == updates.stage.value)
      && (updates.nextStage == None ==> n.nextStage == m.nextStage)
      && (updates.nextStage.Some? ==> n.nextStage == updates.nextStage.value)
      && n.lastSeq >= m.lastSeq && (n.lastSeq == m.lastSeq || updates.lastSeq == Some(n.lastSeq))
      && (updates.lastSeq.Some? ==> n.lastSeq >= updates.lastSeq.value)
      && (updates.fence == None ==> n.fenceToken == m.fenceToken && n.fenceOwner == m.fenceOwner)
      && (updates.fence.Some? ==> n.fenceToken == updates.fence.value.token && n.fenceOwner == Some(updates.fence.value.owner))
      && n.status == if updates.status.Some? then NextStatus(m.status, updates.status.value, flags.failedResume) else m.status
  {
  }

  /** The end time: kept from when the run first was over, taken back when it runs again. */
  lemma EndTimeFollows(disk: Disk, binding: Binding, now: real, flags: Flags, updates: Updates)
    requires UpdateLoaded(disk, binding, now, flags, updates).1.None?
    ensures disk.manifest.Some? && UpdateLoaded(disk, binding, now, flags, updates).0.manifest.Some?
    ensures var m, n := disk.manifest.value, UpdateLoaded(disk, binding, now, flags, updates).0.manifest.value;
      if updates.status.None? then n.endedAt == m.endedAt
      else match n.status
        case Running => n.endedAt == None
        case Pending => n.endedAt == m.endedAt
        case OtherStatus(_) => n.endedAt == m.endedAt
        case _ => n.endedAt.Some? && (m.endedAt.Some? ==> n.endedAt == m.endedAt) && (m.endedAt.None? ==> n.endedAt == Some(now))
  {
  }

  // --------------------------------------------------------------- stages in the journal

  datatype Stages = Stages(stage: string, nextStage: string)

  function StagesAfter(before: Stages, record: Record): Stages {
    if record.kind == StageCheckpoint
    then Stages(record.stage, if NextStage in record.payload then record.payload[NextStage] else before.nextStage)
    else before
  }

  /** The stages after reading all the records, from the ones given. */
  function StagesOf(before: Stages, records: seq<Record>): Stages
    decreases |records|
  {
    if records == [] then before
    else StagesAfter(StagesOf(before, records[..|records| - 1]), records[|records| - 1])
  }

  const FIRST_STAGES := Stages(FIRST_STAGE, FIRST_NEXT_STAGE)

  function StatusNamed(text: string): RunStatus {
    if text == "pending" then Pending
    else if text == "running" then Running
    else if text == "success" then Success
    else if text == "completed" then Completed
    else if text == "failed" then Failed
    else if text == "interrupted" then Interrupted
    else if text == "cancelled" then Cancelled
    else OtherStatus(text)
  }

  /** A rebuild takes the status from the last final checkpoint or status record. */
  function StatusAfter(before: RunStatus, record: Record): RunStatus {
    if record.kind == StageCheckpoint && (record.stage == "completed" || record.stage == "cancelled")
    then StatusNamed(record.stage)
    else if record.kind == RunStatusRecord && StatusKey in record.payload then StatusNamed(record.payload[StatusKey])
    else before
  }

  function StatusFrom(before: RunStatus, records: seq<Record>): RunStatus
    decreases |records|
  {
    if records == [] then before
    else StatusAfter(StatusFrom(before, records[..|records| - 1]), records[|records| - 1])
  }

  /** The manifest `_rebuild_manifest_from_journal` writes: no fence, and what the records say. */
  function Rebuilt(records: seq<Record>): Manifest
    requires records != []
  {
    var stages := StagesOf(FIRST_STAGES, records);
    Manifest(StatusFrom(Pending, records), stages.stage, stages.nextStage, AsCount(records[|records| - 1].number), None, 0, None)
  }

  lemma StatusNames(text: string)
    ensures StatusNamed("pending") == Pending && StatusNamed("running") == Running && StatusNamed("success") == Success
    ensures StatusNamed("completed") == Completed && StatusNamed("failed") == Failed
    ensures StatusNamed("interrupted") == Interrupted && StatusNamed("cancelled") == Cancelled
    ensures text !in {"pending", "running", "success", "completed", "failed", "interrupted", "cancelled"} ==>
              StatusNamed(text) == OtherStatus(text)
  {
  }

  /** A checkpoint of a finished run, or a status record that names a status. */
  predicate NamesStatus(record: Record) {
    || (record.kind == StageCheckpoint && record.stage in {"completed", "cancelled"})
    || (record.kind == RunStatusRecord && StatusKey in record.payload)
  }

  lemma {:induction false} StatusWithoutName(before: RunStatus, records: seq<Record>)
    requires forall j | 0 <= j < |records| :: !NamesStatus(records[j])
    ensures StatusFrom(before, records) == before
  {
    if records != [] {
      StatusWithoutName(before, records[..|records| - 1]);
    }
  }

  lemma {:induction false} StatusOfLast(before: RunStatus, records: seq<Record>, i: nat)
    requires i < |records| && NamesStatus(records[i])
    requires forall j | i < j < |records| :: !NamesStatus(records[j])
    ensures records[i].kind == StageCheckpoint ==>
              StatusFrom(before, records) == if records[i].stage == "completed" then Completed else Cancelled
    ensures records[i].kind == RunStatusRecord ==> StatusFrom(before, records) == StatusNamed(records[i].payload[StatusKey])
  {
    StatusNames("");
    if i < |records| - 1 {
      StatusOfLast(before, records[..|records| - 1], i);
    }
  }

  /** A rebuilt manifest counts the records, takes the status the last of them names, if one does, and knows no fence. */
  lemma RebuiltSays(records: seq<Record>, i: nat)
    requires records != [] && records[|records| - 1].number > 0
    ensures var m := Rebuilt(records);
      && m.lastSeq == records[|records| - 1].number && m.endedAt == None && m.fenceToken == 0 && m.fenceOwner == None
      && ((forall j | 0 <= j < |records| :: !NamesStatus(records[j])) ==> m.status == Pending)
      && (i < |records| && NamesStatus(records[i]) && (forall j | i < j < |records| :: !NamesStatus(records[j])) ==>
            && (records[i].kind == StageCheckpoint ==> m.status == if records[i].stage == "completed" then Completed else Cancelled)
            && (records[i].kind == RunStatusRecord ==> m.status == StatusNamed(records[i].payload[StatusKey])))
  {
    if forall j | 0 <= j < |records| :: !NamesStatus(records[j]) {
      StatusWithoutName(Pending, records);
    } else if i < |records| && NamesStatus(records[i]) && forall j | i < j < |records| :: !NamesStatus(records[j]) {
      StatusOfLast(Pending, records, i);
    }
  }

  method RebuildManifest(records: seq<Record>) returns (manifest: Manifest)
    requires records != []
    ensures manifest == Rebuilt(records)
  {
    var stages, status := FIRST_STAGES, Pending;
    for i := 0 to |records|
      invariant stages == StagesOf(FIRST_STAGES, records[..i]) && status == StatusFrom(Pending, records[..i])
    {
      var record := records[i];
      if record.kind == StageCheckpoint {
        stages := Stages(
          record.stage, if NextStage in record.payload then record.payload[NextStage] else stages.nextStage);
        if record.stage == "completed" || record.stage == "cancelled" {
          status := StatusNamed(record.stage);
        }
      } else if record.kind == RunStatusRecord && StatusKey in record.payload {
        status := StatusNamed(record.payload[StatusKey]);
      }
      assert records[..i + 1][..i] == records[..i];
    }
    assert records[..|records|] == records;
    return Manifest(status, stages.stage, stages.nextStage, AsCount(records[|records| - 1].number), None, 0, None);
  }

  datatype Loaded = Loaded(disk: Disk, manifest: Option<Manifest>)

  /** A manifest that is there is loaded as it is; a missing one is what the records of the journal make of it, if it has any. */
  lemma LoadedIs(codec: Codec, runId: string, disk: Disk)
    ensures var loaded := LoadManifest(codec, runId, disk);
      && loaded.disk.manifest == loaded.manifest && loaded.disk.lease == disk.lease
      && (disk.manifest.Some? ==> loaded.disk == disk)
      && (disk.manifest.None? ==>
            match ReadingOf(codec, runId, disk.journal, true)
            case Corrupt => loaded.disk == disk
            case Read(records, repaired) =>
              && loaded.disk.journal == (if repaired.Some? then repaired.value else disk.journal)
              && loaded.manifest == if records == [] then None else Some(Rebuilt(records)))
  {
  }

  /** `load_manifest`: a missing manifest is rebuilt from the journal, unless there is nothing to rebuild it from. */
  function LoadManifest(codec: Codec, runId: string, disk: Disk): Loaded {
    if disk.manifest.Some? then Loaded(disk, disk.manifest)
    else
      var reading := ReadingOf(codec, runId, disk.journal, true);
      var ready := Repaired(disk, reading);
      if reading.Corrupt? || reading.records == [] then Loaded(ready, None)
      else Loaded(ready.(manifest := Some(Rebuilt(reading.records))), Some(Rebuilt(reading.records)))
  }

  /** `_update_manifest`: it loads the manifest first, which may rebuild it. */
  function UpdateManifest(
      codec: Codec, runId: string, disk: Disk, binding: Binding, now: real, flags: Flags, updates: Updates)
    : (Disk, Option<StoreError>)
  {
    var loaded := LoadManifest(codec, runId, disk);
    if loaded.manifest.None? then (loaded.disk, Some(ManifestMissing))
    else UpdateLoaded(loaded.disk, binding, now, flags, updates)
  }

  function FreshManifest(binding: Binding): Manifest {
    Manifest(
      Running, FIRST_STAGE, FIRST_NEXT_STAGE, 0, None,
      if binding.Some? then binding.value.token else 0,
      if binding.Some? then Some(binding.value.owner) else None)
  }

  function Initialize(disk: Disk, binding: Binding, now: real): (Disk, Option<StoreError>) {
    if disk.manifest.Some? then (disk, None)
    else if !GuardPasses(disk, binding, now) then (disk, Some(FenceLost))
    else (disk.(manifest := Some(FreshManifest(binding))), None)
  }

  /** `initialize` writes a manifest only where there is none, and only if nobody else holds the lease. */
  lemma InitializedIff(disk: Disk, binding: Binding, now: real)
    ensures var (after, error) := Initialize(disk, binding, now);
      && after.journal == disk.journal && after.lease == disk.lease
      && (disk.manifest.Some? ==> after == disk && error == None)
      && (error.Some? <==> 
            && disk.manifest.None? && binding.Some?
            && (disk.lease.None? || disk.lease.value.fence.owner != binding.value.owner
                || disk.lease.value.fence.token != binding.value.token || disk.lease.value.expires <= now))
      && (error.Some? ==> after == disk && error == Some(FenceLost))
      && (disk.manifest.None? && error.None? ==>
            && after.manifest.Some?
            && after.manifest.value.status == Running && after.manifest.value.lastSeq == 0 && after.manifest.value.endedAt == None
            && after.manifest.value.stage == "received" && after.manifest.value.nextStage == "summarize_messages"
            && after.manifest.value.fenceToken == (if binding.Some? then binding.value.token else 0)
            && after.manifest.value.fenceOwner == if binding.Some? then Some(binding.value.owner) else None)
  {
  }

  // --------------------------------------------------------------------------- append

  datatype Draft = Draft(channel: Channel, kind: RecordKind, stage: string, payload: Payload)

  function RecordFor(runId: string, draft: Draft, number: nat): Record {
    Record(number, runId, draft.channel, draft.kind, draft.stage, draft.payload)
  }

  /** The process may die after any number of bytes of the new line; `None` is a write that finishes. */
  type WriteCrash = Option<nat>

  datatype Appended = Appended(disk: Disk, written: Option<Record>, error: Option<StoreError>)

  function Repaired(disk: Disk, reading: Reading): Disk {
    if reading.Read? && reading.repaired.Some? then disk.(journal := reading.repaired.value) else disk
  }

  function AsCount(number: int): nat {
    if number > 0 then number else 0
  }

  function Larger(a: nat, b: nat): nat {
    if a > b then a else b
  }

  predicate Whole(codec: Codec, record: Record, crash: WriteCrash) {
    crash.Some? ==> crash.value > |codec.encode(record)|
  }

  function WrittenBytes(codec: Codec, record: Record, crash: WriteCrash): string {
    var line := codec.encode(record) + "\n";
    if Whole(codec, record, crash) then line else line[..crash.value]
  }

  /**
   * `append` under the journal lock, after its fence guard. `written` is the record once its
   * line reached the file whole, even when the manifest update after it is refused or never
   * happens. A missing manifest cannot be rebuilt here: the rebuild waits for the lock that
   * is held until it gives up.
   */
  function AppendLocked(
      codec: Codec, runId: string, disk: Disk, binding: Binding, now: real, draft: Draft, crash: WriteCrash): Appended
  {
    if disk.manifest.None? then Appended(disk, None, Some(ManifestMissing))
    else
      var reading := ReadingOf(codec, runId, disk.journal, true);
      if reading.Corrupt? then Appended(disk, None, Some(JournalCorrupted))
      else
        var ready := Repaired(disk, reading);
        var number := Larger(disk.manifest.value.lastSeq, |reading.records|) + 1;
        var record := RecordFor(runId, draft, number);
        var after := ready.(journal := ready.journal + WrittenBytes(codec, record, crash));
        if crash.Some? then Appended(after, if Whole(codec, record, crash) then Some(record) else None, Some(Died))
        else
          var (noted, error) := Counted(after, binding, now, number);
          Appended(noted, Some(record), error)
  }

  function Counted(disk: Disk, binding: Binding, now: real, number: nat): (Disk, Option<StoreError>) {
    UpdateLoaded(disk, binding, now, NO_FLAGS.(fenceHeld := true), NO_UPDATES.(lastSeq := Some(number)))
  }

  /** `append` with its guard just before. A bound store holds the lease lock over both; an unbound one holds nothing. */
  function Append(
      codec: Codec, runId: string, disk: Disk, binding: Binding, now: real, draft: Draft, crash: WriteCrash): Appended
  {
    if !GuardPasses(disk, binding, now) then Appended(disk, None, Some(FenceLost))
    else AppendLocked(codec, runId, disk, binding, now, draft, crash)
  }

  /**
   * What an append that writes leaves in the file: behind the repaired text stands the line of one record
   * with the content asked for, numbered behind both what the manifest counts and what the journal holds.
   */
  lemma AppendWrites(codec: Codec, runId: string, disk: Disk, binding: Binding, now: real, draft: Draft, crash: WriteCrash)
    ensures var out := Append(codec, runId, disk, binding, now, draft, crash);
      && out.disk.lease == disk.lease
      && (out.written.Some? ==>
            var record, reading := out.written.value, ReadingOf(codec, runId, disk.journal, true);
            && record.runId == runId && record.channel == draft.channel && record.kind == draft.kind
            && record.stage == draft.stage && record.payload == draft.payload
            && reading.Read? && disk.manifest.Some?
            && record.number > |reading.records| && record.number > disk.manifest.value.lastSeq
            && (record.number == |reading.records| + 1 || record.number == disk.manifest.value.lastSeq + 1)
            && out.disk.journal == (if reading.repaired.Some? then reading.repaired.value else disk.journal) + codec.encode(record) + "\n")
      && (crash.None? && out.written.None? ==> out.disk == disk && out.error in {Some(ManifestMissing), Some(JournalCorrupted), Some(FenceLost)})
      && (out.error.None? ==> out.written.Some? && out.disk.manifest.Some? && out.disk.manifest.value.lastSeq == out.written.value.number)
  {
    var reading := ReadingOf(codec, runId, disk.journal, true);
    if GuardPasses(disk, binding, now) && disk.manifest.Some? && reading.Read? {
      var number := Larger(disk.manifest.value.lastSeq, |reading.records|) + 1;
      var line := codec.encode(RecordFor(runId, draft, number)) + "\n";
      assert Repaired(disk, reading).journal + line
          == Repaired(disk, reading).journal + codec.encode(RecordFor(runId, draft, number)) + "\n";
    }
  }

  /** Why an append fails, in the order the reasons are looked at. */
  lemma AppendFails(codec: Codec, runId: string, disk: Disk, binding: Binding, now: real, draft: Draft, crash: WriteCrash)
    ensures var out, guarded := Append(codec, runId, disk, binding, now, draft, crash), GuardPasses(disk, binding, now);
      && (!guarded ==> out == Appended(disk, None, Some(FenceLost)))
      && (guarded && disk.manifest.None? ==> out == Appended(disk, None, Some(ManifestMissing)))
      && (guarded && disk.manifest.Some? && ReadingOf(codec, runId, disk.journal, true).Corrupt? ==>
            out == Appended(disk, None, Some(JournalCorrupted)))
      && (guarded && disk.manifest.Some? && ReadingOf(codec, runId, disk.journal, true).Read? ==>
            if crash.Some? then out.error == Some(Died) && out.disk.manifest == disk.manifest
            else out.written.Some? && (out.error.Some? ==> out.error == Some(FenceLost) && out.disk.manifest == disk.manifest))
  {
  }

  // ----------------------------------------------------------------------- checkpoint

  datatype CheckpointCrash = NoCrash | InAppend(bytes: nat) | BeforeManifest

  /** The stage the caller names is put first, so a payload with its own wins. */
  function CheckpointDraft(stage: string, nextStage: string, channel: Channel, payload: Payload): Draft {
    Draft(channel, StageCheckpoint, stage, map[NextStage := nextStage] + payload)
  }

  /** A payload that names a next stage of its own keeps it; all its other entries stay either way. */
  lemma CheckpointKeepsPayload(stage: string, nextStage: string, channel: Channel, payload: Payload)
    ensures var draft := CheckpointDraft(stage, nextStage, channel, payload);
      && draft.stage == stage && draft.kind == StageCheckpoint && draft.channel == channel
      && draft.payload.Keys == payload.Keys + {NextStage}
      && (forall key | key in payload :: draft.payload[key] == payload[key])
      && (NextStage !in payload ==> draft.payload[NextStage] == nextStage)
  {
  }

  function CheckpointUpdates(status: RunStatus, stage: string, nextStage: string, number: nat): Updates {
    Updates(Some(status), Some(stage), Some(nextStage), Some(number), None)
  }

  /** The manifest update at the end of `checkpoint` has its own fence check at its own time `later`. */
  function Checkpoint(
      codec: Codec, runId: string, disk: Disk, binding: Binding, now: real, later: real,
      stage: string, nextStage: string, status: RunStatus, channel: Channel, payload: Payload, crash: CheckpointCrash): Appended
  {
    var draft := CheckpointDraft(stage, nextStage, channel, payload);
    var appended := Append(codec, runId, disk, binding, now, draft, if crash.InAppend? then Some(crash.bytes) else None);
    if appended.error.Some? || appended.written.None? then appended
    else if crash.BeforeManifest? then appended.(error := Some(Died))
    else
      var number := appended.written.value.number;
      var updates := CheckpointUpdates(status, stage, nextStage, AsCount(number));
      var (after, error) := UpdateManifest(codec, runId, appended.disk, binding, later, NO_FLAGS, updates);
      Appended(after, appended.written, error)
  }

  /**
   * A checkpoint succeeds exactly when its append does and the guard still passes at the time of the manifest
   * update. The manifest then has the stages asked for and counts the record; otherwise it is as the append left it.
   */
  lemma CheckpointSucceedsIff(
      codec: Codec, runId: string, disk: Disk, binding: Binding, now: real, later: real,
      stage: string, nextStage: string, status: RunStatus, channel: Channel, payload: Payload, crash: CheckpointCrash)
    ensures var draft := CheckpointDraft(stage, nextStage, channel, payload);
      var appended := Append(codec, runId, disk, binding, now, draft, if crash.InAppend? then Some(crash.bytes) else None);
      var out := Checkpoint(codec, runId, disk, binding, now, later, stage, nextStage, status, channel, payload, crash);
      && out.written == appended.written && out.disk.journal == appended.disk.journal && out.disk.lease == disk.lease
      && (out.error.None? <==> appended.error.None? && crash.NoCrash? && GuardPasses(appended.disk, binding, later))
      && (out.error.Some? ==>
            out.disk == appended.disk
            && out.error == if appended.error.Some? then appended.error else if crash.BeforeManifest? then Some(Died) else Some(FenceLost))
      && (out.error.None? ==>
            && disk.manifest.Some? && out.disk.manifest.Some? && out.written.Some?
            && out.disk.manifest.value.stage == stage && out.disk.manifest.value.nextStage == nextStage
            && out.disk.manifest.value.lastSeq == out.written.value.number
            && out.disk.manifest.value.status == NextStatus(disk.manifest.value.status, status, false))
  {
  }
}
