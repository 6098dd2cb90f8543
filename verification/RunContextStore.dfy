/** The store object and the files it updates in place; each method is one transition of `RunStore`. */
module RunContextStore {
  import opened Wrappers
  import opened JournalText
  import RunStore

  /** The journal file, the manifest file and the lease file of one run. */
  class RunDisk {
    var journal: string
    var manifest: Option<RunStore.Manifest>
    var lease: Option<RunStore.Lease>

    constructor ()
      ensures Contents() == RunStore.Disk("", None, None)
    {
      journal, manifest, lease := "", None, None;
    }

    function Contents(): RunStore.Disk
      reads this
    {
      RunStore.Disk(journal, manifest, lease)
    }
  }

  class RunContextStore {
    const codec: Codec
    const runId: string
    const disk: RunDisk
    var fence: RunStore.Binding

    constructor (codec: Codec, runId: string, disk: RunDisk)
      ensures this.codec == codec && this.runId == runId && this.disk == disk && fence == None
    {
      this.codec, this.runId, this.disk, this.fence := codec, runId, disk, None;
    }

    method GuardFence(now: real) returns (error: Option<RunStore.StoreError>)
      ensures error == if RunStore.GuardPasses(disk.Contents(), fence, now) then None else Some(RunStore.FenceLost)
      ensures fence.Some? ==>
                (error.None? <==>
                 && disk.lease.Some? && now < disk.lease.value.expires
                 && disk.lease.value.fence.owner == fence.value.owner
                 && disk.lease.value.fence.token == fence.value.token)
      ensures fence.None? ==> (error.None? <==> disk.manifest.None? || disk.manifest.value.fenceToken == 0)
    {
      if fence.None? {
        if disk.manifest.Some? && disk.manifest.value.fenceToken > 0 {
          return Some(RunStore.FenceLost);
        }
        return None;
      }
      if disk.lease.None? {
        return Some(RunStore.FenceLost);
      }
      var lease := disk.lease.value;
      if lease.fence.owner != fence.value.owner || lease.fence.token != fence.value.token || lease.expires <= now {
        return Some(RunStore.FenceLost);
      }
      return None;
    }

    /** `_read_records_unlocked`: the records, with a torn last line cut away when asked to repair. */
    method ReadRecords(repair: bool) returns (reading: Reading)
      modifies disk`journal
      ensures reading == ReadingOf(codec, runId, old(disk.journal), repair)
      ensures disk.Contents() == RunStore.Repaired(old(disk.Contents()), reading)
    {
      reading := ReadLines(codec, runId, disk.journal, repair);
      if reading.Read? && reading.repaired.Some? {
        disk.journal := reading.repaired.value;
      }
    }

    /** The status rules: which requests are skipped, and when the end time is set or cleared. */
    static method ApplyStatus(manifest: RunStore.Manifest, wanted: RunStore.RunStatus, failedResume: bool, now: real)
      returns (status: RunStore.RunStatus, endedAt: Option<real>)
      ensures status == RunStore.NextStatus(manifest.status, wanted, failedResume)
      ensures endedAt == RunStore.EndedAt(manifest.endedAt, status, now)
    {
      status, endedAt := manifest.status, manifest.endedAt;
      if (status == RunStore.Completed || status == RunStore.Cancelled) && wanted != status {
      } else if status == RunStore.Failed && wanted != RunStore.Failed && !(failedResume && wanted == RunStore.Running) {
      } else {
        status := wanted;
      }
      if RunStore.Final(status) {
        if endedAt.None? {
          endedAt := Some(now);
        }
      } else if status == RunStore.Running {
        endedAt := None;
      }
    }

    /** The loop over the named updates; each field is set on its own. */
    static method ApplyUpdates(manifest: RunStore.Manifest, updates: RunStore.Updates, failedResume: bool, now: real)
      returns (after: RunStore.Manifest)
      ensures after == RunStore.Updated(manifest, updates, failedResume, now)
    {
      var stage, nextStage, lastSeq := manifest.stage, manifest.nextStage, manifest.lastSeq;
      var fenceToken, fenceOwner := manifest.fenceToken, manifest.fenceOwner;
      var status, endedAt := manifest.status, manifest.endedAt;
      if updates.status.Some? {
        status, endedAt := ApplyStatus(manifest, updates.status.value, failedResume, now);
      }
      if updates.stage.Some? {
        stage := updates.stage.value;
      }
      if updates.nextStage.Some? {
        nextStage := updates.nextStage.value;
      }
      if updates.lastSeq.Some? {
        lastSeq := RunStore.Larger(lastSeq, updates.lastSeq.value);
      }
      if updates.fence.Some? {
        fenceToken, fenceOwner := updates.fence.value.token, Some(updates.fence.value.owner);
      }
      after := RunStore.Manifest(status, stage, nextStage, lastSeq, endedAt, fenceToken, fenceOwner);
    }

    /** `load_manifest`: what is there, or a rebuild from the journal that is written back. */
    method LoadManifest() returns (manifest: Option<RunStore.Manifest>)
      modifies disk`journal, disk`manifest
      ensures RunStore.Loaded(disk.Contents(), manifest) == RunStore.LoadManifest(codec, runId, old(disk.Contents()))
    {
      if disk.manifest.Some? {
        return disk.manifest;
      }
      var reading := ReadRecords(true);
      if reading.Corrupt? || reading.records == [] {
        return None;
      }
      var rebuilt := RunStore.RebuildManifest(reading.records);
      disk.manifest := Some(rebuilt);
      return disk.manifest;
    }

    method UpdateManifest(now: real, flags: RunStore.Flags, updates: RunStore.Updates)
      returns (error: Option<RunStore.StoreError>)
      modifies disk`journal, disk`manifest
      ensures (disk.Contents(), error)
           == RunStore.UpdateManifest(codec, runId, old(disk.Contents()), fence, now, flags, updates)
    {
      var loaded := LoadManifest();
      if loaded.None? {
        return Some(RunStore.ManifestMissing);
      }
      error := UpdateLoaded(now, flags, updates);
    }

    /** The part under the manifest lock. */
    method UpdateLoaded(now: real, flags: RunStore.Flags, updates: RunStore.Updates)
      returns (error: Option<RunStore.StoreError>)
      modifies disk`manifest
      ensures (disk.Contents(), error) == RunStore.UpdateLoaded(old(disk.Contents()), fence, now, flags, updates)
    {
      if disk.manifest.None? {
        return Some(RunStore.ManifestMissing);
      }
      if !flags.fenceHeld {
        error := GuardFence(now);
        if error.Some? {
          return;
        }
      }
      var manifest := disk.manifest.value;
      if manifest.fenceToken > 0 {
        if fence.None? {
          return Some(RunStore.FenceLost);
        }
        if flags.fenceAdvance {
          if fence.value.token < manifest.fenceToken {
            return Some(RunStore.FenceLost);
          }
        } else if fence.value.token != manifest.fenceToken || Some(fence.value.owner) != manifest.fenceOwner {
          return Some(RunStore.FenceLost);
        }
      }
      manifest := ApplyUpdates(manifest, updates, flags.failedResume, now);
      disk.manifest := Some(manifest);
      return None;
    }

    /** Binding advances the manifest's fence; when that is refused the old binding is kept. */
    method BindFenceToken(newFence: RunStore.Fence, advanceManifest: bool, now: real)
      returns (error: Option<RunStore.StoreError>)
      modifies this`fence, disk`journal, disk`manifest
      ensures fence == if error.Some? then old(fence) else Some(newFence)
      ensures advanceManifest && old(disk.manifest).Some? ==>
                (disk.Contents(), error)
                == RunStore.UpdateManifest(
                     codec, runId, old(disk.Contents()), Some(newFence), now, RunStore.NO_FLAGS.(fenceAdvance := true),
                     RunStore.NO_UPDATES.(fence := Some(newFence)))
      ensures !(advanceManifest && old(disk.manifest).Some?) ==> error.None? && disk.Contents() == old(disk.Contents())
    {
      var previous := fence;
      fence := Some(newFence);
      error := None;
      if advanceManifest && disk.manifest.Some? {
        error := UpdateManifest(
          now, RunStore.NO_FLAGS.(fenceAdvance := true), RunStore.NO_UPDATES.(fence := Some(newFence)));
        if error.Some? {
          fence := previous;
        }
      }
    }

    method Append(now: real, draft: RunStore.Draft, crash: RunStore.WriteCrash)
      returns (written: Option<Record>, error: Option<RunStore.StoreError>)
      modifies disk
      ensures RunStore.Appended(disk.Contents(), written, error)
           == RunStore.Append(codec, runId, old(disk.Contents()), fence, now, draft, crash)
    {
      error := GuardFence(now);
      if error.Some? {
        return None, error;
      }
      written, error := AppendLocked(now, draft, crash);
    }

    /** The part under the journal lock. */
    method AppendLocked(now: real, draft: RunStore.Draft, crash: RunStore.WriteCrash)
      returns (written: Option<Record>, error: Option<RunStore.StoreError>)
      modifies disk
      ensures RunStore.Appended(disk.Contents(), written, error)
           == RunStore.AppendLocked(codec, runId, old(disk.Contents()), fence, now, draft, crash)
    {
      if disk.manifest.None? {
        return None, Some(RunStore.ManifestMissing);
      }
      var lastSeq := disk.manifest.value.lastSeq;
      var reading := ReadRecords(true);
      if reading.Corrupt? {
        return None, Some(RunStore.JournalCorrupted);
      }
      var number := RunStore.Larger(lastSeq, |reading.records|) + 1;
      var record := RunStore.RecordFor(runId, draft, number);
      disk.journal := disk.journal + RunStore.WrittenBytes(codec, record, crash);
      if crash.Some? {
        return if RunStore.Whole(codec, record, crash) then Some(record) else None, Some(RunStore.Died);
      }
      error := UpdateManifest(
        now, RunStore.NO_FLAGS.(fenceHeld := true), RunStore.NO_UPDATES.(lastSeq := Some(number)));
      return Some(record), error;
    }

    method Checkpoint(
        now: real, later: real, stage: string, nextStage: string, status: RunStore.RunStatus, channel: Channel,
        payload: Payload, crash: RunStore.CheckpointCrash)
      returns (written: Option<Record>, error: Option<RunStore.StoreError>)
      modifies disk
      ensures RunStore.Appended(disk.Contents(), written, error)
           == RunStore.Checkpoint(
                codec, runId, old(disk.Contents()), fence, now, later, stage, nextStage, status, channel, payload, crash)
    {
      var draft := RunStore.CheckpointDraft(stage, nextStage, channel, payload);
      written, error := Append(now, draft, if crash.InAppend? then Some(crash.bytes) else None);
      if error.Some? || written.None? {
        return;
      }
      if crash.BeforeManifest? {
        return written, Some(RunStore.Died);
      }
      var number := written.value.number;
      error := UpdateManifest(
        later, RunStore.NO_FLAGS,
        RunStore.CheckpointUpdates(status, stage, nextStage, RunStore.AsCount(number)));
    }

    /** The stages `replay` reports: the manifest's, carried on by the records it reads. */
    method ReplayStages() returns (stages: Option<RunStore.Stages>)
      modifies disk`journal, disk`manifest
      ensures var loaded := RunStore.LoadManifest(codec, runId, old(disk.Contents()));
        var reading := ReadingOf(codec, runId, loaded.disk.journal, true);
        && disk.Contents() == (if loaded.manifest.Some? then RunStore.Repaired(loaded.disk, reading) else loaded.disk)
        && (stages.Some? <==> loaded.manifest.Some? && reading.Read?)
        && (stages.Some? ==>
              stages.value
              == RunStore.StagesOf(
                   RunStore.Stages(loaded.manifest.value.stage, loaded.manifest.value.nextStage), reading.records))
    {
      var manifest := LoadManifest();
      if manifest.None? {
        return None;
      }
      var first := RunStore.Stages(manifest.value.stage, manifest.value.nextStage);
      var reading := ReadRecords(true);
      if reading.Corrupt? {
        return None;
      }
      var at := first;
      var records := reading.records;
      for i := 0 to |records|
        invariant at == RunStore.StagesOf(first, records[..i])
      {
        var record := records[i];
        if record.kind == StageCheckpoint {
          at := RunStore.Stages(
            record.stage, if NextStage in record.payload then record.payload[NextStage] else at.nextStage);
        }
        assert records[..i + 1][..i] == records[..i];
      }
      assert records[..|records|] == records;
      return Some(at);
    }
  }
}
