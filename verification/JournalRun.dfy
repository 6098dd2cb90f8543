/**
 * Whole runs of a journal: any stores, bound to any lease epochs or to none, appending,
 * checkpointing, reading and dying in any order (run_context.py). A label is one section
 * that the store's locks make atomic.
 */
module JournalRun {
  import opened Wrappers
  import opened JournalText
  import opened RunStore

  /** A durable record with who wrote it, and the lease and time at which it was written. */
  datatype Entry = Entry(record: Record, writer: Binding, ticket: nat, lease: Option<Lease>, at: real)

  /** `tickets`: appends of unbound stores that are past their guard and have not yet taken the journal lock. */
  datatype World = World(disk: Disk, entries: seq<Entry>, tickets: set<nat>)

  /**
   * A bound store holds the lease lock from its guard to the end of its append; an unbound
   * one holds nothing in between, so its guard and its write are two labels. The manifest
   * update that ends a checkpoint, `Note`, is a section of its own.
   */
  datatype Label =
    | Start(binding: Binding, now: real)
    | PassGuard(ticket: nat)
    | Write(binding: Binding, ticket: nat, now: real, draft: Draft, crash: WriteCrash)
    | Note(binding: Binding, now: real, number: nat, nextStage: string, status: RunStatus)
    | SetStatus(binding: Binding, now: real, flags: Flags, wanted: Option<RunStatus>)
    | Bind(fence: Fence, now: real)
    | ReadJournal
    | GrantLease(lease: Lease)

  function Records(entries: seq<Entry>): (records: seq<Record>)
    ensures |records| == |entries| && forall i | 0 <= i < |entries| :: records[i] == entries[i].record
  {
    seq(|entries|, i requires 0 <= i < |entries| => entries[i].record)
  }

  function WithEntry(w: World, appended: Appended, binding: Binding, ticket: nat, now: real): World {
    World(
      appended.disk,
      w.entries + (if appended.written.Some? then [Entry(appended.written.value, binding, ticket, w.disk.lease, now)] else []),
      if binding.None? then w.tickets - {ticket} else w.tickets)
  }

  /** The append of a bound store with its guard, or the locked part of one whose guard has passed. */
  function Appending(
      codec: Codec, runId: string, w: World, binding: Binding, ticket: nat, now: real, draft: Draft, crash: WriteCrash): Appended
  {
    if (if binding.Some? then GuardPasses(w.disk, binding, now) else ticket in w.tickets)
    then AppendLocked(codec, runId, w.disk, binding, now, draft, crash)
    else Appended(w.disk, None, Some(FenceLost))
  }

  /** The updates that end the checkpoint with this number, if there is one. */
  function NoteUpdates(w: World, number: nat, nextStage: string, status: RunStatus): Option<Updates> {
    if 1 <= number <= |w.entries| && w.entries[number - 1].record.kind == StageCheckpoint
    then Some(CheckpointUpdates(status, w.entries[number - 1].record.stage, nextStage, number))
    else None
  }

  function Step(codec: Codec, runId: string, w: World, move: Label): World {
    match move
    case Start(binding, now) => w.(disk := Initialize(w.disk, binding, now).0)
    case PassGuard(ticket) => if GuardPasses(w.disk, None, 0.0) then w.(tickets := w.tickets + {ticket}) else w
    case Write(binding, ticket, now, draft, crash) =>
      WithEntry(w, Appending(codec, runId, w, binding, ticket, now, draft, crash), binding, ticket, now)
    case Note(binding, now, number, nextStage, status) =>
      var updates := NoteUpdates(w, number, nextStage, status);
      if updates.None? then w
      else w.(disk := UpdateManifest(codec, runId, w.disk, binding, now, NO_FLAGS, updates.value).0)
    case SetStatus(binding, now, flags, wanted) =>
      w.(disk := UpdateManifest(
             codec, runId, w.disk, binding, now, flags.(fenceAdvance := false), NO_UPDATES.(status := wanted)).0)
    case Bind(fence, now) =>
      if w.disk.manifest.None? then w
      else
        w.(disk := UpdateManifest(
               codec, runId, w.disk, Some(fence), now, NO_FLAGS.(fenceAdvance := true), NO_UPDATES.(fence := Some(fence))).0)
    case ReadJournal => w.(disk := Repaired(w.disk, ReadingOf(codec, runId, w.disk.journal, true)))
    case GrantLease(lease) => w.(disk := w.disk.(lease := Some(lease)))
  }

  /** The line that is being written when the process may die. */
  function PendingLine(codec: Codec, runId: string, w: World, draft: Draft): string {
    codec.encode(RecordFor(runId, draft, |w.entries| + 1))
  }

  /** The lease's token never goes back, no crash loses just the newline, and a checkpoint names its next stage. */
  predicate Allowed(codec: Codec, runId: string, w: World, move: Label) {
    match move
    case Write(_, _, _, draft, crash) =>
      && (draft.kind == StageCheckpoint ==> NextStage in draft.payload)
      && (crash.Some? ==> crash.value != |PendingLine(codec, runId, w, draft)|)
    case GrantLease(lease) => w.disk.lease.Some? ==> w.disk.lease.value.fence.token <= lease.fence.token
    case _ => true
  }

  predicate AllAllowed(codec: Codec, runId: string, w: World, labels: seq<Label>)
    decreases |labels|
  {
    labels == []
    || (Allowed(codec, runId, w, labels[0]) && AllAllowed(codec, runId, Step(codec, runId, w, labels[0]), labels[1..]))
  }

  function Run(codec: Codec, runId: string, w: World, labels: seq<Label>): World
    decreases |labels|
  {
    if labels == [] then w else Run(codec, runId, Step(codec, runId, w, labels[0]), labels[1..])
  }

  const EMPTY := World(Disk("", None, None), [], {})

  // ------------------------------------------------------------------------ invariants

  /** The file holds the records, perhaps with a torn line after them. */
  ghost predicate Holds(codec: Codec, journal: string, records: seq<Record>) {
    exists tear :: Torn(codec, tear) && journal == TextOf(codec, records) + tear
  }

  ghost predicate LogInv(codec: Codec, runId: string, w: World) {
    && Numbered(Records(w.entries), runId)
    && Holds(codec, w.disk.journal, Records(w.entries))
    && (w.disk.manifest.Some? ==> w.disk.manifest.value.lastSeq <= |w.entries|)
  }

  lemma HeldIsRead(codec: Codec, runId: string, journal: string, records: seq<Record>)
    requires Faithful(codec) && Numbered(records, runId) && Holds(codec, journal, records)
    ensures var reading := ReadingOf(codec, runId, journal, true);
      && reading.Read? && reading.records == records
      && (if reading.repaired.Some? then reading.repaired.value else journal) == TextOf(codec, records)
  {
    var tear :| Torn(codec, tear) && journal == TextOf(codec, records) + tear;
    if tear == "" {
      assert journal == TextOf(codec, records);
      WholeFileReads(codec, runId, records, true);
    } else {
      TornFileReads(codec, runId, records, tear, true);
    }
  }

  /** In a consistent world the reader returns the durable records, all of them and nothing else. */
  lemma ReaderFindsEntries(codec: Codec, runId: string, w: World)
    requires Faithful(codec) && LogInv(codec, runId, w)
    ensures ReadingOf(codec, runId, w.disk.journal, true).Read?
    ensures ReadingOf(codec, runId, w.disk.journal, true).records == Records(w.entries)
  {
    HeldIsRead(codec, runId, w.disk.journal, Records(w.entries));
  }

  function WrittenRecords(appended: Appended): seq<Record> {
    if appended.written.Some? then [appended.written.value] else []
  }

  /** The bytes of one append after whole records: one more record, or a tear. */
  lemma WrittenIsHeld(codec: Codec, records: seq<Record>, record: Record, crash: WriteCrash)
    requires crash.Some? ==> crash.value != |codec.encode(record)|
    ensures Holds(
              codec, TextOf(codec, records) + WrittenBytes(codec, record, crash),
              if Whole(codec, record, crash) then records + [record] else records)
  {
    var line := codec.encode(record) + "\n";
    if Whole(codec, record, crash) {
      TextOfAppend(codec, records, record);
      assert TextOf(codec, records) + line == TextOf(codec, records + [record]) + "";
      assert Torn(codec, "");
    } else {
      var k := crash.value;
      assert line[..k] == codec.encode(record)[..k];
      assert Torn(codec, line[..k]);
    }
  }

  /** An append adds one record numbered next, or at most a torn line. */
  lemma AppendKeepsLog(
      codec: Codec, runId: string, disk: Disk, records: seq<Record>, binding: Binding, now: real, draft: Draft, crash: WriteCrash)
    requires Faithful(codec) && Numbered(records, runId) && Holds(codec, disk.journal, records)
    requires disk.manifest.Some? ==> disk.manifest.value.lastSeq <= |records|
    requires crash.Some? ==> crash.value != |codec.encode(RecordFor(runId, draft, |records| + 1))|
    ensures var appended := AppendLocked(codec, runId, disk, binding, now, draft, crash);
      var after := records + WrittenRecords(appended);
      && Holds(codec, appended.disk.journal, after) && Numbered(after, runId)
      && (appended.written.Some? ==>
            appended.written.value == RecordFor(runId, draft, |records| + 1) && disk.manifest.Some?)
      && (appended.disk.manifest.Some? ==> appended.disk.manifest.value.lastSeq <= |after|)
  {
    AppendFromHeld(codec, runId, disk, records, binding, now, draft, crash);
    WrittenIsHeld(codec, records, RecordFor(runId, draft, |records| + 1), crash);
    assert records + [] == records;
  }

  /** What an append does to a journal it can read, byte for byte. */
  ghost predicate AppendsTo(
    codec: Codec, runId: string, disk: Disk, text: string, count: nat, binding: Binding, now: real, draft: Draft,
    crash: WriteCrash)
  {
    var appended := AppendLocked(codec, runId, disk, binding, now, draft, crash);
    var record := RecordFor(runId, draft, count + 1);
    if disk.manifest.Some? then
      && appended.written == (if Whole(codec, record, crash) then Some(record) else None)
      && appended.disk.journal == text + WrittenBytes(codec, record, crash)
      && appended.disk.manifest.Some?
      && appended.disk.manifest.value.lastSeq <= count + (if Whole(codec, record, crash) then 1 else 0)
    else appended.disk == disk && appended.written.None?
  }

  lemma AppendAfterReading(
      codec: Codec, runId: string, disk: Disk, text: string, count: nat, binding: Binding, now: real, draft: Draft,
      crash: WriteCrash, reading: Reading)
    requires reading == ReadingOf(codec, runId, disk.journal, true) && reading.Read? && |reading.records| == count
    requires (if reading.repaired.Some? then reading.repaired.value else disk.journal) == text
    requires disk.manifest.Some? ==> disk.manifest.value.lastSeq <= count
    ensures AppendsTo(codec, runId, disk, text, count, binding, now, draft, crash)
  {
  }

  lemma AppendFromHeld(
      codec: Codec, runId: string, disk: Disk, records: seq<Record>, binding: Binding, now: real, draft: Draft, crash: WriteCrash)
    requires Faithful(codec) && Numbered(records, runId) && Holds(codec, disk.journal, records)
    requires disk.manifest.Some? ==> disk.manifest.value.lastSeq <= |records|
    ensures AppendsTo(codec, runId, disk, TextOf(codec, records), |records|, binding, now, draft, crash)
  {
    HeldIsRead(codec, runId, disk.journal, records);
    var reading := ReadingOf(codec, runId, disk.journal, true);
    AppendAfterReading(codec, runId, disk, TextOf(codec, records), |records|, binding, now, draft, crash, reading);
  }

  /** What an append leaves alone: the lease, and everything in the manifest but the record count. */
  lemma AppendKeepsRest(
      codec: Codec, runId: string, disk: Disk, binding: Binding, now: real, draft: Draft, crash: WriteCrash)
    ensures var after := AppendLocked(codec, runId, disk, binding, now, draft, crash).disk;
      && after.lease == disk.lease
      && (after.manifest.Some? <==> disk.manifest.Some?)
      && (disk.manifest.Some? ==>
            after.manifest.value == disk.manifest.value.(lastSeq := after.manifest.value.lastSeq))
  {
  }

  lemma EntryKeepsLog(
      codec: Codec, runId: string, w: World, appended: Appended, binding: Binding, ticket: nat, now: real)
    requires var after := Records(w.entries) + WrittenRecords(appended);
      Holds(codec, appended.disk.journal, after) && Numbered(after, runId)
      && (appended.disk.manifest.Some? ==> appended.disk.manifest.value.lastSeq <= |after|)
    ensures LogInv(codec, runId, WithEntry(w, appended, binding, ticket, now))
  {
    assert Records(WithEntry(w, appended, binding, ticket, now).entries) == Records(w.entries) + WrittenRecords(appended);
  }

  /** Loading the manifest leaves it alone, or rebuilds it from all the durable records. */
  lemma LoadFindsEntries(codec: Codec, runId: string, w: World)
    requires Faithful(codec) && LogInv(codec, runId, w)
    ensures var loaded := LoadManifest(codec, runId, w.disk);
      && loaded.disk.lease == w.disk.lease && loaded.disk.manifest == loaded.manifest
      && Holds(codec, loaded.disk.journal, Records(w.entries))
      && (if w.disk.manifest.Some? then loaded.disk == w.disk
          else if w.entries == [] then loaded.manifest.None?
          else loaded.manifest == Some(Rebuilt(Records(w.entries))) && Rebuilt(Records(w.entries)).lastSeq == |w.entries|)
  {
    var records := Records(w.entries);
    HeldIsRead(codec, runId, w.disk.journal, records);
    assert Torn(codec, "") && TextOf(codec, records) == TextOf(codec, records) + "";
  }

  /** A manifest update that counts no more records than there are. */
  lemma UpdateKeepsLog(codec: Codec, runId: string, w: World, binding: Binding, now: real, flags: Flags, updates: Updates)
    requires Faithful(codec) && LogInv(codec, runId, w)
    requires updates.lastSeq.Some? ==> updates.lastSeq.value <= |w.entries|
    ensures LogInv(codec, runId, w.(disk := UpdateManifest(codec, runId, w.disk, binding, now, flags, updates).0))
  {
    LoadFindsEntries(codec, runId, w);
  }

  lemma StepKeepsLog(codec: Codec, runId: string, w: World, move: Label)
    requires Faithful(codec) && LogInv(codec, runId, w) && Allowed(codec, runId, w, move)
    ensures LogInv(codec, runId, Step(codec, runId, w, move))
  {
    var records := Records(w.entries);
    match move {
      case Write(binding, ticket, now, draft, crash) =>
        AppendKeepsLog(codec, runId, w.disk, records, binding, now, draft, crash);
        assert records + [] == records;
        EntryKeepsLog(codec, runId, w, Appending(codec, runId, w, binding, ticket, now, draft, crash), binding, ticket, now);
      case Note(binding, now, number, nextStage, status) =>
        var updates := NoteUpdates(w, number, nextStage, status);
        if updates.Some? {
          UpdateKeepsLog(codec, runId, w, binding, now, NO_FLAGS, updates.value);
        }
      case SetStatus(binding, now, flags, wanted) =>
        UpdateKeepsLog(codec, runId, w, binding, now, flags.(fenceAdvance := false), NO_UPDATES.(status := wanted));
      case Bind(fence, now) =>
        UpdateKeepsLog(
          codec, runId, w, Some(fence), now, NO_FLAGS.(fenceAdvance := true), NO_UPDATES.(fence := Some(fence)));
      case ReadJournal =>
        HeldIsRead(codec, runId, w.disk.journal, records);
        assert Torn(codec, "") && TextOf(codec, records) == TextOf(codec, records) + "";
      case _ =>
    }
  }

  // --------------------------------------------------------------------------- fencing

  /** Each bound writer held the live lease, their tokens never go back, and the lease is at least as new. */
  ghost predicate FenceInv(w: World) {
    && (forall i | 0 <= i < |w.entries| && w.entries[i].writer.Some? ::
          && w.entries[i].lease.Some?
          && w.entries[i].lease.value.fence.owner == w.entries[i].writer.value.owner
          && w.entries[i].lease.value.fence.token == w.entries[i].writer.value.token
          && w.entries[i].at < w.entries[i].lease.value.expires
          && w.disk.lease.Some?
          && w.entries[i].writer.value.token <= w.disk.lease.value.fence.token)
    && (forall i, j | 0 <= i < j < |w.entries| && w.entries[i].writer.Some? && w.entries[j].writer.Some? ::
          w.entries[i].writer.value.token <= w.entries[j].writer.value.token)
  }

  lemma StepKeepsFences(codec: Codec, runId: string, w: World, move: Label)
    requires FenceInv(w) && Allowed(codec, runId, w, move)
    ensures FenceInv(Step(codec, runId, w, move))
  {
    match move {
      case Write(binding, ticket, now, draft, crash) =>
        AppendKeepsRest(codec, runId, w.disk, binding, now, draft, crash);
      case _ =>
        StepKeepsEntries(codec, runId, w, move);
    }
  }

  /** Only a write changes the entries, and only a grant the lease. */
  lemma StepKeepsEntries(codec: Codec, runId: string, w: World, move: Label)
    requires !move.Write?
    ensures Step(codec, runId, w, move).entries == w.entries
    ensures move.GrantLease? || Step(codec, runId, w, move).disk.lease == w.disk.lease
  {
  }

  /** The manifest of a run in which some lease owner has written carries a token. */
  predicate FencesInUse(disk: Disk) {
    disk.manifest.Some? && disk.manifest.value.fenceToken > 0
  }

  /** How later worlds relate to earlier ones. */
  ghost predicate Later(w: World, v: World) {
    && w.entries <= v.entries
    && (w.disk.lease.Some? ==> v.disk.lease.Some? && w.disk.lease.value.fence.token <= v.disk.lease.value.fence.token)
    && (w.disk.manifest.Some? ==>
          v.disk.manifest.Some? && ManifestLater(w.disk.manifest.value, v.disk.manifest.value))
    && (FencesInUse(w.disk) ==> v.tickets <= w.tickets)
    && (forall i | |w.entries| <= i < |v.entries| :: NewEntry(w, v.entries[i]))
  }

  /** The fence token and the record count only grow, and a completed or cancelled run stays so. */
  ghost predicate ManifestLater(m: Manifest, n: Manifest) {
    && m.fenceToken <= n.fenceToken && m.lastSeq <= n.lastSeq
    && (m.status == Completed || m.status == Cancelled ==> n.status == m.status)
  }

  /**
   * An entry written after `w`: a bound writer was not superseded there, and with fences in
   * use an unbound one was past its guard already.
   */
  ghost predicate NewEntry(w: World, entry: Entry) {
    && (entry.writer.Some? && w.disk.lease.Some? ==> w.disk.lease.value.fence.token <= entry.writer.value.token)
    && (entry.writer.None? && FencesInUse(w.disk) ==> entry.ticket in w.tickets)
  }

  lemma UpdateMovesOn(
      codec: Codec, runId: string, disk: Disk, binding: Binding, now: real, flags: Flags, updates: Updates)
    requires updates.fence.Some? ==> binding == updates.fence && flags.fenceAdvance
    ensures var after := UpdateManifest(codec, runId, disk, binding, now, flags, updates).0;
      && after.lease == disk.lease
      && (disk.manifest.Some? ==>
            after.manifest.Some? && ManifestLater(disk.manifest.value, after.manifest.value))
  {
  }

  lemma WriteMovesOn(codec: Codec, runId: string, w: World, move: Label)
    requires move.Write?
    ensures Later(w, Step(codec, runId, w, move))
  {
    AppendMovesOn(codec, runId, w.disk, move.binding, move.now, move.draft, move.crash);
  }

  lemma StepMovesOn(codec: Codec, runId: string, w: World, move: Label)
    requires Allowed(codec, runId, w, move)
    ensures Later(w, Step(codec, runId, w, move))
  {
    match move {
      case Write(_, _, _, _, _) => WriteMovesOn(codec, runId, w, move);
      case Note(binding, now, number, nextStage, status) =>
        var updates := NoteUpdates(w, number, nextStage, status);
        if updates.Some? {
          UpdateMovesOn(codec, runId, w.disk, binding, now, NO_FLAGS, updates.value);
        }
      case SetStatus(binding, now, flags, wanted) =>
        UpdateMovesOn(codec, runId, w.disk, binding, now, flags.(fenceAdvance := false), NO_UPDATES.(status := wanted));
      case Bind(fence, now) =>
        UpdateMovesOn(
          codec, runId, w.disk, Some(fence), now, NO_FLAGS.(fenceAdvance := true), NO_UPDATES.(fence := Some(fence)));
      case _ =>
    }
  }

  lemma AppendMovesOn(
      codec: Codec, runId: string, disk: Disk, binding: Binding, now: real, draft: Draft, crash: WriteCrash)
    ensures var appended := AppendLocked(codec, runId, disk, binding, now, draft, crash);
      && appended.disk.lease == disk.lease
      && (disk.manifest.Some? ==>
            appended.disk.manifest.Some? && ManifestLater(disk.manifest.value, appended.disk.manifest.value))
      && (appended.written.Some? ==> disk.manifest.Some?)
  {
  }

  lemma LaterIsTransitive(u: World, v: World, w: World)
    requires Later(u, v) && Later(v, w)
    ensures Later(u, w)
  {
    forall i | |u.entries| <= i < |w.entries| ensures NewEntry(u, w.entries[i]) {
      if i < |v.entries| {
        assert v.entries[i] == w.entries[i];
      } else {
        assert NewEntry(v, w.entries[i]);
      }
    }
  }

  // -------------------------------------------------------------------------- whole runs

  /** Everything at once, for every run from every consistent world. */
  lemma {:induction false} EveryRunIsConsistent(codec: Codec, runId: string, w: World, moves: seq<Label>)
    requires Faithful(codec) && LogInv(codec, runId, w) && FenceInv(w) && StageInv(w)
    requires AllAllowed(codec, runId, w, moves)
    ensures var v := Run(codec, runId, w, moves);
      LogInv(codec, runId, v) && FenceInv(v) && StageInv(v) && Later(w, v)
    decreases |moves|
  {
    if moves != [] {
      var next := Step(codec, runId, w, moves[0]);
      StepKeepsLog(codec, runId, w, moves[0]);
      StepKeepsFences(codec, runId, w, moves[0]);
      StepKeepsStages(codec, runId, w, moves[0]);
      StepMovesOn(codec, runId, w, moves[0]);
      EveryRunIsConsistent(codec, runId, next, moves[1..]);
      LaterIsTransitive(w, next, Run(codec, runId, w, moves));
    }
  }

  lemma EmptyIsConsistent(codec: Codec, runId: string)
    ensures LogInv(codec, runId, EMPTY) && FenceInv(EMPTY) && StageInv(EMPTY)
  {
    assert Torn(codec, "") && "" == TextOf(codec, []) + "";
  }

  /** Nothing is written before there is a manifest. */
  predicate ManifestComesFirst(w: World) {
    w.disk.manifest.None? ==> w.disk.journal == "" && w.entries == []
  }

  lemma StepKeepsManifestFirst(codec: Codec, runId: string, w: World, move: Label)
    requires ManifestComesFirst(w)
    ensures ManifestComesFirst(Step(codec, runId, w, move))
  {
    if move.ReadJournal? {
      assert Lines("") == [];
    }
  }

  /** A manifest that no one removes is missing only while the journal is still empty. */
  lemma {:induction false} MissingManifestMeansEmptyJournal(codec: Codec, runId: string, w: World, moves: seq<Label>)
    requires ManifestComesFirst(w)
    ensures ManifestComesFirst(Run(codec, runId, w, moves))
    decreases |moves|
  {
    if moves != [] {
      StepKeepsManifestFirst(codec, runId, w, moves[0]);
      MissingManifestMeansEmptyJournal(codec, runId, Step(codec, runId, w, moves[0]), moves[1..]);
    }
  }

  /** After any run the reader finds exactly the durable records, numbered 1 to n, and the next append is n + 1. */
  lemma DurableRecordsAreRead(codec: Codec, runId: string, moves: seq<Label>, binding: Binding, now: real, draft: Draft)
    requires Faithful(codec) && AllAllowed(codec, runId, EMPTY, moves)
    ensures var w := Run(codec, runId, EMPTY, moves);
      && ReadingOf(codec, runId, w.disk.journal, true).Read?
      && ReadingOf(codec, runId, w.disk.journal, true).records == Records(w.entries)
      && Numbered(Records(w.entries), runId)
      && (w.disk.manifest.Some? ==> w.disk.manifest.value.lastSeq <= |w.entries|)
      && var appended := AppendLocked(codec, runId, w.disk, binding, now, draft, None);
        appended.written.Some? ==> appended.written.value.number == |w.entries| + 1
  {
    var w := Run(codec, runId, EMPTY, moves);
    EmptyIsConsistent(codec, runId);
    EveryRunIsConsistent(codec, runId, EMPTY, moves);
    ReaderFindsEntries(codec, runId, w);
    AppendKeepsLog(codec, runId, w.disk, Records(w.entries), binding, now, draft, None);
  }

  /**
   * Once the lease has moved past a token, no writer with that token adds another record, and
   * once fences are in use only an append that is past its guard can add an unfenced one.
   */
  lemma SupersededWriterIsSilent(codec: Codec, runId: string, before: seq<Label>, after: seq<Label>, i: nat)
    requires Faithful(codec) && AllAllowed(codec, runId, EMPTY, before)
    requires var w := Run(codec, runId, EMPTY, before);
      AllAllowed(codec, runId, w, after) && |w.entries| <= i < |Run(codec, runId, w, after).entries|
    ensures var w := Run(codec, runId, EMPTY, before);
      var entry := Run(codec, runId, w, after).entries[i];
      && (entry.writer.Some? ==>
            && entry.lease.Some? && entry.at < entry.lease.value.expires
            && entry.lease.value.fence.owner == entry.writer.value.owner
            && entry.lease.value.fence.token == entry.writer.value.token)
      && (entry.writer.Some? && w.disk.lease.Some? ==> w.disk.lease.value.fence.token <= entry.writer.value.token)
      && (entry.writer.None? && FencesInUse(w.disk) ==> entry.ticket in w.tickets)
  {
    var w := Run(codec, runId, EMPTY, before);
    EmptyIsConsistent(codec, runId);
    EveryRunIsConsistent(codec, runId, EMPTY, before);
    EveryRunIsConsistent(codec, runId, w, after);
    assert NewEntry(w, Run(codec, runId, w, after).entries[i]);
  }

  // ---------------------------------------------------------------------------- stages

  /** Every checkpoint names its next stage, and until the first one the manifest keeps its first stages. */
  ghost predicate StageInv(w: World) {
    && (forall i | 0 <= i < |w.entries| && w.entries[i].record.kind == StageCheckpoint ::
          NextStage in w.entries[i].record.payload)
    && (w.disk.manifest.Some? && NoCheckpoint(w.entries) ==> ManifestStages(w.disk.manifest.value) == FIRST_STAGES)
  }

  ghost predicate NoCheckpoint(entries: seq<Entry>) {
    forall i | 0 <= i < |entries| :: entries[i].record.kind != StageCheckpoint
  }

  ghost predicate NoCheckpointAfter(entries: seq<Entry>, i: nat) {
    forall j | i < j < |entries| :: entries[j].record.kind != StageCheckpoint
  }

  function ManifestStages(manifest: Manifest): Stages {
    Stages(manifest.stage, manifest.nextStage)
  }

  lemma StepKeepsStages(codec: Codec, runId: string, w: World, move: Label)
    requires Faithful(codec) && LogInv(codec, runId, w) && StageInv(w) && Allowed(codec, runId, w, move)
    ensures StageInv(Step(codec, runId, w, move))
  {
    match move {
      case Write(binding, ticket, now, draft, crash) =>
        AppendedRecord(codec, runId, w.disk, binding, now, draft, crash);
        GrownEntries(w, Appending(codec, runId, w, binding, ticket, now, draft, crash), binding, ticket, now);
      case Note(_, _, _, _, _) =>
      case SetStatus(binding, now, flags, wanted) =>
        UpdateKeepsStages(codec, runId, w, binding, now, flags.(fenceAdvance := false), NO_UPDATES.(status := wanted));
      case Bind(fence, now) =>
        UpdateKeepsStages(
          codec, runId, w, Some(fence), now, NO_FLAGS.(fenceAdvance := true), NO_UPDATES.(fence := Some(fence)));
      case _ =>
    }
  }

  lemma UpdateKeepsStages(codec: Codec, runId: string, w: World, binding: Binding, now: real, flags: Flags, updates: Updates)
    requires Faithful(codec) && LogInv(codec, runId, w) && StageInv(w) && updates.stage.None? && updates.nextStage.None?
    ensures StageInv(w.(disk := UpdateManifest(codec, runId, w.disk, binding, now, flags, updates).0))
  {
    LoadFindsEntries(codec, runId, w);
    if NoCheckpoint(w.entries) {
      StagesWithoutCheckpoint(FIRST_STAGES, Records(w.entries));
    }
  }

  lemma AppendedRecord(
      codec: Codec, runId: string, disk: Disk, binding: Binding, now: real, draft: Draft, crash: WriteCrash)
    ensures var appended := AppendLocked(codec, runId, disk, binding, now, draft, crash);
      && (appended.written.Some? ==>
            appended.written.value.kind == draft.kind && appended.written.value.payload == draft.payload)
      && (appended.disk.manifest.Some? ==>
            disk.manifest.Some?
            && ManifestStages(appended.disk.manifest.value) == ManifestStages(disk.manifest.value))
  {
  }

  lemma GrownEntries(w: World, appended: Appended, binding: Binding, ticket: nat, now: real)
    ensures var entries := WithEntry(w, appended, binding, ticket, now).entries;
      && (NoCheckpoint(entries) <==>
          NoCheckpoint(w.entries) && (appended.written.Some? ==> appended.written.value.kind != StageCheckpoint))
      && forall i | 0 <= i < |entries| ::
           if i < |w.entries| then entries[i] == w.entries[i]
           else appended.written.Some? && entries[i].record == appended.written.value
  {
    var entries := WithEntry(w, appended, binding, ticket, now).entries;
    assert forall i | 0 <= i < |w.entries| :: entries[i] == w.entries[i];
    if appended.written.Some? {
      assert entries[|w.entries|].record == appended.written.value;
    }
  }

  /** The stages read from the records are those of the last checkpoint among them. */
  lemma {:induction false} StagesOfLast(before: Stages, records: seq<Record>, i: nat)
    requires i < |records| && records[i].kind == StageCheckpoint && NextStage in records[i].payload
    requires forall j | i < j < |records| :: records[j].kind != StageCheckpoint
    ensures StagesOf(before, records) == Stages(records[i].stage, records[i].payload[NextStage])
  {
    if i < |records| - 1 {
      StagesOfLast(before, records[..|records| - 1], i);
    }
  }

  lemma {:induction false} StagesWithoutCheckpoint(before: Stages, records: seq<Record>)
    requires forall j | 0 <= j < |records| :: records[j].kind != StageCheckpoint
    ensures StagesOf(before, records) == before
  {
    if records != [] {
      StagesWithoutCheckpoint(before, records[..|records| - 1]);
    }
  }

  lemma {:induction false} LastCheckpoint(records: seq<Record>) returns (i: nat)
    requires exists j :: 0 <= j < |records| && records[j].kind == StageCheckpoint
    ensures i < |records| && records[i].kind == StageCheckpoint
    ensures forall j | i < j < |records| :: records[j].kind != StageCheckpoint
  {
    if records[|records| - 1].kind == StageCheckpoint {
      i := |records| - 1;
    } else {
      i := LastCheckpoint(records[..|records| - 1]);
    }
  }

  /** What `replay` reports: the manifest's stages, carried on by the records. */
  function ReplayedStages(w: World): Stages
    requires w.disk.manifest.Some?
  {
    StagesOf(ManifestStages(w.disk.manifest.value), Records(w.entries))
  }

  /** At every point of every run, replay and a manifest rebuilt from the journal agree on the stages. */
  lemma ReplayAgreesWithRebuild(codec: Codec, runId: string, moves: seq<Label>)
    requires Faithful(codec) && AllAllowed(codec, runId, EMPTY, moves)
    ensures var w := Run(codec, runId, EMPTY, moves);
      w.disk.manifest.Some? ==> ReplayedStages(w) == StagesOf(FIRST_STAGES, Records(w.entries))
  {
    EmptyIsConsistent(codec, runId);
    EveryRunIsConsistent(codec, runId, EMPTY, moves);
    var w := Run(codec, runId, EMPTY, moves);
    var records := Records(w.entries);
    if w.disk.manifest.Some? {
      if NoCheckpoint(w.entries) {
        StagesWithoutCheckpoint(FIRST_STAGES, records);
      } else {
        var i := LastCheckpoint(records);
        assert records[i] == w.entries[i].record;
        StagesOfLast(FIRST_STAGES, records, i);
        StagesOfLast(ManifestStages(w.disk.manifest.value), records, i);
      }
    }
  }

  /** At every point of every run, replay reports the stage and next stage of the last durable checkpoint. */
  lemma ReplayReportsLastCheckpoint(codec: Codec, runId: string, moves: seq<Label>, i: nat)
    requires Faithful(codec) && AllAllowed(codec, runId, EMPTY, moves)
    requires var entries := Run(codec, runId, EMPTY, moves).entries;
      && i < |entries| && entries[i].record.kind == StageCheckpoint
      && forall j | i < j < |entries| :: entries[j].record.kind != StageCheckpoint
    ensures var w := Run(codec, runId, EMPTY, moves);
      var record := w.entries[i].record;
      && NextStage in record.payload
      && (w.disk.manifest.Some? ==> ReplayedStages(w) == Stages(record.stage, record.payload[NextStage]))
  {
    EmptyIsConsistent(codec, runId);
    EveryRunIsConsistent(codec, runId, EMPTY, moves);
    var w := Run(codec, runId, EMPTY, moves);
    if w.disk.manifest.Some? {
      StagesOfLast(ManifestStages(w.disk.manifest.value), Records(w.entries), i);
    }
  }

  /**
   * The manifest update that ends checkpoint `i`, however much later: manifest and replay then
   * agree on the stages if and only if the last checkpoint in the journal has the stages it
   * wrote. With no other checkpoint after this one that is so exactly when its payload brings
   * no different next stage of its own.
   */
  lemma NoteAgreesIffLast(
      codec: Codec, runId: string, w: World, i: nat, binding: Binding, later: real, nextStage: string, status: RunStatus)
    requires Faithful(codec) && LogInv(codec, runId, w) && StageInv(w)
    requires i < |w.entries| && w.entries[i].record.kind == StageCheckpoint
    requires UpdateManifest(
               codec, runId, w.disk, binding, later, NO_FLAGS,
               CheckpointUpdates(status, w.entries[i].record.stage, nextStage, i + 1)).1.None?
    ensures var v, stage := Step(codec, runId, w, Note(binding, later, i + 1, nextStage, status)), w.entries[i].record.stage;
      && v.entries == w.entries && v.disk.manifest.Some?
      && i + 1 <= v.disk.manifest.value.lastSeq <= |v.entries|
      && ManifestStages(v.disk.manifest.value) == Stages(stage, nextStage)
      && (ReplayedStages(v) == ManifestStages(v.disk.manifest.value) <==>
          StagesOf(FIRST_STAGES, Records(w.entries)) == Stages(stage, nextStage))
      && (NoCheckpointAfter(w.entries, i) ==>
            (ReplayedStages(v) == ManifestStages(v.disk.manifest.value) <==>
             w.entries[i].record.payload[NextStage] == nextStage))
  {
    var records := Records(w.entries);
    var note := Note(binding, later, i + 1, nextStage, status);
    var v := Step(codec, runId, w, note);
    assert NoteUpdates(w, i + 1, nextStage, status)
        == Some(CheckpointUpdates(status, w.entries[i].record.stage, nextStage, i + 1));
    StepKeepsLog(codec, runId, w, note);
    LoadFindsEntries(codec, runId, w);
    var last := LastCheckpoint(records);
    assert records[last] == w.entries[last].record;
    StagesOfLast(FIRST_STAGES, records, last);
    StagesOfLast(ManifestStages(v.disk.manifest.value), records, last);
    assert records[i].kind == StageCheckpoint;
  }

  /**
   * A checkpoint and what others do between its two sections: with no checkpoint of theirs in
   * between, manifest and replay end with the same stages exactly when the payload brings no
   * different next stage of its own; with one, exactly when the last of them has the stages
   * this one writes.
   */
  lemma CacheAgreesAfterCheckpoint(
      codec: Codec, runId: string, w: World, binding: Binding, ticket: nat, now: real,
      stage: string, nextStage: string, channel: Channel, payload: Payload,
      between: seq<Label>, noter: Binding, later: real, status: RunStatus)
    requires Faithful(codec) && LogInv(codec, runId, w) && FenceInv(w) && StageInv(w)
    requires var write := Write(binding, ticket, now, CheckpointDraft(stage, nextStage, channel, payload), None);
      var written := Step(codec, runId, w, write);
      && |written.entries| == |w.entries| + 1 && AllAllowed(codec, runId, written, between)
      && UpdateManifest(
           codec, runId, Run(codec, runId, written, between).disk, noter, later, NO_FLAGS,
           CheckpointUpdates(status, stage, nextStage, |w.entries| + 1)).1.None?
    ensures var write := Write(binding, ticket, now, CheckpointDraft(stage, nextStage, channel, payload), None);
      var written := Step(codec, runId, w, write);
      var v := Run(codec, runId, written, between);
      var u := Step(codec, runId, v, Note(noter, later, |w.entries| + 1, nextStage, status));
      && u.disk.manifest.Some? && |w.entries| + 1 <= u.disk.manifest.value.lastSeq <= |u.entries|
      && written.entries <= u.entries && u.entries == v.entries
      && ManifestStages(u.disk.manifest.value) == Stages(stage, nextStage)
      && (ReplayedStages(u) == ManifestStages(u.disk.manifest.value) <==>
          if NoCheckpointAfter(v.entries, |w.entries|) then NextStage in payload ==> payload[NextStage] == nextStage
          else StagesOf(FIRST_STAGES, Records(v.entries)) == Stages(stage, nextStage))
  {
    var write := Write(binding, ticket, now, CheckpointDraft(stage, nextStage, channel, payload), None);
    var written := Step(codec, runId, w, write);
    var v := Run(codec, runId, written, between);
    CheckpointIsWritten(codec, runId, w, binding, ticket, now, stage, nextStage, channel, payload);
    EveryRunIsConsistent(codec, runId, written, between);
    assert v.entries[|w.entries|] == written.entries[|w.entries|];
    NoteAgreesIffLast(codec, runId, v, |w.entries|, noter, later, nextStage, status);
  }

  lemma CheckpointIsWritten(
      codec: Codec, runId: string, w: World, binding: Binding, ticket: nat, now: real,
      stage: string, nextStage: string, channel: Channel, payload: Payload)
    requires Faithful(codec) && LogInv(codec, runId, w) && FenceInv(w) && StageInv(w)
    requires |Step(codec, runId, w, Write(binding, ticket, now, CheckpointDraft(stage, nextStage, channel, payload), None)).entries|
          == |w.entries| + 1
    ensures var written := Step(
        codec, runId, w, Write(binding, ticket, now, CheckpointDraft(stage, nextStage, channel, payload), None));
      && LogInv(codec, runId, written) && FenceInv(written) && StageInv(written)
      && written.entries[|w.entries|].record
         == RecordFor(runId, CheckpointDraft(stage, nextStage, channel, payload), |w.entries| + 1)
  {
    var draft := CheckpointDraft(stage, nextStage, channel, payload);
    var write := Write(binding, ticket, now, draft, None);
    AppendKeepsLog(codec, runId, w.disk, Records(w.entries), binding, now, draft, None);
    StepKeepsLog(codec, runId, w, write);
    StepKeepsFences(codec, runId, w, write);
    StepKeepsStages(codec, runId, w, write);
  }
}
