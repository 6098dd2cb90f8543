/** Writes that end badly: the line that loses only its newline, and the short write of a process that lives on. */
module JournalTears {
  import opened Wrappers
  import opened JournalText
  import opened RunStore
  import opened JournalRun

  // ---------------------------------------------------------------- the lost newline

  /**
   * A process dies after `k` bytes of a record; the next append of anyone leaves the journal
   * readable exactly when `k` is not the length of the record without its newline.
   */
  lemma LostNewlineIsFatal(
      codec: Codec, runId: string, disk: Disk, records: seq<Record>,
      binding: Binding, now: real, draft: Draft, k: nat, other: Binding, then_: real, next: Draft)
    requires Faithful(codec) && Numbered(records, runId) && Holds(codec, disk.journal, records)
    requires disk.manifest.Some? && disk.manifest.value.lastSeq <= |records|
    ensures var torn := AppendLocked(codec, runId, disk, binding, now, draft, Some(k)).disk;
      var after := AppendLocked(codec, runId, torn, other, then_, next, None).disk;
      ReadingOf(codec, runId, after.journal, true).Read? <==>
      k != |codec.encode(RecordFor(runId, draft, |records| + 1))|
  {
    AppendKeepsRest(codec, runId, disk, binding, now, draft, Some(k));
    if k == |codec.encode(RecordFor(runId, draft, |records| + 1))| {
      UnterminatedThenAppend(codec, runId, disk, records, binding, now, draft, other, then_, next);
    } else {
      var first := AppendLocked(codec, runId, disk, binding, now, draft, Some(k));
      var held := records + WrittenRecords(first);
      AppendKeepsLog(codec, runId, disk, records, binding, now, draft, Some(k));
      AppendKeepsLog(codec, runId, first.disk, held, other, then_, next, None);
      var second := AppendLocked(codec, runId, first.disk, other, then_, next, None);
      HeldIsRead(codec, runId, second.disk.journal, held + WrittenRecords(second));
    }
  }

  lemma UnterminatedThenAppend(
      codec: Codec, runId: string, disk: Disk, records: seq<Record>,
      binding: Binding, now: real, draft: Draft, other: Binding, then_: real, next: Draft)
    requires Faithful(codec) && Numbered(records, runId) && Holds(codec, disk.journal, records)
    requires disk.manifest.Some? && disk.manifest.value.lastSeq <= |records|
    ensures var k := |codec.encode(RecordFor(runId, draft, |records| + 1))|;
      var torn := AppendLocked(codec, runId, disk, binding, now, draft, Some(k)).disk;
      ReadingOf(codec, runId, AppendLocked(codec, runId, torn, other, then_, next, None).disk.journal, true).Corrupt?
  {
    var record := RecordFor(runId, draft, |records| + 1);
    var line := codec.encode(record);
    var torn := AppendLocked(codec, runId, disk, binding, now, draft, Some(|line|)).disk;
    AppendFromHeld(codec, runId, disk, records, binding, now, draft, Some(|line|));
    AppendKeepsRest(codec, runId, disk, binding, now, draft, Some(|line|));
    assert (line + "\n")[..|line|] == line;
    var text := TextOf(codec, records) + line;
    UnterminatedReads(codec, runId, records, record) by { assert Numbered(records + [record], runId); }
    AppendAfterReading(codec, runId, torn, text, |records| + 1, other, then_, next, None, Read(records + [record], None));
    var second := RecordFor(runId, next, |records| + 2);
    assert text + (codec.encode(second) + "\n") == text + codec.encode(second) + "\n";
    RunTogetherIsCorrupt(codec, runId, records, record, second, true);
  }

  // ----------------------------------------------------------------- the short write

  /**
   * The store ignores how many bytes the operating system took. A process that lives on after
   * a short write goes on to count the record in the manifest.
   */
  function ShortAppend(
      codec: Codec, runId: string, disk: Disk, binding: Binding, now: real, draft: Draft, taken: nat): Appended
  {
    if disk.manifest.None? then Appended(disk, None, Some(ManifestMissing))
    else
      var reading := ReadingOf(codec, runId, disk.journal, true);
      if reading.Corrupt? then Appended(disk, None, Some(JournalCorrupted))
      else
        var ready := Repaired(disk, reading);
        var number := Larger(disk.manifest.value.lastSeq, |reading.records|) + 1;
        var record := RecordFor(runId, draft, number);
        var line := codec.encode(record) + "\n";
        var after := ready.(journal := ready.journal + if taken < |line| then line[..taken] else line);
        var (noted, error) := Counted(after, binding, now, number);
        Appended(noted, Some(record), error)
  }

  /** After a short write that was counted, the next append leaves the journal readable only if nothing was lost. */
  lemma ShortWriteIsFatal(
      codec: Codec, runId: string, disk: Disk, records: seq<Record>,
      binding: Binding, now: real, draft: Draft, taken: nat, other: Binding, later: real, next: Draft)
    requires Faithful(codec) && Numbered(records, runId) && Holds(codec, disk.journal, records)
    requires disk.manifest.Some? && disk.manifest.value.lastSeq <= |records|
    requires ManifestAdmits(disk.manifest.value, binding, false)
    ensures var short := ShortAppend(codec, runId, disk, binding, now, draft, taken).disk;
      var after := AppendLocked(codec, runId, short, other, later, next, None).disk;
      ReadingOf(codec, runId, after.journal, true).Read? <==>
      taken > |codec.encode(RecordFor(runId, draft, |records| + 1))|
  {
    var record := RecordFor(runId, draft, |records| + 1);
    var short := ShortAppend(codec, runId, disk, binding, now, draft, taken).disk;
    ShortAppendLeaves(codec, runId, disk, records, binding, now, draft, taken);
    if taken > |codec.encode(record)| {
      WrittenIsHeld(codec, records, record, None);
      AppendKeepsLog(codec, runId, short, records + [record], other, later, next, None);
      var second := AppendLocked(codec, runId, short, other, later, next, None);
      HeldIsRead(codec, runId, second.disk.journal, records + [record] + WrittenRecords(second));
    } else if taken == |codec.encode(record)| {
      CountedLineRunsTogether(codec, runId, short, records, record, other, later, next);
    } else {
      CountedTearSkips(codec, runId, short, records, record, taken, other, later, next);
    }
  }

  lemma ShortAppendLeaves(
      codec: Codec, runId: string, disk: Disk, records: seq<Record>, binding: Binding, now: real, draft: Draft, taken: nat)
    requires Faithful(codec) && Numbered(records, runId) && Holds(codec, disk.journal, records)
    requires disk.manifest.Some? && disk.manifest.value.lastSeq <= |records|
    requires ManifestAdmits(disk.manifest.value, binding, false)
    ensures ShortensTo(codec, runId, disk, TextOf(codec, records), |records|, binding, now, draft, taken)
  {
    HeldIsRead(codec, runId, disk.journal, records);
    ShortAfterReading(
      codec, runId, disk, TextOf(codec, records), |records|, binding, now, draft, taken,
      ReadingOf(codec, runId, disk.journal, true));
  }

  ghost predicate ShortensTo(
    codec: Codec, runId: string, disk: Disk, text: string, count: nat, binding: Binding, now: real, draft: Draft, taken: nat)
  {
    var line := codec.encode(RecordFor(runId, draft, count + 1)) + "\n";
    var short := ShortAppend(codec, runId, disk, binding, now, draft, taken).disk;
    && short.journal == text + (if taken < |line| then line[..taken] else line)
    && short.manifest.Some? && short.manifest.value.lastSeq == count + 1
  }

  lemma ShortAfterReading(
      codec: Codec, runId: string, disk: Disk, text: string, count: nat, binding: Binding, now: real, draft: Draft,
      taken: nat, reading: Reading)
    requires reading == ReadingOf(codec, runId, disk.journal, true) && reading.Read? && |reading.records| == count
    requires (if reading.repaired.Some? then reading.repaired.value else disk.journal) == text
    requires disk.manifest.Some? && disk.manifest.value.lastSeq <= count && ManifestAdmits(disk.manifest.value, binding, false)
    ensures ShortensTo(codec, runId, disk, text, count, binding, now, draft, taken)
  {
  }

  /** A counted line without its newline: the next record is written onto it. */
  lemma CountedLineRunsTogether(
      codec: Codec, runId: string, short: Disk, records: seq<Record>, record: Record, other: Binding, later: real, next: Draft)
    requires Faithful(codec) && Numbered(records + [record], runId)
    requires var line := codec.encode(record);
      short.journal == TextOf(codec, records) + (line + "\n")[..|line|]
    requires short.manifest.Some? && short.manifest.value.lastSeq == |records| + 1
    ensures ReadingOf(codec, runId, AppendLocked(codec, runId, short, other, later, next, None).disk.journal, true).Corrupt?
  {
    var line, text := codec.encode(record), TextOf(codec, records) + codec.encode(record);
    assert (line + "\n")[..|line|] == line;
    UnterminatedReads(codec, runId, records, record);
    AppendAfterReading(codec, runId, short, text, |records| + 1, other, later, next, None, Read(records + [record], None));
    var second := RecordFor(runId, next, |records| + 2);
    assert text + (codec.encode(second) + "\n") == text + codec.encode(second) + "\n";
    assert Numbered(records, runId) by { assert forall i | 0 <= i < |records| :: records[i] == (records + [record])[i]; }
    RunTogetherIsCorrupt(codec, runId, records, record, second, true);
  }

  /** A counted tear is cut away, and the next record skips its number. */
  lemma CountedTearSkips(
      codec: Codec, runId: string, short: Disk, records: seq<Record>, record: Record, taken: nat,
      other: Binding, later: real, next: Draft)
    requires Faithful(codec) && Numbered(records, runId) && taken < |codec.encode(record)|
    requires short.journal == TextOf(codec, records) + (codec.encode(record) + "\n")[..taken]
    requires short.manifest.Some? && short.manifest.value.lastSeq == |records| + 1
    ensures ReadingOf(codec, runId, AppendLocked(codec, runId, short, other, later, next, None).disk.journal, true).Corrupt?
  {
    var tear := codec.encode(record)[..taken];
    assert (codec.encode(record) + "\n")[..taken] == tear;
    assert Torn(codec, tear);
    HeldIsRead(codec, runId, short.journal, records);
    SkippedNumberIsCorrupt(codec, runId, records, RecordFor(runId, next, |records| + 2), true);
  }
}
