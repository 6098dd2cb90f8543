/** The journal file: one encoded record a line, and the reader that repairs a torn tail (run_context.py). */
module JournalText {
  import opened Wrappers
  import opened Text

  datatype Channel = Lead | Supervisor

  datatype RecordKind =
    | MessageDelta | StateDelta | StageCheckpoint | ContextCompacted | ArtifactCommitted | RunStatusRecord | QueryState

  datatype Key = NextStage | StatusKey | OtherKey(name: string)

  /** A payload value reads as the text Python's `str` gives for it. */
  type Payload = map<Key, string>

  datatype Record = Record(
    number: int, runId: string, channel: Channel, kind: RecordKind, stage: string, payload: Payload)

  /** How records become lines and lines become records. */
  datatype Codec = Codec(encode: Record -> string, decode: string -> Option<Record>)

  predicate OneLine(s: string) {
    forall i | 0 <= i < |s| :: s[i] != '\n'
  }

  /**
   * What the journal needs of its line format: a record is one solid line that decodes to
   * itself, and neither a cut line nor two lines run together decode at all.
   */
  ghost predicate Faithful(codec: Codec) {
    && (forall r :: codec.decode(codec.encode(r)) == Some(r))
    && (forall r :: OneLine(codec.encode(r)) && codec.encode(r) != "" && !Space(codec.encode(r)[0]))
    && (forall r, k | 0 <= k < |codec.encode(r)| :: codec.decode(codec.encode(r)[..k]).None?)
    && (forall r, q :: codec.decode(codec.encode(r) + codec.encode(q)).None?)
  }

  function NewlineAt(text: string): (i: nat)
    ensures i <= |text| && OneLine(text[..i])
    ensures i < |text| ==> text[i] == '\n'
  {
    if text == "" || text[0] == '\n' then 0
    else
      var i := 1 + NewlineAt(text[1..]);
      assert text[..i] == [text[0]] + text[1..][..i - 1];
      i
  }

  /** `bytes.splitlines` for text whose only line break is the newline. */
  function Lines(text: string): seq<string> {
    if text == "" then []
    else
      var i := NewlineAt(text);
      if i == |text| then [text] else [text[..i]] + Lines(text[i + 1..])
  }

  function Join(lines: seq<string>): string {
    if lines == [] then ""
    else if |lines| == 1 then lines[0]
    else lines[0] + "\n" + Join(lines[1..])
  }

  predicate EndsWithNewline(text: string) {
    text != "" && text[|text| - 1] == '\n'
  }

  predicate Blank(line: string) {
    Strip(line) == ""
  }

  // ------------------------------------------------------------------------ the reader

  /** `repaired` is what the reader writes back over a torn file. */
  datatype Reading = Read(records: seq<Record>, repaired: Option<string>) | Corrupt

  function PrefixText(lines: seq<string>): string {
    var joined := Join(lines);
    if joined == "" then "" else joined + "\n"
  }

  function Prepend(before: seq<Record>, reading: Reading): Reading {
    if reading.Corrupt? then Corrupt else reading.(records := before + reading.records)
  }

  /** What the reader makes of the lines from the `i`th on. */
  function ReadingFrom(
      codec: Codec, runId: string, lines: seq<string>, i: nat, expected: int, completeTail: bool, repair: bool): Reading
    requires i <= |lines|
    decreases |lines| - i
  {
    if i == |lines| then Read([], None)
    else if Blank(lines[i]) then ReadingFrom(codec, runId, lines, i + 1, expected, completeTail, repair)
    else
      match codec.decode(lines[i])
      case None =>
        if repair && i == |lines| - 1 && !completeTail then Read([], Some(PrefixText(lines[..i]))) else Corrupt
      case Some(record) =>
        if record.runId != runId || record.number != expected then Corrupt
        else Prepend([record], ReadingFrom(codec, runId, lines, i + 1, expected + 1, completeTail, repair))
  }

  function ReadingOf(codec: Codec, runId: string, text: string, repair: bool): Reading {
    ReadingFrom(codec, runId, Lines(text), 0, 1, EndsWithNewline(text), repair)
  }

  /** The reader's loop over the raw lines. */
  method ReadLines(codec: Codec, runId: string, text: string, repair: bool) returns (reading: Reading)
    ensures reading == ReadingOf(codec, runId, text, repair)
  {
    var completeTail := EndsWithNewline(text);
    var rawLines := Lines(text);
    var records: seq<Record> := [];
    var expected := 1;
    var index := 0;
    while index < |rawLines|
      invariant 0 <= index <= |rawLines|
      invariant ReadingOf(codec, runId, text, repair)
             == Prepend(records, ReadingFrom(codec, runId, rawLines, index, expected, completeTail, repair))
    {
      var raw := rawLines[index];
      index := index + 1;
      if Blank(raw) {
        continue;
      }
      var decoded := codec.decode(raw);
      if decoded.None? {
        var isPartialTail := index == |rawLines| && !completeTail;
        if repair && isPartialTail {
          return Read(records, Some(PrefixText(rawLines[..index - 1])));
        }
        return Corrupt;
      }
      var record := decoded.value;
      if record.runId != runId || record.number != expected {
        return Corrupt;
      }
      ghost var rest := ReadingFrom(codec, runId, rawLines, index, expected + 1, completeTail, repair);
      assert rest.Read? ==> records + ([record] + rest.records) == (records + [record]) + rest.records;
      records := records + [record];
      expected := expected + 1;
    }
    return Read(records, None);
  }

  // ---------------------------------------------------------- what a good file looks like

  function TextOf(codec: Codec, records: seq<Record>): string {
    if records == [] then ""
    else codec.encode(records[0]) + "\n" + TextOf(codec, records[1..])
  }

  function Encoded(codec: Codec, records: seq<Record>): seq<string> {
    seq(|records|, i requires 0 <= i < |records| => codec.encode(records[i]))
  }

  /** Numbered 1, 2, ... and all of this run. */
  predicate Numbered(records: seq<Record>, runId: string) {
    forall i | 0 <= i < |records| :: records[i].number == i + 1 && records[i].runId == runId
  }

  /** Nothing, or a line that was cut before its last character. */
  ghost predicate Torn(codec: Codec, tear: string) {
    tear == "" || exists r, k :: 0 <= k < |codec.encode(r)| && tear == codec.encode(r)[..k]
  }

  lemma {:induction false} TextOfAppend(codec: Codec, records: seq<Record>, r: Record)
    ensures TextOf(codec, records + [r]) == TextOf(codec, records) + codec.encode(r) + "\n"
  {
    if records == [] {
      assert records + [r] == [r] && TextOf(codec, [r]) == codec.encode(r) + "\n" + TextOf(codec, []);
    } else {
      assert (records + [r])[1..] == records[1..] + [r];
      TextOfAppend(codec, records[1..], r);
    }
  }

  lemma {:induction false} NewlineAtIs(line: string, rest: string)
    requires OneLine(line)
    ensures NewlineAt(line + "\n" + rest) == |line|
    ensures NewlineAt(line) == |line|
  {
    if line != "" {
      NewlineAtIs(line[1..], rest);
      assert (line + "\n" + rest)[1..] == line[1..] + "\n" + rest;
    }
  }

  lemma LinesStep(line: string, rest: string)
    requires OneLine(line)
    ensures Lines(line + "\n" + rest) == [line] + Lines(rest)
  {
    var text := line + "\n" + rest;
    NewlineAtIs(line, rest);
    assert text[..|line|] == line && text[|line| + 1..] == rest;
  }

  /** The text of the first record, then the rest of the file. */
  lemma FirstLineFirst(codec: Codec, records: seq<Record>, tail: string)
    requires records != []
    ensures TextOf(codec, records) + tail == codec.encode(records[0]) + "\n" + (TextOf(codec, records[1..]) + tail)
    ensures Encoded(codec, records) == [codec.encode(records[0])] + Encoded(codec, records[1..])
  {
  }

  lemma AppendAfterFirst<T>(first: seq<T>, middle: seq<T>, last: seq<T>)
    ensures first + (middle + last) == first + middle + last
  {
  }

  /** Splitting a file of whole lines and a tail gives the lines, then those of the tail. */
  lemma {:induction false} LinesOfText(codec: Codec, records: seq<Record>, tail: string)
    requires Faithful(codec)
    ensures Lines(TextOf(codec, records) + tail) == Encoded(codec, records) + Lines(tail)
  {
    if records == [] {
      assert TextOf(codec, records) + tail == tail;
      assert Encoded(codec, records) + Lines(tail) == Lines(tail);
    } else {
      var line := codec.encode(records[0]);
      FirstLineFirst(codec, records, tail);
      LinesStep(line, TextOf(codec, records[1..]) + tail);
      LinesOfText(codec, records[1..], tail);
      AppendAfterFirst([line], Encoded(codec, records[1..]), Lines(tail));
    }
  }

  lemma OneLineIsOne(line: string)
    requires OneLine(line) && line != ""
    ensures Lines(line) == [line] && Lines(line + "\n") == [line]
  {
    NewlineAtIs(line, "");
    assert line + "\n" == line + "\n" + "";
    LinesStep(line, "");
  }

  lemma {:induction false} JoinEncoded(codec: Codec, records: seq<Record>)
    requires Faithful(codec)
    ensures PrefixText(Encoded(codec, records)) == TextOf(codec, records)
  {
    if records != [] {
      var line := codec.encode(records[0]);
      assert Encoded(codec, records)[1..] == Encoded(codec, records[1..]);
      JoinEncoded(codec, records[1..]);
      if |records| > 1 {
        assert Join(Encoded(codec, records[1..])) != "" by { JoinIsSolid(codec, records[1..]); }
      } else {
        assert records[1..] == [];
      }
    }
  }

  lemma JoinIsSolid(codec: Codec, records: seq<Record>)
    requires Faithful(codec) && records != []
    ensures Join(Encoded(codec, records)) != ""
  {
    assert Encoded(codec, records)[0] == codec.encode(records[0]) != "";
  }

  lemma SolidIsNotBlank(line: string)
    requires line != "" && !Space(line[0])
    ensures !Blank(line)
  {
    StripKeepsSolid(line);
  }

  lemma {:induction false} StripKeepsSolid(line: string)
    requires line != "" && !Space(line[0])
    ensures Strip(line) != ""
    decreases |line|
  {
    if Space(line[|line| - 1]) {
      StripKeepsSolid(line[..|line| - 1]);
    }
  }

  lemma ReadOneLine(
      codec: Codec, runId: string, lines: seq<string>, i: nat, record: Record, completeTail: bool, repair: bool)
    requires Faithful(codec) && i < |lines| && lines[i] == codec.encode(record)
    requires record.number == i + 1 && record.runId == runId
    ensures ReadingFrom(codec, runId, lines, i, i + 1, completeTail, repair)
         == Prepend([record], ReadingFrom(codec, runId, lines, i + 1, i + 2, completeTail, repair))
  {
    SolidIsNotBlank(lines[i]);
  }

  lemma PrependFrom(records: seq<Record>, i: nat, reading: Reading)
    requires i < |records|
    ensures Prepend([records[i]], Prepend(records[i + 1..], reading)) == Prepend(records[i..], reading)
  {
    assert records[i..] == [records[i]] + records[i + 1..];
    if reading.Read? {
      AppendAfterFirst([records[i]], records[i + 1..], reading.records);
    }
  }

  lemma PrependNothing(records: seq<Record>, reading: Reading)
    ensures Prepend(records[|records|..], reading) == reading
    ensures reading.Read? && reading.records == [] ==> Prepend(records[0..], reading) == reading.(records := records)
  {
    assert records[|records|..] == [] && records[0..] == records;
    assert reading.Read? ==> [] + reading.records == reading.records;
    assert records + [] == records;
  }

  /** From the `i`th whole line on, the reader finds the records and then deals with the tail. */
  lemma {:induction false} ReadingWholeLines(
      codec: Codec, runId: string, records: seq<Record>, lines: seq<string>, i: nat, completeTail: bool, repair: bool)
    requires Faithful(codec) && Numbered(records, runId) && i <= |records| <= |lines|
    requires forall k | 0 <= k < |records| :: lines[k] == codec.encode(records[k])
    ensures ReadingFrom(codec, runId, lines, i, i + 1, completeTail, repair)
         == Prepend(records[i..], ReadingFrom(codec, runId, lines, |records|, |records| + 1, completeTail, repair))
    decreases |records| - i
  {
    var end := ReadingFrom(codec, runId, lines, |records|, |records| + 1, completeTail, repair);
    if i < |records| {
      ReadOneLine(codec, runId, lines, i, records[i], completeTail, repair);
      ReadingWholeLines(codec, runId, records, lines, i + 1, completeTail, repair);
      PrependFrom(records, i, end);
    } else {
      PrependNothing(records, end);
    }
  }

  lemma TornLine(codec: Codec, tear: string)
    requires Faithful(codec) && Torn(codec, tear) && tear != ""
    ensures OneLine(tear) && !Blank(tear) && codec.decode(tear).None?
  {
    var r, k :| 0 <= k < |codec.encode(r)| && tear == codec.encode(r)[..k];
    SolidIsNotBlank(tear);
  }

  lemma EndsLike(front: string, tail: string)
    requires tail != ""
    ensures EndsWithNewline(front + tail) <==> tail[|tail| - 1] == '\n'
  {
  }

  lemma TornTailReading(codec: Codec, runId: string, records: seq<Record>, tear: string, repair: bool)
    requires Faithful(codec) && Torn(codec, tear) && tear != ""
    ensures ReadingFrom(codec, runId, Encoded(codec, records) + [tear], |records|, |records| + 1, false, repair)
         == if repair then Read([], Some(TextOf(codec, records))) else Corrupt
  {
    TornLine(codec, tear);
    var lines := Encoded(codec, records) + [tear];
    assert lines[|records|] == tear && lines[..|records|] == Encoded(codec, records);
    JoinEncoded(codec, records);
  }

  /** A file that ends in a tear reads as its whole records, and the tear is cut away, if the reader may repair. */
  lemma TornFileReads(codec: Codec, runId: string, records: seq<Record>, tear: string, repair: bool)
    requires Faithful(codec) && Numbered(records, runId) && Torn(codec, tear) && tear != ""
    ensures ReadingOf(codec, runId, TextOf(codec, records) + tear, repair)
         == if repair then Read(records, Some(TextOf(codec, records))) else Corrupt
  {
    TornLine(codec, tear);
    LinesOfText(codec, records, tear);
    OneLineIsOne(tear);
    var lines := Encoded(codec, records) + [tear];
    EndsLike(TextOf(codec, records), tear);
    ReadingWholeLines(codec, runId, records, lines, 0, false, repair);
    TornTailReading(codec, runId, records, tear, repair);
    PrependNothing(records, Read([], Some(TextOf(codec, records))));
  }

  lemma LinesReadWhole(codec: Codec, runId: string, records: seq<Record>, completeTail: bool, repair: bool)
    requires Faithful(codec) && Numbered(records, runId)
    ensures ReadingFrom(codec, runId, Encoded(codec, records), 0, 1, completeTail, repair) == Read(records, None)
  {
    ReadingWholeLines(codec, runId, records, Encoded(codec, records), 0, completeTail, repair);
    PrependNothing(records, Read([], None));
  }

  lemma WholeFileReads(codec: Codec, runId: string, records: seq<Record>, repair: bool)
    requires Faithful(codec) && Numbered(records, runId)
    ensures ReadingOf(codec, runId, TextOf(codec, records), repair) == Read(records, None)
  {
    var text := TextOf(codec, records);
    assert text + "" == text;
    LinesOfText(codec, records, "");
    assert Encoded(codec, records) + [] == Encoded(codec, records);
    LinesReadWhole(codec, runId, records, EndsWithNewline(text), repair);
  }

  /** A last line that lost only its newline still reads as a record, and is left as it is. */
  lemma UnterminatedReads(codec: Codec, runId: string, records: seq<Record>, last: Record)
    requires Faithful(codec) && Numbered(records + [last], runId)
    ensures ReadingOf(codec, runId, TextOf(codec, records) + codec.encode(last), true) == Read(records + [last], None)
  {
    var line := codec.encode(last);
    LinesOfText(codec, records, line);
    OneLineIsOne(line);
    assert Encoded(codec, records) + [line] == Encoded(codec, records + [last]);
    LinesReadWhole(codec, runId, records + [last], EndsWithNewline(TextOf(codec, records) + line), true);
  }

  lemma RunTogetherLine(codec: Codec, runId: string, lines: seq<string>, i: nat, last: Record, next: Record, repair: bool)
    requires Faithful(codec) && i + 1 == |lines| && lines[i] == codec.encode(last) + codec.encode(next)
    ensures ReadingFrom(codec, runId, lines, i, i + 1, true, repair).Corrupt?
  {
    SolidIsNotBlank(lines[i]);
  }

  lemma LastLineOf(codec: Codec, records: seq<Record>, line: string)
    requires Faithful(codec) && OneLine(line) && line != ""
    ensures Lines(TextOf(codec, records) + (line + "\n")) == Encoded(codec, records) + [line]
  {
    LinesOfText(codec, records, line + "\n");
    OneLineIsOne(line);
  }

  /** Two records on one line make the whole file unreadable. */
  lemma RunTogetherIsCorrupt(codec: Codec, runId: string, records: seq<Record>, last: Record, next: Record, repair: bool)
    requires Faithful(codec) && Numbered(records, runId)
    ensures ReadingOf(
              codec, runId, TextOf(codec, records) + codec.encode(last) + codec.encode(next) + "\n", repair).Corrupt?
  {
    var line := codec.encode(last) + codec.encode(next);
    var text := TextOf(codec, records) + (line + "\n");
    var lines := Encoded(codec, records) + [line];
    assert TextOf(codec, records) + codec.encode(last) + codec.encode(next) + "\n" == text by {
      AppendAfterFirst(TextOf(codec, records), codec.encode(last), codec.encode(next));
      AppendAfterFirst(TextOf(codec, records), line, "\n");
    }
    assert Lines(text) == lines by { LastLineOf(codec, records, line); }
    assert EndsWithNewline(text);
    RunTogetherReading(codec, runId, records, lines, last, next, repair);
  }

  lemma RunTogetherReading(
      codec: Codec, runId: string, records: seq<Record>, lines: seq<string>, last: Record, next: Record, repair: bool)
    requires Faithful(codec) && Numbered(records, runId)
    requires lines == Encoded(codec, records) + [codec.encode(last) + codec.encode(next)]
    ensures ReadingFrom(codec, runId, lines, 0, 1, true, repair).Corrupt?
  {
    ReadingWholeLines(codec, runId, records, lines, 0, true, repair);
    RunTogetherLine(codec, runId, lines, |records|, last, next, repair);
  }

  /** A record with any other number than the next makes the whole file unreadable. */
  lemma SkippedNumberIsCorrupt(codec: Codec, runId: string, records: seq<Record>, record: Record, repair: bool)
    requires Faithful(codec) && Numbered(records, runId) && record.number != |records| + 1
    ensures ReadingOf(codec, runId, TextOf(codec, records) + (codec.encode(record) + "\n"), repair).Corrupt?
  {
    var text := TextOf(codec, records) + (codec.encode(record) + "\n");
    var lines := Encoded(codec, records) + [codec.encode(record)];
    assert Lines(text) == lines by { LastLineOf(codec, records, codec.encode(record)); }
    assert EndsWithNewline(text);
    SkippedNumberReading(codec, runId, records, lines, record, repair);
  }

  lemma SkippedNumberReading(
      codec: Codec, runId: string, records: seq<Record>, lines: seq<string>, record: Record, repair: bool)
    requires Faithful(codec) && Numbered(records, runId) && record.number != |records| + 1
    requires lines == Encoded(codec, records) + [codec.encode(record)]
    ensures ReadingFrom(codec, runId, lines, 0, 1, true, repair).Corrupt?
  {
    ReadingWholeLines(codec, runId, records, lines, 0, true, repair);
    SolidIsNotBlank(codec.encode(record));
    assert lines[|records|] == codec.encode(record);
  }

  // ------------------------------------------------------------- the reader, said of any file

  function NonBlank(lines: seq<string>): seq<string> {
    if lines == [] then [] else (if Strip(lines[0]) == "" then [] else [lines[0]]) + NonBlank(lines[1..])
  }

  /** Lines that hold the records of the run, numbered from `expected` on. */
  predicate HoldRecords(codec: Codec, runId: string, lines: seq<string>, expected: int) {
    forall k | 0 <= k < |lines| ::
      var record := codec.decode(lines[k]);
      record.Some? && record.value.runId == runId && record.value.number == expected + k
  }

  function Decoded(codec: Codec, lines: seq<string>): (records: seq<Record>)
    requires forall k | 0 <= k < |lines| :: codec.decode(lines[k]).Some?
    ensures |records| == |lines| && forall k | 0 <= k < |lines| :: records[k] == codec.decode(lines[k]).value
  {
    seq(|lines|, k requires 0 <= k < |lines| => codec.decode(lines[k]).value)
  }

  /** Nothing but a last line that decodes to nothing stands in the way, in a file that does not end its last line. */
  predicate OnlyTailIsTorn(codec: Codec, runId: string, lines: seq<string>, expected: int) {
    && lines != [] && Strip(lines[|lines| - 1]) != "" && codec.decode(lines[|lines| - 1]).None?
    && HoldRecords(codec, runId, NonBlank(lines[..|lines| - 1]), expected)
  }

  lemma HoldFromFirst(codec: Codec, runId: string, lines: seq<string>, expected: int)
    requires lines != []
    ensures HoldRecords(codec, runId, lines, expected) <==>
            && codec.decode(lines[0]).Some? && codec.decode(lines[0]).value.runId == runId
            && codec.decode(lines[0]).value.number == expected
            && HoldRecords(codec, runId, lines[1..], expected + 1)
  {
    if HoldRecords(codec, runId, lines[1..], expected + 1) {
      forall k | 1 <= k < |lines| ensures lines[k] == lines[1..][k - 1] {
      }
    }
  }

  /** What the reader must make of these lines; `repaired` is the text before the last one. */
  ghost predicate ReadsAs(
      codec: Codec, runId: string, lines: seq<string>, expected: int, mayRepair: bool, repaired: string, reading: Reading)
  {
    if HoldRecords(codec, runId, NonBlank(lines), expected) then
      reading == Read(Decoded(codec, NonBlank(lines)), None)
    else if mayRepair && OnlyTailIsTorn(codec, runId, lines, expected) then
      reading == Read(Decoded(codec, NonBlank(lines[..|lines| - 1])), Some(repaired))
    else reading.Corrupt?
  }

  lemma TornFromFirst(codec: Codec, runId: string, lines: seq<string>, expected: int)
    requires |lines| > 1
    ensures OnlyTailIsTorn(codec, runId, lines, expected) <==>
            if Strip(lines[0]) == "" then OnlyTailIsTorn(codec, runId, lines[1..], expected)
            else
              && codec.decode(lines[0]).Some? && codec.decode(lines[0]).value.runId == runId
              && codec.decode(lines[0]).value.number == expected
              && OnlyTailIsTorn(codec, runId, lines[1..], expected + 1)
    ensures var init, rest := lines[..|lines| - 1], lines[1..];
      NonBlank(init) == (if Strip(lines[0]) == "" then [] else [lines[0]]) + NonBlank(rest[..|rest| - 1])
  {
    var init, rest := lines[..|lines| - 1], lines[1..];
    assert init[0] == lines[0] && init[1..] == rest[..|rest| - 1] && rest[|rest| - 1] == lines[|lines| - 1];
    if Strip(lines[0]) != "" {
      assert NonBlank(init)[1..] == NonBlank(init[1..]);
      HoldFromFirst(codec, runId, NonBlank(init), expected);
    } else {
      assert NonBlank(init) == NonBlank(init[1..]);
    }
  }

  lemma BehindBlank(
      codec: Codec, runId: string, lines: seq<string>, expected: int, mayRepair: bool, repaired: string, reading: Reading)
    requires lines != [] && Strip(lines[0]) == ""
    requires ReadsAs(codec, runId, lines[1..], expected, mayRepair, repaired, reading)
    ensures ReadsAs(codec, runId, lines, expected, mayRepair, repaired, reading)
  {
    assert NonBlank(lines) == NonBlank(lines[1..]);
    if |lines| > 1 {
      TornFromFirst(codec, runId, lines, expected);
    }
  }

  lemma DecodedFromFirst(codec: Codec, first: string, rest: seq<string>)
    requires codec.decode(first).Some? && forall k | 0 <= k < |rest| :: codec.decode(rest[k]).Some?
    ensures forall k | 0 <= k < |[first] + rest| :: codec.decode(([first] + rest)[k]).Some?
    ensures Decoded(codec, [first] + rest) == [codec.decode(first).value] + Decoded(codec, rest)
  {
  }

  lemma BehindRecord(
      codec: Codec, runId: string, lines: seq<string>, expected: int, mayRepair: bool, repaired: string, reading: Reading)
    requires lines != [] && Strip(lines[0]) != "" && codec.decode(lines[0]).Some?
    requires codec.decode(lines[0]).value.runId == runId && codec.decode(lines[0]).value.number == expected
    requires ReadsAs(codec, runId, lines[1..], expected + 1, mayRepair, repaired, reading)
    ensures ReadsAs(codec, runId, lines, expected, mayRepair, repaired, Prepend([codec.decode(lines[0]).value], reading))
  {
    var rest := lines[1..];
    assert NonBlank(lines) == [lines[0]] + NonBlank(rest) && NonBlank(lines)[1..] == NonBlank(rest);
    HoldFromFirst(codec, runId, NonBlank(lines), expected);
    if HoldRecords(codec, runId, NonBlank(rest), expected + 1) {
      DecodedFromFirst(codec, lines[0], NonBlank(rest));
    } else if rest != [] {
      TornFromFirst(codec, runId, lines, expected);
      if OnlyTailIsTorn(codec, runId, rest, expected + 1) {
        DecodedFromFirst(codec, lines[0], NonBlank(rest[..|rest| - 1]));
      }
    }
  }

  lemma AtBadLine(codec: Codec, runId: string, lines: seq<string>, expected: int, mayRepair: bool, repaired: string)
    requires lines != [] && Strip(lines[0]) != ""
    requires codec.decode(lines[0]).Some? ==>
               codec.decode(lines[0]).value.runId != runId || codec.decode(lines[0]).value.number != expected
    ensures ReadsAs(codec, runId, lines, expected, mayRepair, repaired,
                    if codec.decode(lines[0]).None? && mayRepair && |lines| == 1 then Read([], Some(repaired)) else Corrupt)
  {
    assert NonBlank(lines)[0] == lines[0];
    if |lines| > 1 {
      TornFromFirst(codec, runId, lines, expected);
    }
  }

  lemma {:induction false} ReadingFromIs(
      codec: Codec, runId: string, lines: seq<string>, i: nat, expected: int, completeTail: bool, repair: bool)
    requires i <= |lines|
    ensures ReadsAs(codec, runId, lines[i..], expected, repair && !completeTail,
                    if lines == [] then "" else PrefixText(lines[..|lines| - 1]),
                    ReadingFrom(codec, runId, lines, i, expected, completeTail, repair))
    decreases |lines| - i
  {
    if i < |lines| {
      var rest, repaired := lines[i..], PrefixText(lines[..|lines| - 1]);
      assert rest[1..] == lines[i + 1..];
      if Strip(lines[i]) == "" {
        ReadingFromIs(codec, runId, lines, i + 1, expected, completeTail, repair);
        BehindBlank(codec, runId, rest, expected, repair && !completeTail, repaired,
                    ReadingFrom(codec, runId, lines, i + 1, expected, completeTail, repair));
      } else if codec.decode(lines[i]).Some? && codec.decode(lines[i]).value.runId == runId
                && codec.decode(lines[i]).value.number == expected {
        ReadingFromIs(codec, runId, lines, i + 1, expected + 1, completeTail, repair);
        BehindRecord(codec, runId, rest, expected, repair && !completeTail, repaired,
                     ReadingFrom(codec, runId, lines, i + 1, expected + 1, completeTail, repair));
      } else {
        AtBadLine(codec, runId, rest, expected, repair && !completeTail, repaired);
      }
    }
  }

  /**
   * Any file at all: it reads as its non-blank lines if they hold the records of the run numbered
   * from 1; failing that, as all but a torn last line, which the repair cuts away; else it is corrupt.
   */
  lemma ReadingIs(codec: Codec, runId: string, text: string, repair: bool)
    ensures ReadsAs(codec, runId, Lines(text), 1, repair && (text == "" || text[|text| - 1] != '\n'),
                    if Lines(text) == [] then "" else PrefixText(Lines(text)[..|Lines(text)| - 1]),
                    ReadingOf(codec, runId, text, repair))
  {
    ReadingFromIs(codec, runId, Lines(text), 0, 1, EndsWithNewline(text), repair);
  }
}
