/** Fitting evaluator feedback into a character budget (agents/deep_researcher.py, `_bounded_assessment_feedback`). */
module Feedback {
  import opened Wrappers
  import opened Text
  import opened JsonText

  const ELLIPSIS := "…"
  const KEEP := 8
  const ITEM_CHARS := 160
  const REASON_CHARS := 240
  const MAX_ITEMS := 3
  const LEAST_LIMIT := 512

  datatype Scores = Scores(relevance: nat, sourceQuality: nat, evidenceCoverage: nat, corroboration: nat)

  /** `encoded` is the whole assessment as JSON. */
  datatype Assessment = Assessment(
    decision: string, scores: Scores, conflicts: seq<string>, missing: seq<string>, queries: seq<string>,
    reason: string, encoded: string)

  function Cut(s: string, n: nat): string {
    if |s| <= n then s else s[..n]
  }

  function Items(values: seq<string>): (items: seq<string>)
    ensures |items| <= MAX_ITEMS
  {
    seq(if |values| < MAX_ITEMS then |values| else MAX_ITEMS, i requires 0 <= i < |values| => Cut(values[i], ITEM_CHARS))
  }

  /** The strings of the summary that may be shortened, in the order they stand in it. */
  function Slots(a: Assessment): (slots: seq<string>)
    ensures |slots| == ReasonAt(a) + 1
  {
    [a.decision] + Items(a.conflicts) + Items(a.missing) + Items(a.queries) + [Cut(a.reason, REASON_CHARS)]
  }

  /** The first characters, at most so many. */
  predicate FirstOf(s: string, t: string, most: nat) {
    t <= s && |t| == if |s| < most then |s| else most
  }

  /** A summary starts from the decision, the first 160 characters of the first three items of each list, and 240 of the reason. */
  lemma SlotsAre(a: Assessment)
    ensures var s, m, q, r := Slots(a), MissingAt(a), QueriesAt(a), ReasonAt(a);
      && s[0] == a.decision && FirstOf(a.reason, s[r], 240)
      && m - 1 == (if |a.conflicts| < 3 then |a.conflicts| else 3)
      && q - m == (if |a.missing| < 3 then |a.missing| else 3)
      && r - q == (if |a.queries| < 3 then |a.queries| else 3)
      && (forall i | 0 <= i < m - 1 :: FirstOf(a.conflicts[i], s[1 + i], 160))
      && (forall i | 0 <= i < q - m :: FirstOf(a.missing[i], s[m + i], 160))
      && forall i | 0 <= i < r - q :: FirstOf(a.queries[i], s[q + i], 160)
  {
  }

  function MissingAt(a: Assessment): nat { 1 + |Items(a.conflicts)| }

  function QueriesAt(a: Assessment): nat { MissingAt(a) + |Items(a.missing)| }

  function ReasonAt(a: Assessment): nat { QueriesAt(a) + |Items(a.queries)| }

  // ------------------------------------------------------------------ the text of a summary

  function Strings(strings: seq<string>): Json {
    Array(seq(|strings|, i requires 0 <= i < |strings| => Str(strings[i])))
  }

  function ScoresOf(s: Scores): Json {
    Object([
        Field("relevance", Number(s.relevance)), Field("source_quality", Number(s.sourceQuality)),
        Field("evidence_coverage", Number(s.evidenceCoverage)), Field("corroboration", Number(s.corroboration))])
  }

  /** The object a summary with these strings stands for. */
  function SummaryOf(a: Assessment, slots: seq<string>): Json
    requires |slots| == ReasonAt(a) + 1
  {
    var m, q, r := MissingAt(a), QueriesAt(a), ReasonAt(a);
    Object([
        Field("decision", Str(slots[0])),
        Field("scores", ScoresOf(a.scores)),
        Field("unresolved_conflicts", Strings(slots[1..m])),
        Field("missing_information", Strings(slots[m..q])),
        Field("suggested_queries", Strings(slots[q..r])),
        Field("reason", Str(slots[r])),
        Field("truncated", Flag(true))])
  }

  /** The object that takes its place when it does not fit. */
  function FallbackOf(a: Assessment): Json {
    Object([
        Field("decision", Str(a.decision)),
        Field("reason", Str("Quality feedback exceeded the bounded context budget.")),
        Field("truncated", Flag(true))])
  }

  /** The summary of `a` with its strings replaced by `slots`. */
  function Render(a: Assessment, slots: seq<string>): string
    requires |slots| == ReasonAt(a) + 1
  {
    Dump(SummaryOf(a, slots))
  }

  function Fallback(a: Assessment): string {
    Dump(FallbackOf(a))
  }

  /** The text is JSON: whoever reads it finds the summary, or what stands in for it, and nothing behind. */
  lemma FeedbackComesBack(a: Assessment, slots: seq<string>)
    requires |slots| == ReasonAt(a) + 1
    ensures Read(Render(a, slots)) == Some(Taken(SummaryOf(a, slots), ""))
    ensures Read(Fallback(a)) == Some(Taken(FallbackOf(a), ""))
  {
    ComesBack(SummaryOf(a, slots), "");
    ComesBack(FallbackOf(a), "");
    assert Render(a, slots) + "" == Render(a, slots) && Fallback(a) + "" == Fallback(a);
  }

  // --------------------------------------------------------------------------- widths

  function WidthOf(s: string): nat {
    if s == "" then 0 else |Escaped(s[0])| + WidthOf(s[1..])
  }

  function Wide(strings: seq<string>): nat {
    if strings == [] then 0 else WidthOf(strings[0]) + Wide(strings[1..])
  }

  function ListOverhead(n: nat): nat {
    2 + 2 * n + if n == 0 then 0 else n - 1
  }

  /** Keys, quotes, brackets and commas: what a summary takes beside the characters of its strings. */
  function Overhead(a: Assessment): nat {
    192 + ScoreDigits(a.scores)
    + ListOverhead(MissingAt(a) - 1) + ListOverhead(QueriesAt(a) - MissingAt(a)) + ListOverhead(ReasonAt(a) - QueriesAt(a))
  }

  function ScoreDigits(s: Scores): nat {
    |Decimal(s.relevance)| + |Decimal(s.sourceQuality)| + |Decimal(s.evidenceCoverage)| + |Decimal(s.corroboration)|
  }

  /** Characters JSON writes as they are. */
  predicate Unescaped(s: string) {
    forall i | 0 <= i < |s| :: s[i] >= ' ' && s[i] != '\"' && s[i] != '\\'
  }

  lemma {:induction false} UnescapedWidth(s: string)
    requires Unescaped(s)
    ensures WidthOf(s) == |s|
  {
    if s != "" {
      UnescapedWidth(s[1..]);
    }
  }

  lemma {:induction false} EscapedWidth(s: string)
    ensures |EscapedText(s)| == WidthOf(s)
  {
    if s != "" {
      EscapedWidth(s[1..]);
    }
  }

  lemma QuotedWidth(s: string)
    ensures |Quoted(s)| == WidthOf(s) + 2
  {
    EscapedWidth(s);
  }

  lemma {:induction false} ItemsWidth(strings: seq<string>)
    requires strings != []
    ensures |DumpItems(Strings(strings).items)| == 3 * |strings| - 1 + Wide(strings)
  {
    var items := Strings(strings).items;
    QuotedWidth(strings[0]);
    assert Dump(items[0]) == Quoted(strings[0]);
    if |strings| > 1 {
      assert items[1..] == Strings(strings[1..]).items;
      ItemsWidth(strings[1..]);
    } else {
      assert Wide(strings[1..]) == 0;
    }
  }

  lemma ListWidth(strings: seq<string>)
    ensures |Dump(Strings(strings))| == ListOverhead(|strings|) + Wide(strings)
  {
    if strings != [] {
      ItemsWidth(strings);
    }
  }

  lemma FieldWidth(field: Field, name: nat)
    requires Plain(field, name)
    ensures |DumpField(field)| == name + 3 + |Dump(field.value)|
  {
    UnescapedWidth(field.name);
    QuotedWidth(field.name);
  }

  /** A field with a name of this length, written as it is. */
  predicate Plain(field: Field, name: nat) {
    Unescaped(field.name) && |field.name| == name
  }

  function FieldWidths(fields: seq<Field>): nat {
    if fields == [] then 0 else |DumpField(fields[0])| + FieldWidths(fields[1..])
  }

  lemma {:induction false} FieldsWidth(fields: seq<Field>)
    requires fields != []
    ensures |DumpFields(fields)| == FieldWidths(fields) + |fields| - 1
  {
    if |fields| > 1 {
      FieldsWidth(fields[1..]);
    }
  }

  lemma WidthsFrom(fields: seq<Field>, i: nat)
    requires i < |fields|
    ensures FieldWidths(fields[i..]) == |DumpField(fields[i])| + FieldWidths(fields[i + 1..])
  {
    assert fields[i..][1..] == fields[i + 1..];
  }

  lemma FourFields(f: seq<Field>)
    requires |f| == 4
    ensures |DumpFields(f)| == |DumpField(f[0])| + |DumpField(f[1])| + |DumpField(f[2])| + |DumpField(f[3])| + 3
  {
    FieldsWidth(f);
    assert f[0..] == f;
    WidthsFrom(f, 0);
    WidthsFrom(f, 1);
    WidthsFrom(f, 2);
    WidthsFrom(f, 3);
  }

  lemma SevenFields(f: seq<Field>)
    requires |f| == 7
    ensures |DumpFields(f)|
         == |DumpField(f[0])| + |DumpField(f[1])| + |DumpField(f[2])|
            + |DumpField(f[3])| + |DumpField(f[4])| + |DumpField(f[5])| + |DumpField(f[6])| + 6
  {
    FieldsWidth(f);
    assert f[0..] == f;
    WidthsFrom(f, 0);
    WidthsFrom(f, 1);
    WidthsFrom(f, 2);
    WidthsFrom(f, 3);
    WidthsFrom(f, 4);
    WidthsFrom(f, 5);
    WidthsFrom(f, 6);
  }

  /** The names of the fields are as long as the fixed parts say. */
  lemma Names(a: Assessment, slots: seq<string>)
    requires |slots| == ReasonAt(a) + 1
    ensures var f := SummaryOf(a, slots).fields;
      && Plain(f[0], 8) && Plain(f[1], 6) && Plain(f[2], 20) && Plain(f[3], 19)
  {
  }

  lemma MoreNames(a: Assessment, slots: seq<string>)
    requires |slots| == ReasonAt(a) + 1
    ensures var f := SummaryOf(a, slots).fields;
      Plain(f[4], 17) && Plain(f[5], 6) && Plain(f[6], 9)
  {
  }

  lemma ScoreNames(s: Scores)
    ensures var f := ScoresOf(s).fields;
      Plain(f[0], 9) && Plain(f[1], 14) && Plain(f[2], 17) && Plain(f[3], 13)
  {
  }

  lemma ScoresWidth(f: seq<Field>, digits: seq<string>)
    requires |f| == |digits| == 4 && Plain(f[0], 9) && Plain(f[1], 14) && Plain(f[2], 17) && Plain(f[3], 13)
    requires forall i | 0 <= i < 4 :: Dump(f[i].value) == digits[i]
    ensures |Dump(Object(f))| == 70 + |digits[0]| + |digits[1]| + |digits[2]| + |digits[3]|
  {
    FieldWidth(f[0], 9);
    FieldWidth(f[1], 14);
    FieldWidth(f[2], 17);
    FieldWidth(f[3], 13);
    FourFields(f);
  }

  lemma FieldsOfSummary(f: seq<Field>, texts: seq<string>)
    requires |f| == |texts| == 7
    requires Plain(f[0], 8) && Plain(f[1], 6) && Plain(f[2], 20) && Plain(f[3], 19) && Plain(f[4], 17)
    requires Plain(f[5], 6) && Plain(f[6], 9)
    requires forall i | 0 <= i < 7 :: Dump(f[i].value) == texts[i]
    ensures |Dump(Object(f))|
         == 114 + |texts[0]| + |texts[1]| + |texts[2]| + |texts[3]| + |texts[4]| + |texts[5]| + |texts[6]|
  {
    FieldWidth(f[0], 8);
    FieldWidth(f[1], 6);
    FieldWidth(f[2], 20);
    FieldWidth(f[3], 19);
    FieldWidth(f[4], 17);
    FieldWidth(f[5], 6);
    FieldWidth(f[6], 9);
    SevenFields(f);
  }

  lemma ScoreWidths(s: Scores)
    ensures |Dump(ScoresOf(s))| == 70 + ScoreDigits(s)
  {
    ScoreNames(s);
    ScoresWidth(ScoresOf(s).fields,
                [Decimal(s.relevance), Decimal(s.sourceQuality), Decimal(s.evidenceCoverage), Decimal(s.corroboration)]);
  }

  lemma ValueWidths(slots: seq<string>, m: nat, q: nat, r: nat)
    requires 1 <= m <= q <= r && |slots| == r + 1
    ensures |Dump(Str(slots[0]))| + |Dump(Strings(slots[1..m]))| + |Dump(Strings(slots[m..q]))|
            + |Dump(Strings(slots[q..r]))| + |Dump(Str(slots[r]))|
         == 4 + ListOverhead(m - 1) + ListOverhead(q - m) + ListOverhead(r - q) + Wide(slots)
  {
    FiveParts(slots, m, q, r);
    QuotedWidth(slots[0]);
    QuotedWidth(slots[r]);
    ListWidth(slots[1..m]);
    ListWidth(slots[m..q]);
    ListWidth(slots[q..r]);
  }

  /** The text of a summary is its fixed parts and its strings, each character as wide as JSON writes it. */
  lemma RenderedLength(a: Assessment, slots: seq<string>)
    requires |slots| == ReasonAt(a) + 1
    ensures |Render(a, slots)| == Overhead(a) + Wide(slots)
  {
    var m, q, r := MissingAt(a), QueriesAt(a), ReasonAt(a);
    Names(a, slots);
    MoreNames(a, slots);
    ScoreWidths(a.scores);
    ValueWidths(slots, m, q, r);
    var texts := [
      Dump(Str(slots[0])), Dump(ScoresOf(a.scores)), Dump(Strings(slots[1..m])), Dump(Strings(slots[m..q])),
      Dump(Strings(slots[q..r])), Dump(Str(slots[r])), Dump(Flag(true))];
    FieldsOfSummary(SummaryOf(a, slots).fields, texts);
  }

  lemma {:induction false} WideConcat(a: seq<string>, b: seq<string>)
    ensures Wide(a + b) == Wide(a) + Wide(b)
  {
    if a == [] {
      assert a + b == b;
    } else {
      assert (a + b)[1..] == a[1..] + b;
      WideConcat(a[1..], b);
    }
  }

  lemma WideSplit(strings: seq<string>, n: nat)
    requires n <= |strings|
    ensures Wide(strings) == Wide(strings[..n]) + Wide(strings[n..])
  {
    assert strings == strings[..n] + strings[n..];
    WideConcat(strings[..n], strings[n..]);
  }

  lemma FiveParts(slots: seq<string>, m: nat, q: nat, r: nat)
    requires 1 <= m <= q <= r && |slots| == r + 1
    ensures Wide(slots)
         == WidthOf(slots[0]) + Wide(slots[1..m]) + Wide(slots[m..q]) + Wide(slots[q..r]) + WidthOf(slots[r])
  {
    WideSplit(slots, r);
    WideSplit(slots[..r], q);
    WideSplit(slots[..q], m);
    assert slots[..r][..q] == slots[..q] && slots[..r][q..] == slots[q..r];
    assert slots[..q][..m] == slots[..m] && slots[..q][m..] == slots[m..q];
    assert slots[..m][1..] == slots[1..m];
    assert slots[r..][1..] == [];
  }

  lemma {:induction false} WidthOfConcat(a: string, b: string)
    ensures WidthOf(a + b) == WidthOf(a) + WidthOf(b)
  {
    if a == "" {
      assert a + b == b;
    } else {
      assert (a + b)[1..] == a[1..] + b;
      WidthOfConcat(a[1..], b);
    }
  }

  lemma {:induction false} WidthAtLeastLength(s: string)
    ensures WidthOf(s) >= |s|
  {
    if s != "" {
      WidthAtLeastLength(s[1..]);
    }
  }

  /** Cutting `s` after `keep` characters: the ellipsis is one wide, and so at least is each character lost. */
  lemma CutWidth(s: string, keep: nat)
    requires keep <= |s|
    ensures WidthOf(s[..keep] + ELLIPSIS) == WidthOf(s[..keep]) + 1
    ensures WidthOf(s[..keep]) + (|s| - keep) <= WidthOf(s)
  {
    WidthOfConcat(s[..keep], ELLIPSIS);
    assert ELLIPSIS[1..] == "";
    assert s == s[..keep] + s[keep..];
    WidthOfConcat(s[..keep], s[keep..]);
    WidthAtLeastLength(s[keep..]);
  }

  lemma {:induction false} WideUpdate(strings: seq<string>, i: nat, s: string)
    requires i < |strings|
    ensures Wide(strings[i := s]) == Wide(strings) - WidthOf(strings[i]) + WidthOf(s)
  {
    if i == 0 {
      assert strings[i := s][1..] == strings[1..];
    } else {
      assert strings[i := s][1..] == strings[1..][i - 1 := s];
      WideUpdate(strings[1..], i - 1, s);
    }
  }

  lemma {:induction false} WideMonotone(a: seq<string>, b: seq<string>)
    requires |a| == |b| && forall i | 0 <= i < |a| :: WidthOf(a[i]) <= WidthOf(b[i])
    ensures Wide(a) <= Wide(b)
  {
    if a != [] {
      WideMonotone(a[1..], b[1..]);
    }
  }

  // ------------------------------------------------------------------------- one turn

  predicate Shortenable(strings: seq<string>) {
    exists i | 0 <= i < |strings| :: |strings[i]| > KEEP
  }

  /** The first of the longest strings. */
  ghost predicate IsLongest(strings: seq<string>, i: nat) {
    && i < |strings|
    && (forall j | 0 <= j < |strings| :: |strings[j]| <= |strings[i]|)
    && (forall j | 0 <= j < i :: |strings[j]| < |strings[i]|)
  }

  function LongestAt(strings: seq<string>): (i: nat)
    requires strings != []
    ensures IsLongest(strings, i)
  {
    var n := |strings| - 1;
    if n == 0 then 0
    else
      var i := LongestAt(strings[..n]);
      if |strings[n]| > |strings[i]| then n else i
  }

  method Longest(strings: seq<string>) returns (i: nat)
    requires strings != []
    ensures IsLongest(strings, i)
  {
    i := 0;
    for j := 1 to |strings|
      invariant i < j
      invariant forall k | 0 <= k < j :: |strings[k]| <= |strings[i]|
      invariant forall k | 0 <= k < i :: |strings[k]| < |strings[i]|
    {
      if |strings[j]| > |strings[i]| {
        i := j;
      }
    }
  }

  /** One shortening: the excess and the ellipsis are taken off, but eight characters stay. */
  function Shortened(s: string, excess: nat): (r: string)
    requires |s| > KEEP && excess > 0
    ensures |r| == if |s| - excess > KEEP + 1 then |s| - excess else KEEP + 1
    ensures r[..KEEP] == s[..KEEP]
  {
    var keep := if |s| - excess - 1 > KEEP then |s| - excess - 1 else KEEP;
    s[..keep] + ELLIPSIS
  }

  lemma ShortenedWidth(s: string, excess: nat)
    requires |s| > KEEP && excess > 0
    ensures |s| > KEEP + 1 ==> WidthOf(Shortened(s, excess)) < WidthOf(s)
    ensures |s| == KEEP + 1 ==> Shortened(s, excess) == s[..KEEP] + ELLIPSIS
  {
    var keep := if |s| - excess - 1 > KEEP then |s| - excess - 1 else KEEP;
    CutWidth(s, keep);
  }

  /**
   * Where the loop ends up when it cannot stop before. Strings longer than nine are cut to
   * eight characters and the ellipsis. Of those with exactly nine only one standing before
   * every other long one is touched: from then on it is the longest for good.
   */
  function Floored(strings: seq<string>): (r: seq<string>)
    ensures |r| == |strings|
  {
    seq(|strings|, i requires 0 <= i < |strings| => FlooredAt(strings, i))
  }

  function FlooredAt(strings: seq<string>, i: nat): string
    requires i < |strings|
  {
    var s := strings[i];
    if |s| > KEEP + 1 || (|s| == KEEP + 1 && forall j | 0 <= j < i :: |strings[j]| <= KEEP) then s[..KEEP] + ELLIPSIS
    else s
  }

  function Floor(strings: seq<string>): nat {
    Wide(Floored(strings))
  }

  lemma FloorIsLeast(strings: seq<string>)
    ensures Floor(strings) <= Wide(strings)
  {
    forall i | 0 <= i < |strings| ensures WidthOf(Floored(strings)[i]) <= WidthOf(strings[i]) {
      if |strings[i]| > KEEP {
        CutWidth(strings[i], KEEP);
      }
    }
    WideMonotone(Floored(strings), strings);
  }

  lemma ShorteningKeepsFloor(strings: seq<string>, i: nat, excess: nat)
    requires IsLongest(strings, i) && |strings[i]| > KEEP && excess > 0
    ensures Floored(strings[i := Shortened(strings[i], excess)]) == Floored(strings)
  {
    var s, after := strings[i], strings[i := Shortened(strings[i], excess)];
    forall j | 0 <= j < |strings| ensures FlooredAt(after, j) == FlooredAt(strings, j) {
      assert forall k | 0 <= k < j :: |after[k]| <= KEEP <==> |strings[k]| <= KEEP;
      if j == i {
        assert FlooredAt(strings, i) == s[..KEEP] + ELLIPSIS;
        assert after[i][..KEEP] == s[..KEEP];
        assert |after[i]| == KEEP + 1 ==> after[i] == s[..KEEP] + ELLIPSIS;
      }
    }
  }

  /** When only strings of nine are left, one shortening reaches the floor. */
  lemma LastShortening(strings: seq<string>, i: nat, excess: nat)
    requires IsLongest(strings, i) && |strings[i]| == KEEP + 1 && excess > 0
    ensures strings[i := Shortened(strings[i], excess)] == Floored(strings)
  {
    var s := Shortened(strings[i], excess);
    ShortenedWidth(strings[i], excess);
    forall j | 0 <= j < |strings| ensures strings[i := s][j] == FlooredAt(strings, j) {
      assert j > i ==> |strings[i]| > KEEP;
    }
  }

  // ------------------------------------------------------------------ when the loop ends

  /** The loop's own exit: the text fits, or nothing is long enough to shorten. */
  predicate Stops(overhead: nat, maxChars: int, strings: seq<string>) {
    overhead + Wide(strings) <= maxChars || !Shortenable(strings)
  }

  /** The condition on the first summary under which the loop ends. */
  predicate CanFinish(overhead: nat, maxChars: int, strings: seq<string>) {
    Stops(overhead, maxChars, strings) || overhead + Floor(strings) <= maxChars
  }

  /** One turn of the loop. */
  ghost predicate Turn(overhead: nat, maxChars: int, before: seq<string>, after: seq<string>) {
    && !Stops(overhead, maxChars, before)
    && exists i: nat ::
      && IsLongest(before, i) && |before[i]| > KEEP
      && after == before[i := Shortened(before[i], overhead + Wide(before) - maxChars)]
  }

  lemma ShorteningProgress(overhead: nat, maxChars: int, strings: seq<string>, i: nat)
    requires IsLongest(strings, i) && |strings[i]| > KEEP && overhead + Wide(strings) > maxChars
    ensures var after := strings[i := Shortened(strings[i], overhead + Wide(strings) - maxChars)];
      && Floored(after) == Floored(strings) && |after[i]| > KEEP && Floor(strings) <= Wide(after)
      && (overhead + Floor(strings) <= maxChars ==> Wide(after) < Wide(strings))
  {
    var excess := overhead + Wide(strings) - maxChars;
    var s := Shortened(strings[i], excess);
    ShorteningKeepsFloor(strings, i, excess);
    FloorIsLeast(strings[i := s]);
    if |strings[i]| > KEEP + 1 {
      ShortenedWidth(strings[i], excess);
      WideUpdate(strings, i, s);
    } else {
      LastShortening(strings, i, excess);
    }
  }

  /** A turn never ends a loop that cannot end, and narrows the text of one that can. */
  lemma TurnProgress(overhead: nat, maxChars: int, before: seq<string>, after: seq<string>)
    requires Turn(overhead, maxChars, before, after)
    ensures Floored(after) == Floored(before) && Shortenable(after)
    ensures overhead + Floor(before) <= maxChars ==> Wide(after) < Wide(before)
    ensures overhead + Floor(before) > maxChars ==> !Stops(overhead, maxChars, after)
  {
    var i: nat :| IsLongest(before, i) && |before[i]| > KEEP
      && after == before[i := Shortened(before[i], overhead + Wide(before) - maxChars)];
    ShorteningProgress(overhead, maxChars, before, i);
  }

  /** A run of the loop: consecutive turns. */
  ghost predicate Turns(overhead: nat, maxChars: int, states: seq<seq<string>>) {
    forall i | 0 <= i < |states| - 1 :: Turn(overhead, maxChars, states[i], states[i + 1])
  }

  /** When the condition fails the loop never stops, however long it runs. */
  lemma {:induction false} LoopDiverges(overhead: nat, maxChars: int, states: seq<seq<string>>, n: nat)
    requires Turns(overhead, maxChars, states) && n < |states|
    requires !CanFinish(overhead, maxChars, states[0])
    ensures Floored(states[n]) == Floored(states[0]) && !Stops(overhead, maxChars, states[n])
  {
    if n > 0 {
      LoopDiverges(overhead, maxChars, states, n - 1);
      TurnProgress(overhead, maxChars, states[n - 1], states[n]);
    }
  }

  /** When it holds no run is longer than the characters there are to lose. */
  lemma {:induction false} LoopIsShort(overhead: nat, maxChars: int, states: seq<seq<string>>, n: nat)
    requires Turns(overhead, maxChars, states) && n < |states|
    requires CanFinish(overhead, maxChars, states[0])
    ensures n <= Wide(states[0]) - Wide(states[n])
    ensures overhead + Floor(states[0]) <= maxChars ==> Floored(states[n]) == Floored(states[0])
  {
    if n > 0 {
      assert Turn(overhead, maxChars, states[0], states[1]);
      LoopIsShort(overhead, maxChars, states, n - 1);
      TurnProgress(overhead, maxChars, states[n - 1], states[n]);
    }
  }

  /** As long as the loop has not stopped another turn is possible. */
  lemma TurnIfNotStopped(overhead: nat, maxChars: int, strings: seq<string>) returns (after: seq<string>)
    requires !Stops(overhead, maxChars, strings)
    ensures Turn(overhead, maxChars, strings, after)
  {
    var i := LongestAt(strings);
    after := strings[i := Shortened(strings[i], overhead + Wide(strings) - maxChars)];
  }

  /** When the condition fails there are runs of any length. */
  lemma {:induction false} RunsOfAnyLength(overhead: nat, maxChars: int, first: seq<string>, n: nat)
    returns (states: seq<seq<string>>)
    requires !CanFinish(overhead, maxChars, first)
    ensures |states| == n + 1 && states[0] == first && Turns(overhead, maxChars, states)
  {
    if n == 0 {
      states := [first];
    } else {
      var before := RunsOfAnyLength(overhead, maxChars, first, n - 1);
      LoopDiverges(overhead, maxChars, before, n - 1);
      var after := TurnIfNotStopped(overhead, maxChars, before[n - 1]);
      states := before + [after];
    }
  }

  // ---------------------------------------------------------------------- the call site

  lemma OneMore(each: nat, n: nat)
    ensures each * (n + 1) == each * n + each
  {
  }

  /** No character of the strings takes more than `width` in JSON. */
  ghost predicate AtMostWide(strings: seq<string>, width: nat) {
    forall i, j | 0 <= i < |strings| && 0 <= j < |strings[i]| :: |Escaped(strings[i][j])| <= width
  }

  lemma {:induction false} WidthAtMost(s: string, width: nat)
    requires forall j | 0 <= j < |s| :: |Escaped(s[j])| <= width
    ensures WidthOf(s) <= width * |s|
  {
    if s != "" {
      WidthAtMost(s[1..], width);
      OneMore(width, |s| - 1);
    }
  }

  lemma {:induction false} WideAtMost(strings: seq<string>, each: nat)
    requires forall i | 0 <= i < |strings| :: WidthOf(strings[i]) <= each
    ensures Wide(strings) <= each * |strings|
  {
    if strings != [] {
      WideAtMost(strings[1..], each);
      OneMore(each, |strings| - 1);
    }
  }

  /** With nothing wider than `width`, nine times that for each string bounds the floor. */
  lemma FloorAtMost(strings: seq<string>, width: nat)
    requires AtMostWide(strings, width) && width >= 1
    ensures Floor(strings) <= width * (KEEP + 1) * |strings|
  {
    forall i | 0 <= i < |strings| ensures WidthOf(Floored(strings)[i]) <= width * (KEEP + 1) {
      var s := FlooredAt(strings, i);
      assert ELLIPSIS[0] == '…';
      forall j | 0 <= j < |s| ensures |Escaped(s[j])| <= width {
        assert s[j] == '…' || s[j] == strings[i][j];
      }
      WidthAtMost(s, width);
      ScaledUp(width, |s|, KEEP + 1);
    }
    WideAtMost(Floored(strings), width * (KEEP + 1));
  }

  lemma ScaledUp(width: nat, a: nat, b: nat)
    requires a <= b
    ensures width * a <= width * b
  {
  }

  /** Text JSON does not escape: nine characters for each string and the fixed parts are enough. */
  lemma PlainTextEnds(overhead: nat, maxChars: int, strings: seq<string>)
    requires AtMostWide(strings, 1) && overhead + (KEEP + 1) * |strings| <= maxChars
    ensures CanFinish(overhead, maxChars, strings) && overhead + Floor(strings) <= maxChars
  {
    FloorAtMost(strings, 1);
  }

  /** What the evaluator's schema demands of the scores. */
  predicate InRange(s: Scores) {
    && 1 <= s.relevance <= 5 && 1 <= s.sourceQuality <= 5
    && 1 <= s.evidenceCoverage <= 5 && 1 <= s.corroboration <= 5
  }

  lemma OverheadAtMost(a: Assessment)
    requires InRange(a.scores)
    ensures Overhead(a) <= 226
  {
  }

  /**
   * The call site never asks for less than 512 characters. There the feedback comes out
   * within the limit unless some text holds a control character that JSON writes as `\u00..`.
   */
  lemma CallEndsWithoutControlCharacters(a: Assessment, maxChars: int)
    requires InRange(a.scores) && maxChars >= LEAST_LIMIT && AtMostWide(Slots(a), 2)
    ensures CanFinish(Overhead(a), maxChars, Slots(a)) && Overhead(a) + Floor(Slots(a)) <= maxChars
  {
    OverheadAtMost(a);
    FloorAtMost(Slots(a), 2);
  }

  const CONTROL_TEXT := "\U{1}\U{1}\U{1}\U{1}\U{1}\U{1}\U{1}\U{1}\U{1}\U{1}"

  /**
   * An assessment the schema accepts on which the call at the least limit never returns. Its
   * encoding holds all the texts, so it is longer than the limit and the loop is reached.
   */
  lemma ControlCharactersKeepTheCallRunning(encoded: string)
    requires |encoded| > LEAST_LIMIT
    ensures var texts := [CONTROL_TEXT, CONTROL_TEXT, CONTROL_TEXT];
            var a := Assessment("continue", Scores(3, 3, 3, 3), texts, texts, texts, CONTROL_TEXT, encoded);
            InRange(a.scores) && |a.encoded| > LEAST_LIMIT && !CanFinish(Overhead(a), LEAST_LIMIT, Slots(a))
  {
    var texts := [CONTROL_TEXT, CONTROL_TEXT, CONTROL_TEXT];
    var a := Assessment("continue", Scores(3, 3, 3, 3), texts, texts, texts, CONTROL_TEXT, encoded);
    assert Items(texts) == texts;
    ControlFloor(Slots(a));
    FloorIsLeast(Slots(a));
  }

  lemma ControlFloor(slots: seq<string>)
    requires |slots| == 11 && forall i | 1 <= i < 11 :: slots[i] == CONTROL_TEXT
    ensures Floor(slots) >= 480 && Shortenable(slots)
  {
    var floored := Floored(slots);
    forall i | 0 <= i < 10 ensures WidthOf(floored[1..][i]) >= 48 {
      assert floored[1..][i] == FlooredAt(slots, i + 1) == CONTROL_TEXT[..KEEP] + ELLIPSIS;
      ControlWidth(CONTROL_TEXT[..KEEP]);
      CutWidth(CONTROL_TEXT, KEEP);
    }
    WideAtLeast(floored[1..], 48);
    assert |slots[1]| > KEEP;
  }

  lemma {:induction false} ControlWidth(s: string)
    requires forall j | 0 <= j < |s| :: s[j] == '\U{1}'
    ensures WidthOf(s) == 6 * |s|
  {
    if s != "" {
      ControlWidth(s[1..]);
    }
  }

  lemma {:induction false} WideAtLeast(strings: seq<string>, each: nat)
    requires forall i | 0 <= i < |strings| :: WidthOf(strings[i]) >= each
    ensures Wide(strings) >= each * |strings|
  {
    if strings != [] {
      WideAtLeast(strings[1..], each);
      OneMore(each, |strings| - 1);
    }
  }

  // ----------------------------------------------------------------------- the function

  /** A string as it was, or its first eight or more characters and an ellipsis. */
  ghost predicate CutOf(original: string, s: string) {
    s == original
    || (|original| > KEEP && exists k :: KEEP <= k < |original| && s == original[..k] + ELLIPSIS)
  }

  ghost predicate CutsOf(originals: seq<string>, strings: seq<string>) {
    |strings| == |originals| && forall i | 0 <= i < |strings| :: CutOf(originals[i], strings[i])
  }

  lemma CutAgain(originals: seq<string>, strings: seq<string>, i: nat, excess: nat)
    requires CutsOf(originals, strings) && i < |strings| && |strings[i]| > KEEP && excess > 0
    ensures CutsOf(originals, strings[i := Shortened(strings[i], excess)])
  {
    var original, s := originals[i], strings[i];
    var keep := if |s| - excess - 1 > KEEP then |s| - excess - 1 else KEEP;
    if s != original {
      var k :| KEEP <= k < |original| && s == original[..k] + ELLIPSIS;
      assert keep <= k && s[..keep] == original[..keep];
    }
    assert Shortened(s, excess) == original[..keep] + ELLIPSIS;
  }

  /** An original, cut to at most `most` characters, or its first eight or more and an ellipsis. */
  ghost predicate Abridged(original: string, most: nat, v: Json) {
    v.Str? && (FirstOf(original, v.text, most) || exists k :: 8 <= k < |original| && k < most && v.text == original[..k] + "…")
  }

  ghost predicate AbridgedList(originals: seq<string>, v: Json) {
    && v.Array? && |v.items| == (if |originals| < 3 then |originals| else 3)
    && forall i | 0 <= i < |v.items| :: Abridged(originals[i], 160, v.items[i])
  }

  lemma CutIsAbridged(original: string, most: nat, first: string, s: string)
    requires FirstOf(original, first, most) && CutOf(first, s)
    ensures Abridged(original, most, Str(s))
  {
    if s != first {
      var k :| KEEP <= k < |first| && s == first[..k] + ELLIPSIS;
      assert first[..k] == original[..k];
    }
  }

  lemma CutListIsAbridged(originals: seq<string>, firsts: seq<string>, strings: seq<string>)
    requires |firsts| == |strings| == if |originals| < 3 then |originals| else 3
    requires forall i | 0 <= i < |firsts| :: FirstOf(originals[i], firsts[i], 160) && CutOf(firsts[i], strings[i])
    ensures AbridgedList(originals, Strings(strings))
  {
    forall i | 0 <= i < |firsts| ensures Abridged(originals[i], 160, Strings(strings).items[i]) {
      CutIsAbridged(originals[i], 160, firsts[i], strings[i]);
    }
  }

  /**
   * What whoever reads a summary finds: the decision, the scores, the first items of each list and
   * the reason, each abridged at most, and the mark that it was truncated.
   */
  lemma FeedbackSays(a: Assessment, strings: seq<string>) returns (f: seq<Field>)
    requires CutsOf(Slots(a), strings)
    ensures Read(Render(a, strings)) == Some(Taken(Object(f), "")) && |f| == 7
    ensures f[0].name == "decision" && Abridged(a.decision, |a.decision|, f[0].value)
    ensures f[1] == Field("scores", Object([
                Field("relevance", Number(a.scores.relevance)), Field("source_quality", Number(a.scores.sourceQuality)),
                Field("evidence_coverage", Number(a.scores.evidenceCoverage)),
                Field("corroboration", Number(a.scores.corroboration))]))
    ensures f[2].name == "unresolved_conflicts" && AbridgedList(a.conflicts, f[2].value)
    ensures f[3].name == "missing_information" && AbridgedList(a.missing, f[3].value)
    ensures f[4].name == "suggested_queries" && AbridgedList(a.queries, f[4].value)
    ensures f[5].name == "reason" && Abridged(a.reason, 240, f[5].value)
    ensures f[6] == Field("truncated", Flag(true))
  {
    var s, m, q, r := Slots(a), MissingAt(a), QueriesAt(a), ReasonAt(a);
    f := SummaryOf(a, strings).fields;
    FeedbackComesBack(a, strings);
    SlotsAre(a);
    CutIsAbridged(a.decision, |a.decision|, s[0], strings[0]);
    CutIsAbridged(a.reason, 240, s[r], strings[r]);
    CutListIsAbridged(a.conflicts, s[1..m], strings[1..m]);
    CutListIsAbridged(a.missing, s[m..q], strings[m..q]);
    CutListIsAbridged(a.queries, s[q..r], strings[q..r]);
  }

  /** And what stands in for a summary that cannot be made short enough. */
  lemma FallbackSays(a: Assessment)
    ensures Read(Fallback(a)) == Some(Taken(Object([
                Field("decision", Str(a.decision)),
                Field("reason", Str("Quality feedback exceeded the bounded context budget.")),
                Field("truncated", Flag(true))]), ""))
  {
    FeedbackComesBack(a, Slots(a));
  }

  /** `render` writes as many strings as `originals`, with `overhead` characters around them. */
  ghost predicate Renders(render: seq<string> -> string, originals: seq<string>, overhead: nat) {
    forall slots | |slots| == |originals| :: |render(slots)| == overhead + Wide(slots)
  }

  function Renderer(a: Assessment): seq<string> -> string {
    slots => if |slots| == ReasonAt(a) + 1 then Render(a, slots) else ""
  }

  lemma RenderRenders(a: Assessment)
    ensures Renders(Renderer(a), Slots(a), Overhead(a))
  {
    forall slots: seq<string> | |slots| == ReasonAt(a) + 1 ensures |Render(a, slots)| == Overhead(a) + Wide(slots) {
      RenderedLength(a, slots);
    }
  }

  /** Before each test of the loop: cuts of the originals from which the same floor is reached. */
  ghost predicate Shrinking(originals: seq<string>, overhead: nat, maxChars: int, slots: seq<string>) {
    && CutsOf(originals, slots)
    && Floored(slots) == Floored(originals) && Floor(originals) <= Wide(slots)
    && (overhead + Floor(originals) > maxChars ==> slots == originals && Stops(overhead, maxChars, slots))
  }

  lemma StartShrinking(originals: seq<string>, overhead: nat, maxChars: int)
    requires CanFinish(overhead, maxChars, originals)
    ensures Shrinking(originals, overhead, maxChars, originals)
  {
    FloorIsLeast(originals);
  }

  lemma KeepShrinking(originals: seq<string>, overhead: nat, maxChars: int, slots: seq<string>, i: nat)
    requires Shrinking(originals, overhead, maxChars, slots) && overhead + Wide(slots) > maxChars
    requires IsLongest(slots, i) && |slots[i]| > KEEP
    ensures var after := slots[i := Shortened(slots[i], overhead + Wide(slots) - maxChars)];
            Shrinking(originals, overhead, maxChars, after) && Wide(after) < Wide(slots)
  {
    CutAgain(originals, slots, i, overhead + Wide(slots) - maxChars);
    ShorteningProgress(overhead, maxChars, slots, i);
  }

  /** With nothing left to shorten the strings are the floor. */
  lemma NothingToShorten(originals: seq<string>, overhead: nat, maxChars: int, slots: seq<string>, i: nat)
    requires Shrinking(originals, overhead, maxChars, slots) && IsLongest(slots, i) && |slots[i]| <= KEEP
    ensures Wide(slots) == Floor(originals)
  {
    assert Floored(slots) == slots;
  }

  /** The loop: shorten the longest string until the text fits or nothing can be shortened. */
  method Shrink(originals: seq<string>, render: seq<string> -> string, overhead: nat, maxChars: int)
    returns (text: string, slots: seq<string>)
    requires originals != [] && Renders(render, originals, overhead) && CanFinish(overhead, maxChars, originals)
    ensures CutsOf(originals, slots) && text == render(slots)
    ensures |text| <= maxChars <==> overhead + Floor(originals) <= maxChars
    ensures |text| > maxChars ==> slots == originals
  {
    slots := originals;
    text := render(slots);
    StartShrinking(originals, overhead, maxChars);
    while |text| > maxChars
      invariant Shrinking(originals, overhead, maxChars, slots) && text == render(slots)
      decreases Wide(slots)
    {
      var longest := Longest(slots);
      if |slots[longest]| <= KEEP {
        NothingToShorten(originals, overhead, maxChars, slots, longest);
        break;
      }
      var excess := |text| - maxChars;
      KeepShrinking(originals, overhead, maxChars, slots, longest);
      slots := slots[longest := Shortened(slots[longest], excess)];
      text := render(slots);
    }
  }

  /**
   * The feedback text. It is required to be within reach of the budget: otherwise the
   * loop of the program does not end (`LoopDiverges`).
   */
  method BoundedFeedback(a: Assessment, maxChars: int) returns (text: string, ghost strings: seq<string>)
    requires |a.encoded| <= maxChars || CanFinish(Overhead(a), maxChars, Slots(a))
    ensures CutsOf(Slots(a), strings)
    ensures |a.encoded| <= maxChars ==> text == a.encoded
    ensures |a.encoded| > maxChars && Overhead(a) + Floor(Slots(a)) <= maxChars ==>
              text == Render(a, strings) && |text| <= maxChars
    ensures |a.encoded| > maxChars && Overhead(a) + Floor(Slots(a)) > maxChars ==>
              text == Fallback(a) && strings == Slots(a)
  {
    strings := Slots(a);
    if |a.encoded| <= maxChars {
      return a.encoded, strings;
    }
    RenderRenders(a);
    var shrunk;
    text, shrunk := Shrink(Slots(a), Renderer(a), Overhead(a), maxChars);
    strings := shrunk;
    if |text| > maxChars {
      text := Fallback(a);
    }
  }

  /** The call of the evaluation node: it always returns, and the feedback is within the limit. */
  method AssessmentFeedback(a: Assessment, maxInputChars: nat) returns (text: string)
    requires InRange(a.scores) && AtMostWide(Slots(a), 2)
    ensures |text| <= 8000 && 3 * |text| <= (if maxInputChars > 1536 then maxInputChars else 1536)
    ensures |a.encoded| <= (if maxInputChars > 24000 then 8000 else if maxInputChars < 1536 then 512 else maxInputChars / 3) ==>
              text == a.encoded
    ensures text == a.encoded || exists strings :: CutsOf(Slots(a), strings) && text == Render(a, strings)
  {
    var third := if maxInputChars / 3 < 8000 then maxInputChars / 3 else 8000;
    var limit := if third > LEAST_LIMIT then third else LEAST_LIMIT;
    CallEndsWithoutControlCharacters(a, limit);
    ghost var strings;
    text, strings := BoundedFeedback(a, limit);
  }
}
