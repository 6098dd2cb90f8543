/** Shrinking a transcript to a token budget without breaking it (agents/context_compiler.py). */
module ContextCompiler {
  import opened Wrappers
  import opened Transcript
  import opened TranscriptCheck
  import opened ProtocolBlocks
  import opened ResultTrimming

  datatype CompileError = InvalidTranscript(error: TranscriptError)

  // ------------------------------------------------------------------ protected prefix

  function Systems(ms: seq<Message>): (n: nat)
    ensures n <= |ms|
    ensures forall i | 0 <= i < n :: ms[i].System?
    ensures n < |ms| ==> !ms[n].System?
  {
    if ms == [] || !ms[0].System? then 0 else 1 + Systems(ms[1..])
  }

  /** The leading system messages and the one message after them, unless that is a tool result. */
  function Guarded(ms: seq<Message>): (n: nat)
    ensures n <= |ms|
  {
    var n := Systems(ms);
    if n < |ms| && !ms[n].Tool? then n + 1 else n
  }

  method ProtectedPrefix(ms: seq<Message>) returns (prefix: seq<Message>)
    ensures prefix == ms[..Guarded(ms)]
  {
    prefix := [];
    var i := 0;
    while i < |ms|
      invariant 0 <= i <= |ms| && prefix == ms[..i]
      invariant Systems(ms) == i + Systems(ms[i..])
    {
      assert ms[i..][1..] == ms[i + 1..];
      if ms[i].System? {
        prefix := prefix + [ms[i]];
        i := i + 1;
      } else {
        if !ms[i].Tool? {
          prefix := prefix + [ms[i]];
        }
        return;
      }
    }
  }

  /** How many leading blocks it takes to hold the first `n` messages. */
  function Covering(blocks: seq<seq<Message>>, n: nat): (p: nat)
    ensures p <= |blocks|
  {
    if blocks == [] || n == 0 then 0
    else 1 + Covering(blocks[1..], if n <= |blocks[0]| then 0 else n - |blocks[0]|)
  }

  lemma {:induction false} CoveringCovers(blocks: seq<seq<Message>>, n: nat)
    requires n <= |Flat(blocks)|
    ensures n <= |Flat(blocks[..Covering(blocks, n)])|
  {
    if blocks != [] && n > 0 {
      var k := if n <= |blocks[0]| then 0 else n - |blocks[0]|;
      var p := Covering(blocks, n);
      CoveringCovers(blocks[1..], k);
      assert blocks[..p][0] == blocks[0] && blocks[..p][1..] == blocks[1..][..p - 1];
    }
  }

  // -------------------------------------------------------------------- recent window

  function AtLeastOne(keep: int): (n: nat)
    ensures n >= 1
  {
    if keep < 1 then 1 else keep
  }

  /** Old blocks are let go as long as the blocks after them already hold enough messages. */
  function WindowStart(recent: seq<seq<Message>>, keepLast: Option<int>): (w: nat)
    ensures w <= |recent|
  {
    if recent == [] || keepLast.None? then 0
    else if |Flat(recent[1..])| >= AtLeastOne(keepLast.value) then 1 + WindowStart(recent[1..], keepLast)
    else 0
  }

  lemma {:induction false} WindowStartIs(recent: seq<seq<Message>>, keep: int, w: nat)
    requires w <= |recent|
    requires w > 0 ==> |Flat(recent[w..])| >= AtLeastOne(keep)
    requires w < |recent| ==> |Flat(recent[w + 1..])| < AtLeastOne(keep)
    ensures WindowStart(recent, Some(keep)) == w
  {
    if recent != [] {
      if w > 0 {
        FlatShrinks(recent, 1, w);
        assert recent[1..][w - 1..] == recent[w..];
        if w < |recent| {
          assert recent[1..][w..] == recent[w + 1..];
        }
        WindowStartIs(recent[1..], keep, w - 1);
      }
    }
  }

  lemma {:induction false} FlatShrinks(blocks: seq<seq<Message>>, i: nat, j: nat)
    requires i <= j <= |blocks|
    ensures |Flat(blocks[j..])| <= |Flat(blocks[i..])|
    decreases j - i
  {
    if i < j {
      assert blocks[i..][1..] == blocks[i + 1..];
      FlatShrinks(blocks, i + 1, j);
    }
  }

  method RecentWindow(recent: seq<seq<Message>>, keepLast: int) returns (retained: seq<seq<Message>>)
    ensures retained == recent[WindowStart(recent, Some(keepLast))..]
  {
    retained := [];
    var retainedMessages := 0;
    var i := |recent|;
    while i > 0
      invariant 0 <= i <= |recent| && retained == recent[i..]
      invariant retainedMessages == |Flat(recent[i..])|
      invariant i < |recent| ==> retainedMessages < AtLeastOne(keepLast)
    {
      i := i - 1;
      assert recent[i..][1..] == recent[i + 1..];
      retained := [recent[i]] + retained;
      retainedMessages := retainedMessages + |recent[i]|;
      if retainedMessages >= AtLeastOne(keepLast) {
        break;
      }
    }
    WindowStartIs(recent, keepLast, i);
  }

  // ------------------------------------------------------------------ greedy selection

  /** Newest first: a block is taken when it fits beside what was taken after it. */
  function Choice(weight: Message -> nat, window: seq<seq<Message>>, remaining: nat): (mask: seq<bool>)
    ensures |mask| == |window|
  {
    if window == [] then []
    else
      var rest := Choice(weight, window[1..], remaining);
      [Cost(weight, window[0] + Flat(Pick(window[1..], rest))) <= remaining] + rest
  }

  function Selected(weight: Message -> nat, window: seq<seq<Message>>, remaining: nat): seq<seq<Message>> {
    Pick(window, Choice(weight, window, remaining))
  }

  lemma {:induction false} SelectedFits(weight: Message -> nat, window: seq<seq<Message>>, remaining: nat)
    ensures Cost(weight, Flat(Selected(weight, window, remaining))) <= remaining
  {
    if window != [] {
      var mask := Choice(weight, window, remaining);
      assert mask[1..] == Choice(weight, window[1..], remaining);
      SelectedFits(weight, window[1..], remaining);
      CostOfPick(weight, window, mask);
      CostConcat(weight, window[0], Flat(Pick(window[1..], mask[1..])));
    }
  }

  lemma {:induction false} SkippedDoesNotFit(weight: Message -> nat, window: seq<seq<Message>>, remaining: nat, i: nat)
    requires i < |window| && !Choice(weight, window, remaining)[i]
    ensures Cost(weight, window[i]) + Cost(weight, Flat(Selected(weight, window, remaining))) > remaining
  {
    var mask := Choice(weight, window, remaining);
    assert mask[1..] == Choice(weight, window[1..], remaining);
    CostOfPick(weight, window, mask);
    if i == 0 {
      CostConcat(weight, window[0], Flat(Pick(window[1..], mask[1..])));
    } else {
      SkippedDoesNotFit(weight, window[1..], remaining, i - 1);
    }
  }

  method SelectBlocks(weight: Message -> nat, window: seq<seq<Message>>, remaining: nat) returns (selected: seq<seq<Message>>)
    ensures selected == Selected(weight, window, remaining)
  {
    selected := [];
    var i := |window|;
    assert window[i..] == [];
    while i > 0
      invariant 0 <= i <= |window|
      invariant selected == Selected(weight, window[i..], remaining)
    {
      i := i - 1;
      assert window[i..][1..] == window[i + 1..];
      ghost var rest := Choice(weight, window[i + 1..], remaining);
      assert Choice(weight, window[i..], remaining)[1..] == rest;
      var block := window[i];
      var candidate := [block] + selected;
      assert candidate[1..] == selected;
      if Cost(weight, Flat(candidate)) > remaining {
        continue;
      }
      selected := candidate;
    }
    assert window[0..] == window;
  }

  // ------------------------------------------------------------------------ projection

  /** The blocks split at the last block that holds a protected message. */
  function ProtectedCount(ms: seq<Message>): (p: nat)
    ensures p <= |Blocks(ms)|
  {
    Covering(Blocks(ms), Guarded(ms))
  }

  function ProtectedMessages(ms: seq<Message>): seq<Message> {
    Flat(Blocks(ms)[..ProtectedCount(ms)])
  }

  function Remaining(weight: Message -> nat, ms: seq<Message>, target: nat): nat {
    var used := Cost(weight, ProtectedMessages(ms));
    if used <= target then target - used else 0
  }

  /** The first block the selection may keep besides the protected ones. */
  function WindowFrom(ms: seq<Message>, keepLast: Option<int>): (w: nat)
    ensures ProtectedCount(ms) <= w <= |Blocks(ms)|
  {
    ProtectedCount(ms) + WindowStart(Blocks(ms)[ProtectedCount(ms)..], keepLast)
  }

  /** Which blocks the projection keeps. */
  function Mask(weight: Message -> nat, ms: seq<Message>, target: nat, keepLast: Option<int>): (mask: seq<bool>)
    ensures |mask| == |Blocks(ms)|
  {
    if Cost(weight, ms) <= target then All(|Blocks(ms)|, true)
    else
      var p, w := ProtectedCount(ms), WindowFrom(ms, keepLast);
      Cut(p, w, Choice(weight, Blocks(ms)[w..], Remaining(weight, ms, target)))
  }

  function Projection(weight: Message -> nat, ms: seq<Message>, target: nat, keepLast: Option<int>): seq<Message> {
    Flat(Pick(Blocks(ms), Mask(weight, ms, target, keepLast)))
  }

  lemma ProjectionSplits(weight: Message -> nat, ms: seq<Message>, target: nat, keepLast: Option<int>)
    requires Cost(weight, ms) > target
    ensures var window := Blocks(ms)[WindowFrom(ms, keepLast)..];
      Projection(weight, ms, target, keepLast)
      == ProtectedMessages(ms) + Flat(Selected(weight, window, Remaining(weight, ms, target)))
  {
    var blocks, w := Blocks(ms), WindowFrom(ms, keepLast);
    PickCut(blocks, ProtectedCount(ms), w, Choice(weight, blocks[w..], Remaining(weight, ms, target)));
  }

  /** A history that fits is its own projection. */
  lemma ProjectionOfWhole(weight: Message -> nat, ms: seq<Message>, target: nat, keepLast: Option<int>)
    requires Cost(weight, ms) <= target
    ensures Projection(weight, ms, target, keepLast) == ms
  {
    BlocksPartition(ms);
    PickAll(Blocks(ms), true);
  }

  /** The protected messages begin with the protected prefix, and the history begins with them. */
  lemma ProtectedFirst(ms: seq<Message>)
    ensures ms[..Guarded(ms)] <= ProtectedMessages(ms) <= ms
  {
    var blocks, p := Blocks(ms), ProtectedCount(ms);
    BlocksPartition(ms);
    CoveringCovers(blocks, Guarded(ms));
    FlatConcat(blocks[..p], blocks[p..]);
    assert blocks[..p] + blocks[p..] == blocks;
  }

  lemma PrefixOfSum(a: seq<Message>, b: seq<Message>, c: seq<Message>)
    requires a <= b
    ensures a <= b + c
  {
  }

  /** Every block holding a protected message stays. */
  lemma ProjectionKeepsProtected(weight: Message -> nat, ms: seq<Message>, target: nat, keepLast: Option<int>)
    ensures forall i | 0 <= i < ProtectedCount(ms) :: Mask(weight, ms, target, keepLast)[i]
    ensures ms[..Guarded(ms)] <= Projection(weight, ms, target, keepLast)
  {
    ProtectedFirst(ms);
    if Cost(weight, ms) <= target {
      ProjectionOfWhole(weight, ms, target, keepLast);
    } else {
      var window := Blocks(ms)[WindowFrom(ms, keepLast)..];
      ProjectionSplits(weight, ms, target, keepLast);
      PrefixOfSum(
        ms[..Guarded(ms)], ProtectedMessages(ms), Flat(Selected(weight, window, Remaining(weight, ms, target))));
    }
  }

  /** The projection stays within the target exactly when what it must keep does. */
  lemma ProjectionFits(weight: Message -> nat, ms: seq<Message>, target: nat, keepLast: Option<int>)
    ensures Cost(weight, ProtectedMessages(ms)) <= Cost(weight, Projection(weight, ms, target, keepLast))
    ensures Cost(weight, Projection(weight, ms, target, keepLast)) <= target
       <==> Cost(weight, ProtectedMessages(ms)) <= target
  {
    if Cost(weight, ms) <= target {
      BlocksPartition(ms);
      PickAll(Blocks(ms), true);
      CostOfPrefix(weight, Blocks(ms), ProtectedCount(ms));
    } else {
      ProjectionCost(weight, ms, target, keepLast);
      SelectedFits(weight, Blocks(ms)[WindowFrom(ms, keepLast)..], Remaining(weight, ms, target));
    }
  }

  lemma CostOfPrefix(weight: Message -> nat, blocks: seq<seq<Message>>, p: nat)
    requires p <= |blocks|
    ensures Cost(weight, Flat(blocks[..p])) <= Cost(weight, Flat(blocks))
  {
    assert blocks[..p] + blocks[p..] == blocks;
    FlatConcat(blocks[..p], blocks[p..]);
    CostConcat(weight, Flat(blocks[..p]), Flat(blocks[p..]));
  }

  lemma ProjectionCost(weight: Message -> nat, ms: seq<Message>, target: nat, keepLast: Option<int>)
    requires Cost(weight, ms) > target
    ensures var window := Blocks(ms)[WindowFrom(ms, keepLast)..];
      Cost(weight, Projection(weight, ms, target, keepLast))
      == Cost(weight, ProtectedMessages(ms)) + Cost(weight, Flat(Selected(weight, window, Remaining(weight, ms, target))))
  {
    var window := Blocks(ms)[WindowFrom(ms, keepLast)..];
    ProjectionSplits(weight, ms, target, keepLast);
    CostConcat(weight, ProtectedMessages(ms), Flat(Selected(weight, window, Remaining(weight, ms, target))));
  }

  // ------------------------------------------------------- which blocks stay, spelled out

  lemma {:induction false} CoveringAt(blocks: seq<seq<Message>>, n: nat, i: nat)
    requires i < |blocks|
    ensures i < Covering(blocks, n) <==> |Flat(blocks[..i])| < n
  {
    if i > 0 && n > 0 {
      var k := if n <= |blocks[0]| then 0 else n - |blocks[0]|;
      CoveringAt(blocks[1..], k, i - 1);
      assert blocks[..i][0] == blocks[0] && blocks[..i][1..] == blocks[1..][..i - 1];
    }
  }

  /** The guarded messages: the leading system messages, and the next one unless it is a tool result. */
  lemma GuardedIs(ms: seq<Message>, i: nat)
    requires i < |ms|
    ensures i < Guarded(ms) <==> (forall j | 0 <= j < i :: ms[j].System?) && !ms[i].Tool?
  {
    var n := Systems(ms);
    if i > n {
      assert !ms[n].System?;
    }
  }

  /** A block is protected exactly when one of its messages is guarded. */
  lemma ProtectedIffHoldsGuarded(ms: seq<Message>, i: nat)
    requires i < |Blocks(ms)|
    ensures i < ProtectedCount(ms) <==> |Flat(Blocks(ms)[..i])| < Guarded(ms)
  {
    CoveringAt(Blocks(ms), Guarded(ms), i);
  }

  /** With a number of messages to keep, only blocks with fewer than that many messages after them. */
  predicate Recent(blocks: seq<seq<Message>>, keepLast: Option<int>, i: nat)
    requires i < |blocks|
  {
    keepLast.Some? ==> |Flat(blocks[i + 1..])| < if keepLast.value < 1 then 1 else keepLast.value
  }

  lemma {:induction false} WindowIffRecent(recent: seq<seq<Message>>, keepLast: Option<int>, i: nat)
    requires i < |recent|
    ensures WindowStart(recent, keepLast) <= i <==> Recent(recent, keepLast, i)
  {
    if keepLast.Some? {
      FlatShrinks(recent, 1, i + 1);
      if i > 0 {
        assert recent[1..][i..] == recent[i + 1..];
        WindowIffRecent(recent[1..], keepLast, i - 1);
      }
    }
  }

  lemma {:induction false} ChoiceAt(weight: Message -> nat, window: seq<seq<Message>>, remaining: nat, i: nat)
    requires i < |window|
    ensures var mask := Choice(weight, window, remaining);
      mask[i] <==> Cost(weight, window[i]) + Cost(weight, Flat(Pick(window[i + 1..], mask[i + 1..]))) <= remaining
  {
    var mask := Choice(weight, window, remaining);
    var rest := Choice(weight, window[1..], remaining);
    assert mask[1..] == rest;
    if i == 0 {
      CostConcat(weight, window[0], Flat(Pick(window[1..], rest)));
    } else {
      ChoiceAt(weight, window[1..], remaining, i - 1);
      assert window[1..][i..] == window[i + 1..] && rest[i..] == mask[i + 1..];
    }
  }

  /** What the protected messages leave of the target. */
  function LeftOver(weight: Message -> nat, ms: seq<Message>, target: nat): nat {
    var used := Cost(weight, Flat(Blocks(ms)[..ProtectedCount(ms)]));
    if target < used then 0 else target - used
  }

  /**
   * Exactly which blocks stay. All of them if the history fits. Otherwise the protected ones
   * and, going from the newest to the oldest, every recent one that fits beside those already
   * kept into what the protected ones leave of the target.
   */
  lemma BlockStaysIff(weight: Message -> nat, ms: seq<Message>, target: nat, keepLast: Option<int>, i: nat)
    requires i < |Blocks(ms)|
    ensures var blocks, mask := Blocks(ms), Mask(weight, ms, target, keepLast);
      mask[i] <==>
      || Cost(weight, ms) <= target
      || |Flat(blocks[..i])| < Guarded(ms)
      || (Recent(blocks, keepLast, i)
          && Cost(weight, blocks[i]) + Cost(weight, Flat(Pick(blocks[i + 1..], mask[i + 1..]))) <= LeftOver(weight, ms, target))
  {
    ProtectedIffHoldsGuarded(ms, i);
    if Cost(weight, ms) > target {
      var blocks, p, w := Blocks(ms), ProtectedCount(ms), WindowFrom(ms, keepLast);
      if i >= p {
        WindowIffRecent(blocks[p..], keepLast, i - p);
        assert blocks[p..][i - p + 1..] == blocks[i + 1..];
        if i >= w {
          CutStays(weight, blocks, p, w, Remaining(weight, ms, target), i);
        }
      }
    }
  }

  lemma CutBehind(p: nat, w: nat, choice: seq<bool>, i: nat)
    requires p <= w <= i && i - w < |choice|
    ensures i < |Cut(p, w, choice)| && Cut(p, w, choice)[i + 1..] == choice[i - w + 1..]
  {
    CutAt(p, w, choice, i);
  }

  lemma CutStays(weight: Message -> nat, blocks: seq<seq<Message>>, p: nat, w: nat, remaining: nat, i: nat)
    requires p <= w <= i < |blocks|
    ensures var choice := Choice(weight, blocks[w..], remaining);
      var mask := Cut(p, w, choice);
      && |mask| == |blocks|
      && (mask[i] <==>
          Cost(weight, blocks[i]) + Cost(weight, Flat(Pick(blocks[i + 1..], mask[i + 1..]))) <= remaining)
  {
    var choice := Choice(weight, blocks[w..], remaining);
    var mask := Cut(p, w, choice);
    CutAt(p, w, choice, i);
    ChoiceAt(weight, blocks[w..], remaining, i - w);
    assert blocks[w..][i - w + 1..] == blocks[i + 1..];
    CutBehind(p, w, choice, i);
  }

  /**
   * No skipped block can be added back without going over the target: of all unprotected
   * blocks, or, with a number of messages to keep, of those with fewer messages after them.
   */
  lemma ProjectionIsMaximal(weight: Message -> nat, ms: seq<Message>, target: nat, keepLast: Option<int>, i: nat)
    requires i < |Blocks(ms)| && !Mask(weight, ms, target, keepLast)[i]
    requires keepLast.Some? ==> |Flat(Blocks(ms)[i + 1..])| < if keepLast.value < 1 then 1 else keepLast.value
    ensures Cost(weight, Flat(Pick(Blocks(ms), Mask(weight, ms, target, keepLast)[i := true]))) > target
  {
    var p := ProtectedCount(ms);
    BlockStaysIff(weight, ms, target, keepLast, i);
    ProtectedIffHoldsGuarded(ms, i);
    WindowIffRecent(Blocks(ms)[p..], keepLast, i - p);
    assert Blocks(ms)[p..][i - p + 1..] == Blocks(ms)[i + 1..];
    CostOfPickUpdate(weight, Blocks(ms), Mask(weight, ms, target, keepLast), i);
    ProjectionCost(weight, ms, target, keepLast);
    SkippedBlock(weight, ms, target, keepLast, i);
  }

  lemma SkippedBlock(weight: Message -> nat, ms: seq<Message>, target: nat, keepLast: Option<int>, i: nat)
    requires WindowFrom(ms, keepLast) <= i < |Blocks(ms)| && !Mask(weight, ms, target, keepLast)[i]
    ensures Cost(weight, ms) > target
    ensures var window, remaining := Blocks(ms)[WindowFrom(ms, keepLast)..], Remaining(weight, ms, target);
      Cost(weight, Blocks(ms)[i]) + Cost(weight, Flat(Selected(weight, window, remaining))) > remaining
  {
    SkippedInWindow(weight, Blocks(ms), ProtectedCount(ms), WindowFrom(ms, keepLast), Remaining(weight, ms, target), i);
  }

  lemma SkippedInWindow(weight: Message -> nat, blocks: seq<seq<Message>>, p: nat, w: nat, remaining: nat, i: nat)
    requires p <= w <= i < |blocks|
    requires |Cut(p, w, Choice(weight, blocks[w..], remaining))| == |blocks|
    requires !Cut(p, w, Choice(weight, blocks[w..], remaining))[i]
    ensures Cost(weight, blocks[i]) + Cost(weight, Flat(Selected(weight, blocks[w..], remaining))) > remaining
  {
    CutAt(p, w, Choice(weight, blocks[w..], remaining), i);
    SkippedDoesNotFit(weight, blocks[w..], remaining, i - w);
  }

  lemma CutAt(p: nat, w: nat, choice: seq<bool>, i: nat)
    requires p <= w <= i < w + |choice|
    ensures |Cut(p, w, choice)| == w + |choice| && Cut(p, w, choice)[i] == choice[i - w]
  {
  }

  lemma ProjectionIsValid(weight: Message -> nat, ms: seq<Message>, target: nat, keepLast: Option<int>)
    requires ValidTranscript(ms, true)
    ensures ValidTranscript(Projection(weight, ms, target, keepLast), true)
  {
    ValidIsWholeBlocks(ms);
    PickedBlocksAreValid(Blocks(ms), Mask(weight, ms, target, keepLast));
  }

  /** `_project`; only a cut transcript is checked, one that fits is returned as it is. */
  method Project(weight: Message -> nat, ms: seq<Message>, target: nat, keepLast: Option<int>)
    returns (projected: Result<seq<Message>, CompileError>)
    ensures projected.Ok? ==> projected.value == Projection(weight, ms, target, keepLast)
    ensures projected.Ok? <==>
              Cost(weight, ms) <= target || ValidTranscript(Projection(weight, ms, target, keepLast), true)
  {
    if Cost(weight, ms) <= target {
      ProjectionOfWhole(weight, ms, target, keepLast);
      return Ok(ms);
    }
    var result := CutToTarget(weight, ms, target, keepLast);
    var error := ValidateToolTranscript(result, true);
    if error.Some? {
      return Err(InvalidTranscript(error.value));
    }
    return Ok(result);
  }

  /** The protected blocks, and the newest ones that fit beside them. */
  method CutToTarget(weight: Message -> nat, ms: seq<Message>, target: nat, keepLast: Option<int>)
    returns (result: seq<Message>)
    requires Cost(weight, ms) > target
    ensures result == Projection(weight, ms, target, keepLast)
  {
    var held, recent := ProtectedAndRecent(ms, keepLast);
    var used := Cost(weight, Flat(held));
    var remaining := if used <= target then target - used else 0;
    var selected := SelectBlocks(weight, recent, remaining);
    ProjectionSplits(weight, ms, target, keepLast);
    return Flat(held) + Flat(selected);
  }

  method ProtectedAndRecent(ms: seq<Message>, keepLast: Option<int>)
    returns (held: seq<seq<Message>>, recent: seq<seq<Message>>)
    ensures held == Blocks(ms)[..ProtectedCount(ms)]
    ensures recent == Blocks(ms)[WindowFrom(ms, keepLast)..]
  {
    var blocks := ProtocolBlocks.ProtocolBlocks(ms);
    var prefix := ProtectedPrefix(ms);
    held, recent := SplitBlocks(blocks, |prefix|);
    if keepLast.Some? {
      recent := RecentWindow(recent, keepLast.value);
    }
  }

  /** A block is protected when one of its messages is among the first `n`. */
  method SplitBlocks(blocks: seq<seq<Message>>, n: nat) returns (held: seq<seq<Message>>, recent: seq<seq<Message>>)
    ensures held == blocks[..Covering(blocks, n)] && recent == blocks[Covering(blocks, n)..]
  {
    held, recent := [], [];
    var i, offset := 0, 0;
    ghost var p := Covering(blocks, n);
    while i < |blocks|
      invariant 0 <= i <= |blocks|
      invariant offset < n ==> held == blocks[..i] && recent == [] && p == i + Covering(blocks[i..], n - offset)
      invariant offset >= n ==> p <= i && held == blocks[..p] && recent == blocks[p..i]
    {
      if offset < n {
        CoveringNext(blocks, i, n - offset);
        held := held + [blocks[i]];
      } else {
        recent := recent + [blocks[i]];
      }
      offset := offset + |blocks[i]|;
      i := i + 1;
    }
  }

  lemma CoveringNext(blocks: seq<seq<Message>>, i: nat, n: nat)
    requires i < |blocks| && n > 0
    ensures Covering(blocks[i..], n)
         == 1 + if n <= |blocks[i]| then 0 else Covering(blocks[i + 1..], n - |blocks[i]|)
    ensures blocks[..i + 1] == blocks[..i] + [blocks[i]]
  {
    assert blocks[i..][1..] == blocks[i + 1..];
  }

  // --------------------------------------------------------------------------- compile

  const TRIM_NOTE := "\n\n[Tool result trimmed by ContextCompiler]"

  datatype Envelope = Envelope(window: nat, output: nat, system: nat, schema: nat, margin: nat) {
    function Reserved(): nat { output + system + schema + margin }

    function Available(): nat {
      if Reserved() <= window then window - Reserved() else 0
    }
  }

  const MIN_MARGIN := 2048
  const MARGIN_RATIO := 0.05
  const MIN_TARGET_RATIO := 0.05

  function Margin(window: nat): (margin: nat)
    ensures margin >= MIN_MARGIN
  {
    var share := (window as real * MARGIN_RATIO).Floor;
    if share > MIN_MARGIN then share else MIN_MARGIN
  }

  function Target(available: nat, ratio: real): nat {
    var used := if ratio > MIN_TARGET_RATIO then ratio else MIN_TARGET_RATIO;
    ProductIsNotNegative(available, used);
    (available as real * used).Floor
  }

  lemma ProductIsNotNegative(available: nat, ratio: real)
    requires ratio >= 0.0
    ensures available as real * ratio >= 0.0
  {
  }

  lemma TargetWithinAvailable(available: nat, ratio: real)
    requires ratio <= 1.0
    ensures Target(available, ratio) <= available
  {
    var used := if ratio > MIN_TARGET_RATIO then ratio else MIN_TARGET_RATIO;
    assert available as real * used <= available as real * 1.0;
  }

  /** The target is the asked share of what is available, at least a twentieth of it, rounded down. */
  lemma TargetIsShare(available: nat, ratio: real)
    ensures var share := available as real * (if ratio < 0.05 then 0.05 else ratio);
      Target(available, ratio) as real <= share < Target(available, ratio) as real + 1.0
  {
  }

  /** The safety margin is a twentieth of the window, and 2048 at least. */
  lemma MarginIsTwentieth(window: nat)
    ensures Margin(window) >= 2048 && Margin(window) >= window / 20
    ensures Margin(window) == 2048 || Margin(window) == window / 20
  {
    var share := (window as real * MARGIN_RATIO).Floor;
    assert window == 20 * (window / 20) + window % 20;
    assert window as real * MARGIN_RATIO == (window / 20) as real + (window % 20) as real * 0.05;
    assert share == window / 20;
  }

  datatype Compilation = Compilation(
    messages: seq<Message>, envelope: Envelope, estimate: nat, compacted: bool, withinBudget: bool)

  datatype Request = Request(
    system: Option<Message>, window: nat, reservedOutput: int, schemaTokens: nat,
    ratio: real, keepLast: Option<int>, maxToolResultChars: nat)

  function Prefix(system: Option<Message>): seq<Message> {
    if system.Some? then [system.value] else []
  }

  function EnvelopeOf(weight: Message -> nat, request: Request): Envelope {
    Envelope(
      request.window, if request.reservedOutput > 0 then request.reservedOutput else 0,
      Cost(weight, Prefix(request.system)), request.schemaTokens, Margin(request.window))
  }

  /** The history part of the request that `compile` builds. */
  function History(weight: Message -> nat, ms: seq<Message>, request: Request): seq<Message> {
    Projection(
      weight, TrimmedAll(ms, request.maxToolResultChars, TRIM_NOTE),
      Target(EnvelopeOf(weight, request).Available(), request.ratio), request.keepLast)
  }

  /**
   * `compile`: fails exactly on a transcript that was already broken, and what it
   * reports about the budget is what the reservations and the history decide.
   */
  method Compile(weight: Message -> nat, ms: seq<Message>, request: Request)
    returns (compiled: Result<Compilation, CompileError>)
    ensures compiled.Ok? <==> ValidTranscript(ms, true)
    ensures compiled.Ok? ==>
              var envelope, history := EnvelopeOf(weight, request), History(weight, ms, request);
              && compiled.value.envelope == envelope
              && compiled.value.messages == (if request.system.Some? then [request.system.value] else []) + history
              && ValidTranscript(history, true)
              && (compiled.value.compacted <==> |history| < |ms|)
              && compiled.value.estimate == Cost(weight, compiled.value.messages)
              && (compiled.value.withinBudget <==>
                  compiled.value.estimate + request.schemaTokens + (if request.reservedOutput < 0 then 0 else request.reservedOutput)
                  + Margin(request.window) <= request.window)
              && (compiled.value.withinBudget <==>
                  envelope.Reserved() <= envelope.window && Cost(weight, history) <= envelope.Available())
  {
    var normalized := TrimToolResults(ms, request.maxToolResultChars, TRIM_NOTE);
    TrimmedKeepsGrammar(ms, request.maxToolResultChars, TRIM_NOTE);
    var error := ValidateToolTranscript(normalized, true);
    if error.Some? {
      return Err(InvalidTranscript(error.value));
    }
    var envelope := EnvelopeOf(weight, request);
    var target := Target(envelope.Available(), request.ratio);
    var projected := Project(weight, normalized, target, request.keepLast);
    ProjectionIsValid(weight, normalized, target, request.keepLast);
    var history := projected.value;
    error := ValidateToolTranscript(history, true);
    var messages := Prefix(request.system) + history;
    CostConcat(weight, Prefix(request.system), history);
    var estimate := Cost(weight, messages);
    return Ok(Compilation(
        messages, envelope, estimate, |history| < |normalized|,
        estimate + envelope.schema + envelope.output + envelope.margin <= envelope.window));
  }

  /** A request whose reservations and protected blocks fit is always reported within budget. */
  lemma CompiledWithinBudget(weight: Message -> nat, ms: seq<Message>, request: Request)
    requires request.ratio <= 1.0
    requires var envelope := EnvelopeOf(weight, request);
      Cost(weight, ProtectedMessages(TrimmedAll(ms, request.maxToolResultChars, TRIM_NOTE)))
      <= Target(envelope.Available(), request.ratio)
    ensures Cost(weight, History(weight, ms, request)) <= EnvelopeOf(weight, request).Available()
  {
    var available := EnvelopeOf(weight, request).Available();
    ProjectionFits(
      weight, TrimmedAll(ms, request.maxToolResultChars, TRIM_NOTE), Target(available, request.ratio), request.keepLast);
    TargetWithinAvailable(available, request.ratio);
  }

  // ------------------------------------------------------------- deterministic compact

  /** The text of the recovery notice, around the number of omitted messages. */
  datatype Notice = Notice(before: string, after: string)

  function Summary(notice: Notice, omitted: string): Message {
    System(notice.before + omitted + notice.after)
  }

  function Half(target: int): (half: nat)
    ensures half >= 1
    ensures if target < 2 then half == 1 else target - 1 <= 2 * half <= target
  {
    if target / 2 < 1 then 1 else target / 2
  }

  /** The protected prefix ends with a tool-calling message, so it cuts a batch in two. */
  predicate PrefixCutsBatch(ms: seq<Message>) {
    Systems(ms) < |ms| && ms[Systems(ms)].Calling()
  }

  lemma {:induction false} SystemsArePlain(ms: seq<Message>, n: nat)
    requires n <= |ms| && (forall i | 0 <= i < n :: ms[i].Plain()) && ValidTranscript(ms, true)
    ensures ValidTranscript(ms[n..], true)
  {
    if n > 0 {
      FirstBlock(ms);
      SystemsArePlain(ms[1..], n - 1);
      assert ms[1..][n - 1..] == ms[n..];
    }
  }

  /** A tool-calling message followed by something else is no valid transcript. */
  lemma UnansweredIsInvalid(tail: seq<Message>)
    requires |tail| >= 2 && tail[0].Calling() && !tail[1].Tool?
    ensures !ValidTranscript(tail, true)
  {
    var init := tail[..|tail| - 1];
    UnansweredIsNotClosed(tail);
    if |init| >= 2 {
      UnansweredIsNotClosed(init);
    }
  }

  lemma UnansweredIsNotClosed(ms: seq<Message>)
    requires ms != [] && ms[0].Calling() && (|ms| >= 2 ==> !ms[1].Tool?)
    ensures !Closed(ms)
  {
    var n := |ms[0].calls|;
    assert n < |ms| ==> ms[1..n + 1][0] == ms[1];
  }

  lemma CutBatchIsInvalid(front: seq<Message>, ai: Message, notice: Message, rest: seq<Message>)
    requires (forall m | m in front :: m.System?) && ai.Calling() && notice.System?
    ensures !ValidTranscript(front + [ai] + [notice] + rest, true)
  {
    var ms, k := front + [ai] + [notice] + rest, |front|;
    forall i | 0 <= i < k ensures ms[i].Plain() {
      assert ms[i] == front[i] && front[i] in front;
    }
    assert ms[k..][0] == ai && ms[k..][1] == notice;
    UnansweredIsInvalid(ms[k..]);
    if ValidTranscript(ms, true) {
      SystemsArePlain(ms, k);
    }
  }

  ghost function RecentPart(weight: Message -> nat, ms: seq<Message>, target: int): seq<Message> {
    Projection(weight, ms[Guarded(ms)..], Half(target), None)
  }

  ghost function Omitted(weight: Message -> nat, ms: seq<Message>, target: int): nat {
    ProjectionNoLonger(weight, ms[Guarded(ms)..], Half(target), None);
    |ms| - Guarded(ms) - |RecentPart(weight, ms, target)|
  }

  /** The protected prefix, a notice with the number of messages left out, and a projection of the others. */
  ghost function Compacted(
      weight: Message -> nat, ms: seq<Message>, target: int, notice: Notice, decimal: nat -> string): seq<Message>
  {
    ms[..Guarded(ms)] + [Summary(notice, decimal(Omitted(weight, ms, target)))] + RecentPart(weight, ms, target)
  }

  lemma RecentPartIsValid(weight: Message -> nat, ms: seq<Message>, target: int)
    requires ValidTranscript(ms, true) && !PrefixCutsBatch(ms)
    ensures ValidTranscript(RecentPart(weight, ms, target), true)
  {
    ProtectedPrefixShape(ms);
    SystemsArePlain(ms, Guarded(ms));
    ProjectionIsValid(weight, ms[Guarded(ms)..], Half(target), None);
  }

  lemma CompactedIsValid(
      weight: Message -> nat, ms: seq<Message>, target: int, notice: Notice, decimal: nat -> string)
    requires ValidTranscript(ms, true) && !PrefixCutsBatch(ms)
    ensures ValidTranscript(Compacted(weight, ms, target, notice, decimal), true)
  {
    var front := ms[..Guarded(ms)] + [Summary(notice, decimal(Omitted(weight, ms, target)))];
    ProtectedPrefixShape(ms);
    PlainIsClosed(front);
    RecentPartIsValid(weight, ms, target);
    ClosedThenValid(front, RecentPart(weight, ms, target));
  }

  lemma CompactedIsCut(
      weight: Message -> nat, ms: seq<Message>, target: int, notice: Notice, decimal: nat -> string)
    requires PrefixCutsBatch(ms)
    ensures !ValidTranscript(Compacted(weight, ms, target, notice, decimal), true)
  {
    var k := Systems(ms);
    var summary := Summary(notice, decimal(Omitted(weight, ms, target)));
    assert Guarded(ms) == k + 1 && ms[..k + 1] == ms[..k] + [ms[k]];
    CutBatchIsInvalid(ms[..k], ms[k], summary, RecentPart(weight, ms, target));
  }

  /** Of a clean transcript the projection after the prefix is clean and made of its messages. */
  lemma RecentPartIsClean(weight: Message -> nat, ms: seq<Message>, target: int)
    requires CleanTranscript(ms) && !PrefixCutsBatch(ms)
    ensures Closed(RecentPart(weight, ms, target)) && forall m | m in RecentPart(weight, ms, target) :: m in ms
  {
    var k := Guarded(ms);
    ProtectedPrefixShape(ms);
    PlainIsClosed(ms[..k]);
    assert ms == ms[..k] + ms[k..];
    ClosedConcat(ms[..k], ms[k..]);
    PickedFromClosed(ms[k..], Mask(weight, ms[k..], Half(target), None));
  }

  /** Compacting a clean transcript gives a clean one, unless the prefix cuts a batch. */
  lemma CompactionKeepsClean(
      weight: Message -> nat, ms: seq<Message>, target: int, notice: Notice, decimal: nat -> string)
    requires CleanTranscript(ms) && !PrefixCutsBatch(ms)
    ensures CleanTranscript(Compacted(weight, ms, target, notice, decimal))
  {
    var front := ms[..Guarded(ms)] + [Summary(notice, decimal(Omitted(weight, ms, target)))];
    ProtectedPrefixShape(ms);
    PlainIsClosed(front);
    RecentPartIsClean(weight, ms, target);
    ClosedConcat(front, RecentPart(weight, ms, target));
    assert forall m | m in front :: m in ms || m.System?;
  }

  /**
   * `deterministic_compact`: on a valid transcript it succeeds exactly when the first
   * message after the system messages does not call tools.
   */
  method DeterministicCompact(weight: Message -> nat, ms: seq<Message>, target: int, notice: Notice, decimal: nat -> string)
    returns (compacted: Result<seq<Message>, CompileError>)
    requires ValidTranscript(ms, true)
    ensures compacted.Ok? <==> !PrefixCutsBatch(ms)
    ensures compacted.Ok? ==> ValidTranscript(compacted.value, true)
    ensures compacted.Ok? ==>
              compacted.value == if ms == [] then [] else Compacted(weight, ms, target, notice, decimal)
  {
    if ms == [] {
      return Ok([]);
    }
    var held := ProtectedPrefix(ms);
    var recent := Project(weight, ms[|held|..], Half(target), None);
    if PrefixCutsBatch(ms) {
      CompactedIsCut(weight, ms, target, notice, decimal);
    } else {
      RecentPartIsValid(weight, ms, target);
      CompactedIsValid(weight, ms, target, notice, decimal);
    }
    if recent.Err? {
      return Err(recent.error);
    }
    ghost var omitted := Omitted(weight, ms, target);
    var result := held + [Summary(notice, decimal(|ms| - |held| - |recent.value|))] + recent.value;
    var error := ValidateToolTranscript(result, true);
    if error.Some? {
      return Err(InvalidTranscript(error.value));
    }
    return Ok(result);
  }

  lemma ProtectedPrefixShape(ms: seq<Message>)
    requires ValidTranscript(ms, true)
    ensures Systems(ms) < |ms| ==> !ms[Systems(ms)].Tool? && Guarded(ms) == Systems(ms) + 1
    ensures !PrefixCutsBatch(ms) ==> forall i | 0 <= i < Guarded(ms) :: ms[i].Plain()
  {
    SystemsArePlain(ms, Systems(ms));
    StartsWithoutTool(ms[Systems(ms)..]);
  }

  lemma ProjectionNoLonger(weight: Message -> nat, ms: seq<Message>, target: nat, keepLast: Option<int>)
    ensures |Projection(weight, ms, target, keepLast)| <= |ms|
  {
    BlocksPartition(ms);
    PickNoLonger(Blocks(ms), Mask(weight, ms, target, keepLast));
  }

  lemma {:induction false} PickNoLonger(blocks: seq<seq<Message>>, mask: seq<bool>)
    requires |mask| == |blocks|
    ensures |Flat(Pick(blocks, mask))| <= |Flat(blocks)|
  {
    if blocks != [] {
      var rest := Pick(blocks[1..], mask[1..]);
      PickNoLonger(blocks[1..], mask[1..]);
      if mask[0] {
        assert Pick(blocks, mask)[1..] == rest;
      } else {
        assert Pick(blocks, mask) == rest;
      }
    }
  }
}
