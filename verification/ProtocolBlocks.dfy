/** Protocol blocks: a tool-calling AI message with its results, or one other message (agents/context_compiler.py, `_protocol_blocks`). */
module ProtocolBlocks {
  import opened Transcript
  import opened ToolCallIds

  /** How many tool results for `ids` stand at the front of `ms`. */
  function RunLength(ms: seq<Message>, ids: set<string>): (n: nat)
    ensures n <= |ms|
  {
    if ms == [] || !ms[0].Tool? || ms[0].callId !in ids then 0 else 1 + RunLength(ms[1..], ids)
  }

  function BlockLength(ms: seq<Message>): (n: nat)
    requires ms != []
    ensures 1 <= n <= |ms|
  {
    if ms[0].Calling() then 1 + RunLength(ms[1..], IdSet(ms[0].calls)) else 1
  }

  function Blocks(ms: seq<Message>): seq<seq<Message>>
    decreases |ms|
  {
    if ms == [] then []
    else
      var n := BlockLength(ms);
      [ms[..n]] + Blocks(ms[n..])
  }

  function Flat(blocks: seq<seq<Message>>): seq<Message> {
    if blocks == [] then [] else blocks[0] + Flat(blocks[1..])
  }

  /** The blocks whose mask bit is set, in order. */
  function Pick(blocks: seq<seq<Message>>, mask: seq<bool>): seq<seq<Message>>
    requires |mask| == |blocks|
  {
    if blocks == [] then []
    else (if mask[0] then [blocks[0]] else []) + Pick(blocks[1..], mask[1..])
  }

  /** The inner loop: an assistant tool call with all contiguous results for it. */
  method BatchBlock(ms: seq<Message>, start: nat) returns (block: seq<Message>)
    requires start < |ms| && ms[start].Calling()
    ensures |block| == BlockLength(ms[start..])
    ensures block == ms[start..start + |block|]
  {
    var callIds := IdSet(ms[start].calls);
    block := [ms[start]];
    var cursor := start + 1;
    assert ms[start..][1..] == ms[cursor..];
    while cursor < |ms|
      invariant start < cursor <= |ms|
      invariant block == ms[start..cursor]
      invariant BlockLength(ms[start..]) == cursor - start + RunLength(ms[cursor..], callIds)
    {
      var result := ms[cursor];
      if !result.Tool? || result.callId !in callIds {
        break;
      }
      assert ms[cursor..][1..] == ms[cursor + 1..];
      block := block + [result];
      cursor := cursor + 1;
    }
  }

  /** The block that starts here: a batch, or a single message. */
  method BlockAt(ms: seq<Message>, start: nat) returns (block: seq<Message>)
    requires start < |ms|
    ensures |block| == BlockLength(ms[start..])
    ensures block == ms[start..start + |block|]
  {
    if ms[start].Calling() {
      block := BatchBlock(ms, start);
    } else {
      block := [ms[start]];
    }
  }

  method ProtocolBlocks(ms: seq<Message>) returns (blocks: seq<seq<Message>>)
    ensures blocks == Blocks(ms)
  {
    blocks := [];
    var cursor := 0;
    while cursor < |ms|
      invariant 0 <= cursor <= |ms|
      invariant blocks + Blocks(ms[cursor..]) == Blocks(ms)
    {
      var block := BlockAt(ms, cursor);
      NextBlock(ms, cursor, block, blocks);
      blocks := blocks + [block];
      cursor := cursor + |block|;
    }
  }

  lemma NextBlock(ms: seq<Message>, start: nat, block: seq<Message>, done: seq<seq<Message>>)
    requires start < |ms| && |block| == BlockLength(ms[start..])
    requires block == ms[start..start + |block|]
    ensures done + Blocks(ms[start..]) == done + [block] + Blocks(ms[start + |block|..])
  {
    FrontBlock(ms, start, block);
  }

  lemma FrontBlock(ms: seq<Message>, start: nat, block: seq<Message>)
    requires start < |ms| && |block| == BlockLength(ms[start..])
    requires block == ms[start..start + |block|]
    ensures Blocks(ms[start..]) == [block] + Blocks(ms[start + |block|..])
  {
    var n := |block|;
    assert ms[start..][..n] == block;
    assert ms[start..][n..] == ms[start + n..];
  }

  // ------------------------------------------------------------- sequences of blocks

  lemma {:induction false} FlatConcat(a: seq<seq<Message>>, b: seq<seq<Message>>)
    ensures Flat(a + b) == Flat(a) + Flat(b)
  {
    if a == [] {
      assert a + b == b;
    } else {
      assert (a + b)[1..] == a[1..] + b;
      FlatConcat(a[1..], b);
    }
  }

  /** Cutting into blocks loses nothing. */
  lemma {:induction false} BlocksPartition(ms: seq<Message>)
    ensures Flat(Blocks(ms)) == ms
    decreases |ms|
  {
    if ms != [] {
      var n := BlockLength(ms);
      var rest := Blocks(ms[n..]);
      BlocksPartition(ms[n..]);
      assert Blocks(ms) == [ms[..n]] + rest && ([ms[..n]] + rest)[1..] == rest;
    }
  }

  /** The results that follow one another for these ids, and no further. */
  lemma {:induction false} RunIsLongest(ms: seq<Message>, ids: set<string>)
    ensures var n := RunLength(ms, ids);
      && (forall i | 0 <= i < n :: ms[i].Tool? && ms[i].callId in ids)
      && (n < |ms| ==> !ms[n].Tool? || ms[n].callId !in ids)
  {
    if ms != [] && ms[0].Tool? && ms[0].callId in ids {
      RunIsLongest(ms[1..], ids);
    }
  }

  /** The block at `from`: a calling message with the longest run of results for its ids behind it, or one other message. */
  ghost predicate IsBlock(ms: seq<Message>, from: nat, block: seq<Message>) {
    && 1 <= |block| <= |ms| - from && block == ms[from..from + |block|]
    && (!ms[from].Calling() ==> |block| == 1)
    && (ms[from].Calling() ==>
         && (forall k | from < k < from + |block| :: ms[k].Tool? && exists c :: c in ms[from].calls && c.id == ms[k].callId)
         && var next := from + |block|;
           next < |ms| ==> !ms[next].Tool? || forall c | c in ms[from].calls :: c.id != ms[next].callId)
  }

  lemma FirstIsBlock(ms: seq<Message>)
    requires ms != []
    ensures IsBlock(ms, 0, ms[..BlockLength(ms)])
  {
    if ms[0].Calling() {
      var ids, rest := IdSet(ms[0].calls), ms[1..];
      RunIsLongest(rest, ids);
      forall k | 0 < k < BlockLength(ms) ensures ms[k].Tool? && ms[k].callId in ids {
        assert ms[k] == rest[k - 1];
      }
    }
  }

  lemma LaterIsBlock(ms: seq<Message>, n: nat, from: nat, block: seq<Message>)
    requires n <= |ms| && IsBlock(ms[n..], from, block)
    ensures IsBlock(ms, n + from, block)
  {
    var rest, next := ms[n..], from + |block|;
    assert rest[from] == ms[n + from];
    assert rest[from..next] == ms[n + from..n + next];
    forall k | n + from < k < n + next ensures ms[k] == rest[k - n] && k - n > from {
    }
    assert next < |rest| ==> rest[next] == ms[n + next];
  }

  lemma BehindFirst(ms: seq<Message>, first: seq<Message>, rest: seq<seq<Message>>, i: nat)
    requires |first| <= |ms| && 0 < i <= |rest| && IsBlock(ms[|first|..], |Flat(rest[..i - 1])|, rest[i - 1])
    ensures IsBlock(ms, |Flat(([first] + rest)[..i])|, ([first] + rest)[i])
  {
    FlatFromFirst(first, rest, i);
    LaterIsBlock(ms, |first|, |Flat(rest[..i - 1])|, rest[i - 1]);
  }

  /** Every block is one: cut where the blocks before it end. */
  lemma {:induction false} EachIsBlock(ms: seq<Message>, i: nat)
    requires i < |Blocks(ms)|
    ensures IsBlock(ms, |Flat(Blocks(ms)[..i])|, Blocks(ms)[i])
    decreases |ms|
  {
    var n := BlockLength(ms);
    BlocksFromFirst(ms);
    if i == 0 {
      FirstIsBlock(ms);
    } else {
      EachIsBlock(ms[n..], i - 1);
      BehindFirst(ms, ms[..n], Blocks(ms[n..]), i);
    }
  }

  lemma BlocksFromFirst(ms: seq<Message>)
    requires ms != []
    ensures Blocks(ms) == [ms[..BlockLength(ms)]] + Blocks(ms[BlockLength(ms)..])
  {
  }

  lemma FlatFromFirst(first: seq<Message>, rest: seq<seq<Message>>, i: nat)
    requires 0 < i <= |rest| + 1
    ensures |Flat(([first] + rest)[..i])| == |first| + |Flat(rest[..i - 1])|
  {
    var front := ([first] + rest)[..i];
    assert front[1..] == rest[..i - 1];
  }

  lemma {:induction false} RunIs(ms: seq<Message>, ids: set<string>, n: nat)
    requires n <= |ms|
    requires forall i | 0 <= i < n :: ms[i].Tool? && ms[i].callId in ids
    requires n < |ms| ==> !ms[n].Tool?
    ensures RunLength(ms, ids) == n
  {
    if n > 0 {
      RunIs(ms[1..], ids, n - 1);
    }
  }

  /** The first block of a closed transcript is a closed batch. */
  lemma FirstClosedBlock(ms: seq<Message>)
    requires Closed(ms) && ms != []
    ensures var n := BlockLength(ms); Closed(ms[n..]) && Closed(ms[..n])
  {
    if ms[0].Calling() {
      AnswersAreTheRun(ms, |ms[0].calls|);
      var n := |ms[0].calls|;
      BatchIsClosed(ms[0], ms[1..n + 1]);
      assert ms[..n + 1] == [ms[0]] + ms[1..n + 1];
    } else {
      PlainIsClosed(ms[..1]);
    }
  }

  lemma AnswersAreTheRun(ms: seq<Message>, n: nat)
    requires ms != [] && ms[0].Calling() && n == |ms[0].calls| < |ms| && Answers(ms[0].calls, ms[1..n + 1])
    requires n + 1 < |ms| ==> !ms[n + 1].Tool?
    ensures BlockLength(ms) == n + 1
  {
    var rest := ms[1..];
    forall i | 0 <= i < n ensures rest[i].Tool? && rest[i].callId in IdSet(ms[0].calls) {
      assert ms[1..n + 1][i] == rest[i];
      assert ms[0].calls[i] in ms[0].calls;
    }
    assert n < |rest| ==> rest[n] == ms[n + 1];
    RunIs(rest, IdSet(ms[0].calls), n);
  }

  /** The first block of a valid transcript is a whole batch, unless it is the pending tail itself. */
  lemma FirstBlock(ms: seq<Message>)
    requires ValidTranscript(ms, true) && ms != []
    ensures var n := BlockLength(ms);
      ValidTranscript(ms[n..], true) && if |ms| == 1 && ms[0].Calling() then OpenTail(ms) else Closed(ms[..n])
  {
    if Closed(ms) {
      FirstClosedBlock(ms);
    } else if |ms| > 1 {
      FirstBlockOfOpen(ms);
    }
  }

  lemma FirstBlockOfOpen(ms: seq<Message>)
    requires OpenTail(ms) && |ms| > 1
    ensures var n := BlockLength(ms); n < |ms| && OpenTail(ms[n..]) && Closed(ms[..n])
  {
    var init := ms[..|ms| - 1];
    FirstClosedBlock(init);
    var n := BlockLength(init);
    assert init[0] == ms[0] && init[..n] == ms[..n];
    if ms[0].Calling() {
      var k := |ms[0].calls|;
      assert init[1..k + 1] == ms[1..k + 1];
      StartsWithoutTool(init[k + 1..]);
      assert k + 1 < |init| ==> init[k + 1..][0] == ms[k + 1];
      AnswersAreTheRun(init, k);
      AnswersAreTheRun(ms, k);
    }
    var rest := ms[n..];
    assert rest[..|rest| - 1] == init[n..] && rest[|rest| - 1] == ms[|ms| - 1];
  }

  lemma StartsWithoutTool(ms: seq<Message>)
    requires ValidTranscript(ms, true)
    ensures ms != [] ==> !ms[0].Tool?
  {
    if ms != [] && !Closed(ms) {
      var init := ms[..|ms| - 1];
      assert init != [] ==> init[0] == ms[0];
    }
  }

  lemma ClosedThenOpen(a: seq<Message>, b: seq<Message>)
    requires Closed(a) && OpenTail(b)
    ensures OpenTail(a + b)
  {
    var init := b[..|b| - 1];
    ClosedConcat(a, init);
    assert (a + b)[..|a + b| - 1] == a + init;
    assert (a + b)[|a + b| - 1] == b[|b| - 1];
  }

  lemma ClosedThenValid(a: seq<Message>, b: seq<Message>)
    requires Closed(a) && ValidTranscript(b, true)
    ensures ValidTranscript(a + b, true)
  {
    if Closed(b) {
      ClosedConcat(a, b);
    } else {
      ClosedThenOpen(a, b);
    }
  }

  /** Whole blocks, of which only the last may be a pending tail. */
  ghost predicate WholeBlocks(blocks: seq<seq<Message>>) {
    && (forall i | 0 <= i < |blocks| - 1 :: Closed(blocks[i]))
    && (blocks != [] ==> ValidTranscript(blocks[|blocks| - 1], true))
  }

  lemma {:induction false} ValidIsWholeBlocks(ms: seq<Message>)
    requires ValidTranscript(ms, true)
    ensures WholeBlocks(Blocks(ms))
    decreases |ms|
  {
    if ms != [] {
      FirstBlock(ms);
      var n := BlockLength(ms);
      ValidIsWholeBlocks(ms[n..]);
      var rest := Blocks(ms[n..]);
      assert Blocks(ms) == [ms[..n]] + rest;
      if |ms| == 1 && ms[0].Calling() {
        assert ms[..n] == ms && rest == [];
      }
    }
  }

  /** Dropping whole blocks never breaks the grammar, and a pending tail that stays, stays last. */
  lemma {:induction false} PickedBlocksAreValid(blocks: seq<seq<Message>>, mask: seq<bool>)
    requires WholeBlocks(blocks) && |mask| == |blocks|
    ensures ValidTranscript(Flat(Pick(blocks, mask)), true)
  {
    if blocks != [] {
      var rest := Pick(blocks[1..], mask[1..]);
      PickedBlocksAreValid(blocks[1..], mask[1..]);
      if mask[0] {
        assert Pick(blocks, mask) == [blocks[0]] + rest;
        assert Pick(blocks, mask)[1..] == rest;
        if |blocks| > 1 {
          ClosedThenValid(blocks[0], Flat(rest));
        } else {
          assert rest == [] && Flat(Pick(blocks, mask)) == blocks[0];
        }
      } else {
        assert Pick(blocks, mask) == rest;
      }
    }
  }

  /** Of a closed transcript any choice of blocks is closed and holds only its messages. */
  lemma {:induction false} PickedFromClosed(ms: seq<Message>, mask: seq<bool>)
    requires Closed(ms) && |mask| == |Blocks(ms)|
    ensures var picked := Flat(Pick(Blocks(ms), mask));
      Closed(picked) && forall m | m in picked :: m in ms
    decreases |ms|
  {
    if ms != [] {
      var n := BlockLength(ms);
      var rest := Blocks(ms[n..]);
      FirstClosedBlock(ms);
      assert Blocks(ms) == [ms[..n]] + rest && Blocks(ms)[1..] == rest;
      PickedFromClosed(ms[n..], mask[1..]);
      var picked := Pick(rest, mask[1..]);
      if mask[0] {
        assert ([ms[..n]] + picked)[1..] == picked;
        ClosedConcat(ms[..n], Flat(picked));
      } else {
        assert Pick(Blocks(ms), mask) == picked;
      }
    }
  }

  lemma {:induction false} PickConcat(a: seq<seq<Message>>, m: seq<bool>, b: seq<seq<Message>>, n: seq<bool>)
    requires |m| == |a| && |n| == |b|
    ensures Pick(a + b, m + n) == Pick(a, m) + Pick(b, n)
  {
    if a == [] {
      assert a + b == b && m + n == n;
    } else {
      assert (a + b)[1..] == a[1..] + b && (m + n)[1..] == m[1..] + n;
      PickConcat(a[1..], m[1..], b, n);
    }
  }

  function All(n: nat, bit: bool): seq<bool> {
    seq(n, _ => bit)
  }

  lemma {:induction false} PickAll(blocks: seq<seq<Message>>, bit: bool)
    ensures Pick(blocks, All(|blocks|, bit)) == if bit then blocks else []
  {
    if blocks != [] {
      assert All(|blocks|, bit)[1..] == All(|blocks[1..]|, bit);
      PickAll(blocks[1..], bit);
    }
  }

  /** The first `p` blocks, none up to `w`, and a choice of the others. */
  function Cut(p: nat, w: nat, choice: seq<bool>): seq<bool>
    requires p <= w
  {
    All(p, true) + (All(w - p, false) + choice)
  }

  lemma {:induction false} PickAllThen(front: seq<seq<Message>>, bit: bool, blocks: seq<seq<Message>>, mask: seq<bool>)
    requires |mask| == |blocks|
    ensures Pick(front + blocks, All(|front|, bit) + mask) == (if bit then front else []) + Pick(blocks, mask)
  {
    PickConcat(front, All(|front|, bit), blocks, mask);
    PickAll(front, bit);
  }

  lemma PickThree(held: seq<seq<Message>>, skipped: seq<seq<Message>>, open: seq<seq<Message>>, choice: seq<bool>)
    requires |choice| == |open|
    ensures Pick(held + (skipped + open), All(|held|, true) + (All(|skipped|, false) + choice)) == held + Pick(open, choice)
  {
    var tail, bits := skipped + open, All(|skipped|, false) + choice;
    assert Pick(tail, bits) == Pick(open, choice) by {
      PickAllThen(skipped, false, open, choice);
      assert [] + Pick(open, choice) == Pick(open, choice);
    }
    PickAllThen(held, true, tail, bits);
  }

  lemma PickCut(blocks: seq<seq<Message>>, p: nat, w: nat, choice: seq<bool>)
    requires p <= w <= |blocks| && |choice| == |blocks| - w
    ensures Flat(Pick(blocks, Cut(p, w, choice))) == Flat(blocks[..p]) + Flat(Pick(blocks[w..], choice))
  {
    var held, skipped, open := blocks[..p], blocks[p..w], blocks[w..];
    assert blocks == held + (skipped + open);
    PickThree(held, skipped, open, choice);
    FlatConcat(held, Pick(open, choice));
  }

  // ----------------------------------------------------------------------- token cost

  function Cost(weight: Message -> nat, ms: seq<Message>): nat {
    if ms == [] then 0 else weight(ms[0]) + Cost(weight, ms[1..])
  }

  lemma {:induction false} CostConcat(weight: Message -> nat, a: seq<Message>, b: seq<Message>)
    ensures Cost(weight, a + b) == Cost(weight, a) + Cost(weight, b)
  {
    if a == [] {
      assert a + b == b;
    } else {
      assert (a + b)[1..] == a[1..] + b;
      CostConcat(weight, a[1..], b);
    }
  }

  lemma CostOfOne(weight: Message -> nat, m: Message)
    ensures Cost(weight, []) == 0 && Cost(weight, [m]) == weight(m)
  {
  }

  lemma {:induction false} CostOfPickUpdate(weight: Message -> nat, blocks: seq<seq<Message>>, mask: seq<bool>, i: nat)
    requires |mask| == |blocks| && i < |blocks| && !mask[i]
    ensures Cost(weight, Flat(Pick(blocks, mask[i := true])))
         == Cost(weight, blocks[i]) + Cost(weight, Flat(Pick(blocks, mask)))
  {
    var more := mask[i := true];
    CostOfPick(weight, blocks, mask);
    CostOfPick(weight, blocks, more);
    if i > 0 {
      assert more[1..] == mask[1..][i - 1 := true];
      CostOfPickUpdate(weight, blocks[1..], mask[1..], i - 1);
    } else {
      assert more[1..] == mask[1..];
    }
  }

  lemma CostOfPick(weight: Message -> nat, blocks: seq<seq<Message>>, mask: seq<bool>)
    requires |mask| == |blocks| && blocks != []
    ensures Cost(weight, Flat(Pick(blocks, mask)))
         == (if mask[0] then Cost(weight, blocks[0]) else 0) + Cost(weight, Flat(Pick(blocks[1..], mask[1..])))
  {
    var rest := Pick(blocks[1..], mask[1..]);
    if mask[0] {
      assert Pick(blocks, mask)[1..] == rest;
      CostConcat(weight, blocks[0], Flat(rest));
    } else {
      assert Pick(blocks, mask) == rest;
    }
  }
}
