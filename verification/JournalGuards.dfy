/**
 * Appends of stores that are bound to no lease (run_context.py, `_fence_guard`). Their guard
 * reads the manifest and lets go of it, so fences may come into use before the record is
 * written.
 */
module JournalGuards {
  import opened Wrappers
  import opened JournalText
  import opened RunStore
  import opened JournalRun

  /** The world after the first `n` labels of a run. */
  function At(codec: Codec, runId: string, moves: seq<Label>, n: nat): World
    requires n <= |moves|
  {
    Run(codec, runId, EMPTY, moves[..n])
  }

  lemma {:induction false} RunConcat(codec: Codec, runId: string, w: World, a: seq<Label>, b: seq<Label>)
    ensures Run(codec, runId, w, a + b) == Run(codec, runId, Run(codec, runId, w, a), b)
    ensures AllAllowed(codec, runId, w, a + b)
       <==> AllAllowed(codec, runId, w, a) && AllAllowed(codec, runId, Run(codec, runId, w, a), b)
    decreases |a|
  {
    if a == [] {
      assert a + b == b;
    } else {
      assert (a + b)[1..] == a[1..] + b;
      RunConcat(codec, runId, Step(codec, runId, w, a[0]), a[1..], b);
    }
  }

  lemma AtNext(codec: Codec, runId: string, moves: seq<Label>, n: nat)
    requires n < |moves|
    ensures At(codec, runId, moves, n + 1) == Step(codec, runId, At(codec, runId, moves, n), moves[n])
    ensures AllAllowed(codec, runId, EMPTY, moves) ==> Allowed(codec, runId, At(codec, runId, moves, n), moves[n])
  {
    var w := At(codec, runId, moves, n);
    assert moves[..n + 1] == moves[..n] + [moves[n]];
    RunConcat(codec, runId, EMPTY, moves[..n], [moves[n]]);
    assert Run(codec, runId, w, [moves[n]]) == Step(codec, runId, w, moves[n]);
    assert moves == moves[..n] + moves[n..];
    RunConcat(codec, runId, EMPTY, moves[..n], moves[n..]);
  }

  /** Fences that are in use stay in use. */
  lemma {:induction false} FencesStay(codec: Codec, runId: string, moves: seq<Label>, n: nat, later: nat)
    requires AllAllowed(codec, runId, EMPTY, moves) && n <= later <= |moves|
    requires FencesInUse(At(codec, runId, moves, n).disk)
    ensures FencesInUse(At(codec, runId, moves, later).disk)
    decreases later
  {
    if n < later {
      FencesStay(codec, runId, moves, n, later - 1);
      AtNext(codec, runId, moves, later - 1);
      StepMovesOn(codec, runId, At(codec, runId, moves, later - 1), moves[later - 1]);
    }
  }

  /** Label `b` brings fences into use: a bind, or the first manifest of a bound store. */
  ghost predicate ComesIntoUse(codec: Codec, runId: string, moves: seq<Label>, b: nat) {
    && b < |moves|
    && !FencesInUse(At(codec, runId, moves, b).disk) && FencesInUse(At(codec, runId, moves, b + 1).disk)
  }

  lemma OnlyBindsBringFences(codec: Codec, runId: string, moves: seq<Label>, b: nat)
    requires ComesIntoUse(codec, runId, moves, b)
    ensures moves[b].Bind? || (moves[b].Start? && moves[b].binding.Some?)
  {
    var w := At(codec, runId, moves, b);
    AtNext(codec, runId, moves, b);
    match moves[b] {
      case Write(binding, _, now, draft, crash) => AppendKeepsRest(codec, runId, w.disk, binding, now, draft, crash);
      case _ =>
    }
  }

  /** The guard of the append that label `k` ends: passed at label `g`, and outstanding ever since. */
  ghost predicate GuardOf(codec: Codec, runId: string, moves: seq<Label>, g: nat, k: nat) {
    && g < k < |moves| && moves[k].Write? && moves[g] == PassGuard(moves[k].ticket)
    && GuardPasses(At(codec, runId, moves, g).disk, None, 0.0)
    && forall n | g < n <= k :: moves[k].ticket in At(codec, runId, moves, n).tickets
  }

  /** A ticket that is outstanding was taken by a guard that passed. */
  lemma {:induction false} TicketHasGuard(codec: Codec, runId: string, moves: seq<Label>, ticket: nat, k: nat) returns (g: nat)
    requires k <= |moves| && ticket in At(codec, runId, moves, k).tickets
    ensures g < k && moves[g] == PassGuard(ticket) && GuardPasses(At(codec, runId, moves, g).disk, None, 0.0)
    ensures forall n | g < n <= k :: ticket in At(codec, runId, moves, n).tickets
    decreases k
  {
    assert k > 0;
    var w := At(codec, runId, moves, k - 1);
    AtNext(codec, runId, moves, k - 1);
    if ticket in w.tickets {
      g := TicketHasGuard(codec, runId, moves, ticket, k - 1);
    } else {
      g := k - 1;
    }
  }

  /** Between a moment without fences and one with them they came into use. */
  lemma {:induction false} CameIntoUse(codec: Codec, runId: string, moves: seq<Label>, g: nat, k: nat) returns (b: nat)
    requires g <= k <= |moves|
    requires !FencesInUse(At(codec, runId, moves, g).disk) && FencesInUse(At(codec, runId, moves, k).disk)
    ensures g <= b < k && ComesIntoUse(codec, runId, moves, b)
    decreases k
  {
    if FencesInUse(At(codec, runId, moves, k - 1).disk) {
      b := CameIntoUse(codec, runId, moves, g, k - 1);
    } else {
      b := k - 1;
    }
  }

  /** Label `k` makes a record of an unbound store durable. */
  ghost predicate UnfencedRecord(codec: Codec, runId: string, moves: seq<Label>, k: nat) {
    && k < |moves| && moves[k].Write? && moves[k].binding.None?
    && |At(codec, runId, moves, k + 1).entries| == |At(codec, runId, moves, k).entries| + 1
  }

  /**
   * An unfenced record becomes durable while fences are in use if and only if they came into
   * use between the guard of its append and its write, for whichever passed guard it is.
   */
  lemma UnfencedRecordIffLateBind(codec: Codec, runId: string, moves: seq<Label>, k: nat, g: nat)
    requires AllAllowed(codec, runId, EMPTY, moves)
    requires UnfencedRecord(codec, runId, moves, k) && GuardOf(codec, runId, moves, g, k)
    ensures FencesInUse(At(codec, runId, moves, k).disk) <==> exists b | g < b < k :: ComesIntoUse(codec, runId, moves, b)
  {
    if FencesInUse(At(codec, runId, moves, k).disk) {
      var b := CameIntoUse(codec, runId, moves, g, k);
      AtNext(codec, runId, moves, g);
      assert b != g;
    } else if b :| g < b < k && ComesIntoUse(codec, runId, moves, b) {
      FencesStay(codec, runId, moves, b + 1, k);
    }
  }

  /** Every unfenced record has such a guard. */
  lemma UnfencedRecordHasGuard(codec: Codec, runId: string, moves: seq<Label>, k: nat) returns (g: nat)
    requires UnfencedRecord(codec, runId, moves, k)
    ensures GuardOf(codec, runId, moves, g, k)
  {
    AtNext(codec, runId, moves, k);
    g := TicketHasGuard(codec, runId, moves, moves[k].ticket, k);
  }

  /**
   * A run in which it happens: an unbound append passes its guard, a lease owner binds, and
   * the append writes its record.
   */
  lemma RecordAfterBind(codec: Codec, runId: string, fence: Fence, lease: Lease, now: real, draft: Draft)
    requires fence.token > 0 && lease.fence == fence && now < lease.expires && draft.kind != StageCheckpoint
    ensures var moves := [Start(None, now), PassGuard(0), GrantLease(lease), Bind(fence, now), Write(None, 0, now, draft, None)];
      && AllAllowed(codec, runId, EMPTY, moves) && GuardOf(codec, runId, moves, 1, 4)
      && FencesInUse(At(codec, runId, moves, 4).disk) && UnfencedRecord(codec, runId, moves, 4)
  {
    var moves := [Start(None, now), PassGuard(0), GrantLease(lease), Bind(fence, now), Write(None, 0, now, draft, None)];
    var fresh_ := FreshManifest(None);
    var a := World(Disk("", Some(fresh_), None), [], {});
    var b := a.(tickets := {0});
    var c := b.(disk := b.disk.(lease := Some(lease)));
    var d := c.(disk := c.disk.(manifest := Some(fresh_.(fenceToken := fence.token, fenceOwner := Some(fence.owner)))));
    assert At(codec, runId, moves, 0) == EMPTY by { assert moves[..0] == []; }
    FirstMoves(codec, runId, moves);
    assert At(codec, runId, moves, 1) == a;
    assert At(codec, runId, moves, 2) == b;
    assert At(codec, runId, moves, 3) == c;
    assert At(codec, runId, moves, 4) == d;
    assert Lines("") == [];
    AllowedWhenEach(codec, runId, moves, 5);
    assert moves[..5] == moves;
  }

  lemma FirstMoves(codec: Codec, runId: string, moves: seq<Label>)
    ensures forall n | 0 <= n < |moves| ::
              At(codec, runId, moves, n + 1) == Step(codec, runId, At(codec, runId, moves, n), moves[n])
  {
    forall n | 0 <= n < |moves|
      ensures At(codec, runId, moves, n + 1) == Step(codec, runId, At(codec, runId, moves, n), moves[n])
    {
      AtNext(codec, runId, moves, n);
    }
  }

  lemma {:induction false} AllowedWhenEach(codec: Codec, runId: string, moves: seq<Label>, n: nat)
    requires n <= |moves| && forall i | 0 <= i < n :: Allowed(codec, runId, At(codec, runId, moves, i), moves[i])
    ensures AllAllowed(codec, runId, EMPTY, moves[..n])
  {
    if n > 0 {
      AllowedWhenEach(codec, runId, moves, n - 1);
      assert moves[..n] == moves[..n - 1] + [moves[n - 1]];
      RunConcat(codec, runId, EMPTY, moves[..n - 1], [moves[n - 1]]);
    }
  }

  /** Such a record is durable although its append reports the fence as lost. */
  lemma LateRecordIsReportedLost(codec: Codec, runId: string, disk: Disk, now: real, draft: Draft)
    requires FencesInUse(disk) && ReadingOf(codec, runId, disk.journal, true).Read?
    ensures var appended := AppendLocked(codec, runId, disk, None, now, draft, None);
      && appended.written.Some? && appended.error == Some(FenceLost)
      && appended.disk.journal == Repaired(disk, ReadingOf(codec, runId, disk.journal, true)).journal
                                  + codec.encode(appended.written.value) + "\n"
  {
    var written := AppendLocked(codec, runId, disk, None, now, draft, None).written.value;
    var text := Repaired(disk, ReadingOf(codec, runId, disk.journal, true)).journal;
    assert text + (codec.encode(written) + "\n") == text + codec.encode(written) + "\n";
  }

  // ----------------------------------------------------------------- a late initialisation

  /**
   * `initialize` looks for a manifest, passes its guard and writes a fresh one, with no lock
   * from the look to the write. Seen from the write, the manifest's token goes back if and
   * only if in the meantime one with a greater token than this store's was written.
   */
  lemma LateInitializeForgets(disk: Disk, binding: Binding)
    requires disk.manifest.Some?
    ensures var after := disk.(manifest := Some(FreshManifest(binding)));
      after.manifest.value.fenceToken < disk.manifest.value.fenceToken
      <==> FencesInUse(disk) && (binding.Some? ==> binding.value.token < disk.manifest.value.fenceToken)
  {
  }
}
