/**
 Confirming a generation deletes every older row. These lemmas show that nothing a boot decides
 and nothing in the settings table can depend on the deleted rows, whatever order writes, boots
 and confirmations come in and whatever ids are confirmed.
 */
module Pruning {
  import opened Wrappers
  import opened Params
  import opened ConfigTables

  datatype Op =
    | SetOp(updates: Updates)
    | UnsetOp(name: Name)
    | ClearOp
    | BootOp
    | ConfirmOp(id: int)

  // What the caller of each operation sees.
  datatype Seen =
    | SetSeen(result: Result<int, StoreError>)
    | UnsetSeen(deleted: bool)
    | ClearSeen(count: nat)
    | BootSeen(outcome: BootOutcome)
    | ConfirmSeen

  function Step(t: Tables, op: Op, prune: bool): (Tables, Seen) {
    match op
    case SetOp(updates) => var (t', r) := Set(t, updates); (t', SetSeen(r))
    case UnsetOp(name) => var (t', d) := Unset(t, name); (t', UnsetSeen(d))
    case ClearOp => var (t', c) := Clear(t); (t', ClearSeen(c))
    case BootOp => var (t', o) := PrepareBoot(t); (t', BootSeen(o))
    case ConfirmOp(id) => var (t', _) := Confirm(t, id, prune); (t', ConfirmSeen)
  }

  // Everything seen in a run, paired with the settings table each operation left behind.
  function Trace(t: Tables, ops: seq<Op>, prune: bool): seq<(Seen, Settings)>
    decreases |ops|
  {
    if ops == [] then []
    else
      var (t', seen) := Step(t, ops[0], prune);
      [(seen, t'.settings)] + Trace(t', ops[1..], prune)
  }

  // `p` is `k` without its `cut` oldest rows, and the oldest row left is a confirmed one.
  ghost predicate PrunedAt(p: Tables, k: Tables, cut: nat) {
    && k.Valid()
    && p.settings == k.settings
    && p.lastId == k.lastId
    && cut <= |k.generations|
    && p.generations == k.generations[cut..]
    && (cut > 0 ==> cut < |k.generations| && k.generations[cut].status == Confirmed)
  }

  lemma {:induction false} LastConfirmedInSuffix(gs: seq<Generation>, cut: nat)
    requires cut < |gs| && gs[cut].status == Confirmed
    ensures LastConfirmed(gs) == LastConfirmed(gs[cut..])
    ensures LastConfirmed(gs).Some?
  {
    var n := |gs| - 1;
    if gs[n].status != Confirmed {
      LastConfirmedInSuffix(gs[..n], cut);
      assert gs[..n][cut..] == gs[cut..][..n - cut];
    }
  }

  lemma {:induction false} NotOlderIsSuffix(gs: seq<Generation>, i: nat)
    requires i < |gs|
    requires forall a, b :: 0 <= a < b < |gs| ==> gs[a].id < gs[b].id
    ensures NotOlder(gs, gs[i].id) == gs[i..]
  {
    if i > 0 {
      NotOlderIsSuffix(gs[1..], i - 1);
      assert gs[1..][i - 1..] == gs[i..];
    } else if |gs| > 1 {
      NotOlderKeepsAll(gs[1..], gs[0].id);
      assert gs == [gs[0]] + gs[1..];
    }
  }

  lemma {:induction false} NotOlderKeepsAll(gs: seq<Generation>, id: int)
    requires forall a :: 0 <= a < |gs| ==> gs[a].id >= id
    ensures NotOlder(gs, id) == gs
  {
    if gs != [] {
      NotOlderKeepsAll(gs[1..], id);
    }
  }

  /** Confirming a pending row in an ordered table replaces that row and no other. */
  lemma {:induction false} ConfirmRowsAt(gs: seq<Generation>, i: nat)
    requires i < |gs| && gs[i].status == Pending
    requires forall a, b :: 0 <= a < b < |gs| ==> gs[a].id < gs[b].id
    ensures ConfirmRows(gs, gs[i].id) == gs[i := gs[i].(status := Confirmed)]
    ensures NotOlder(ConfirmRows(gs, gs[i].id), gs[i].id) == gs[i := gs[i].(status := Confirmed)][i..]
  {
    var marked := ConfirmRows(gs, gs[i].id);
    assert marked == gs[i := gs[i].(status := Confirmed)];
    NotOlderIsSuffix(marked, i);
  }

  lemma {:induction false} ConfirmAt(t: Tables, id: int, i: nat, prune: bool)
    requires t.Valid()
    requires i < |t.generations| && t.generations[i].id == id && t.generations[i].status == Pending
    ensures Confirm(t, id, prune) == (t.(generations := AfterConfirm(t.generations, i, prune)), true)
  {
    ConfirmRowsAt(t.generations, i);
  }

  // The rows left once row `i` has been confirmed.
  function AfterConfirm(gs: seq<Generation>, i: nat, prune: bool): seq<Generation>
    requires i < |gs|
  {
    gs[i := gs[i].(status := Confirmed)][if prune then i else 0..]
  }

  // Rows with the same ids as the newest `|kept|` rows of an ordered table are in order too.
  lemma {:induction false} SameIdsValid(t: Tables, kept: seq<Generation>)
    requires t.Valid() && |kept| <= |t.generations|
    requires forall j :: 0 <= j < |kept| ==> kept[j].id == t.generations[|t.generations| - |kept| + j].id
    ensures t.(generations := kept).Valid()
  {
  }

  /** Confirming keeps ids distinct and in order. */
  lemma {:induction false} ConfirmValid(t: Tables, id: int, prune: bool)
    requires t.Valid()
    ensures Confirm(t, id, prune).0.Valid()
  {
    var gs := t.generations;
    if PendingAt(gs, id) {
      var i := PendingIndex(gs, id);
      ConfirmAt(t, id, i, prune);
      SameIdsValid(t, AfterConfirm(gs, i, prune));
    }
  }

  lemma {:induction false} OpenPruned(p: Tables, k: Tables, cut: nat)
    requires PrunedAt(p, k, cut)
    ensures PrunedAt(OpenGeneration(p), OpenGeneration(k), cut)
  {
    var g := [Generation(k.lastId + 1, k.settings, Pending, 0)];
    assert (k.generations + g)[cut..] == k.generations[cut..] + g;
  }

  lemma {:induction false} BootPruned(p: Tables, k: Tables, cut: nat)
    requires PrunedAt(p, k, cut)
    ensures PrepareBoot(p).1 == PrepareBoot(k).1
    ensures PrunedAt(PrepareBoot(p).0, PrepareBoot(k).0, cut)
  {
    if k.generations != [] {
      var n := |k.generations| - 1;
      assert p.generations[n - cut] == k.generations[n];
      if cut > 0 {
        LastConfirmedInSuffix(k.generations, cut);
      } else {
        assert p.generations == k.generations;
      }
      var g := PrepareBoot(k).0.generations[n];
      assert k.generations[n := g][cut..] == k.generations[cut..][n - cut := g];
    }
  }

  lemma {:induction false} PendingIndex(gs: seq<Generation>, id: int) returns (i: nat)
    requires PendingAt(gs, id)
    ensures i < |gs| && gs[i].id == id && gs[i].status == Pending
  {
    i :| 0 <= i < |gs| && gs[i].id == id && gs[i].status == Pending;
  }

  lemma {:induction false} PrunedIsValid(p: Tables, k: Tables, cut: nat)
    requires PrunedAt(p, k, cut)
    ensures p.Valid()
  {
    SameIdsValid(k, p.generations);
  }

  // A confirmation leaves the two stores alike, and they answer it alike unless the row that
  // still awaits it is one of those pruned.
  ghost predicate ConfirmAlike(p: Tables, k: Tables, cut: nat, id: int, cut': nat)
    requires cut <= |k.generations|
  {
    && PrunedAt(Confirm(p, id, true).0, Confirm(k, id, false).0, cut')
    && (Confirm(p, id, true).1 == Confirm(k, id, false).1 <==> !PendingAt(k.generations[..cut], id))
  }

  lemma {:induction false} ConfirmAmongPruned(p: Tables, k: Tables, cut: nat, id: int, i: nat)
    requires PrunedAt(p, k, cut)
    requires i < cut && k.generations[i].id == id && k.generations[i].status == Pending
    ensures ConfirmAlike(p, k, cut, id, cut)
  {
    var gs := k.generations;
    ConfirmAt(k, id, i, false);
    ConfirmValid(k, id, false);
    assert gs[..cut][i] == gs[i];
    assert AfterConfirm(gs, i, false)[cut..] == gs[cut..];
  }

  lemma {:induction false} ConfirmAmongKept(p: Tables, k: Tables, cut: nat, id: int, i: nat)
    requires PrunedAt(p, k, cut)
    requires cut <= i < |k.generations| && k.generations[i].id == id && k.generations[i].status == Pending
    ensures ConfirmAlike(p, k, cut, id, i)
  {
    var gs := k.generations;
    PrunedIsValid(p, k, cut);
    ConfirmAt(k, id, i, false);
    ConfirmValid(k, id, false);
    ConfirmAt(p, id, i - cut, true);
    assert AfterConfirm(gs[cut..], i - cut, true) == AfterConfirm(gs, i, false)[i..];
    assert !PendingAt(gs[..cut], id);
  }

  lemma {:induction false} ConfirmMisses(p: Tables, k: Tables, cut: nat, id: int)
    requires PrunedAt(p, k, cut) && !PendingAt(k.generations, id)
    ensures ConfirmAlike(p, k, cut, id, cut)
  {
    assert !PendingAt(p.generations, id);
    assert !PendingAt(k.generations[..cut], id);
  }

  lemma {:induction false} ConfirmPruned(p: Tables, k: Tables, cut: nat, id: int) returns (cut': nat)
    requires PrunedAt(p, k, cut)
    ensures ConfirmAlike(p, k, cut, id, cut')
  {
    cut' := cut;
    if PendingAt(k.generations, id) {
      var i := PendingIndex(k.generations, id);
      if i < cut {
        ConfirmAmongPruned(p, k, cut, id, i);
      } else {
        ConfirmAmongKept(p, k, cut, id, i);
        cut' := i;
      }
    } else {
      ConfirmMisses(p, k, cut, id);
    }
  }

  lemma {:induction false} WritePruned(p: Tables, k: Tables, cut: nat, op: Op)
    requires PrunedAt(p, k, cut) && (op.SetOp? || op.UnsetOp? || op.ClearOp?)
    ensures Step(p, op, true).1 == Step(k, op, false).1
    ensures PrunedAt(Step(p, op, true).0, Step(k, op, false).0, cut)
  {
    var s := match op
      case SetOp(updates) => Inserted(k.settings, updates)
      case UnsetOp(name) => k.settings - {name}
      case _ => map[];
    OpenPruned(p.(settings := s), k.(settings := s), cut);
  }

  /** One operation on both stores: the same thing is seen, and they stay alike. */
  lemma {:induction false} StepPruned(p: Tables, k: Tables, cut: nat, op: Op) returns (cut': nat)
    requires PrunedAt(p, k, cut)
    ensures Step(p, op, true).1 == Step(k, op, false).1
    ensures PrunedAt(Step(p, op, true).0, Step(k, op, false).0, cut')
  {
    cut' := cut;
    if op.BootOp? {
      BootPruned(p, k, cut);
    } else if op.ConfirmOp? {
      cut' := ConfirmPruned(p, k, cut, op.id);
    } else {
      WritePruned(p, k, cut, op);
    }
  }

  lemma {:induction false} TracePruned(p: Tables, k: Tables, cut: nat, ops: seq<Op>)
    requires PrunedAt(p, k, cut)
    ensures Trace(p, ops, true) == Trace(k, ops, false)
    decreases |ops|
  {
    if ops != [] {
      var cut' := StepPruned(p, k, cut, ops[0]);
      TracePruned(Step(p, ops[0], true).0, Step(k, ops[0], false).0, cut', ops[1..]);
    }
  }

  /**
   Pruning is unobservable: over every run, with every confirmed id, each write, removal and boot
   reports the same and leaves the same settings as in a store that never deletes a generation.
   */
  lemma {:induction false} PruningIsUnobservable(t: Tables, ops: seq<Op>)
    requires t.Valid()
    ensures Trace(t, ops, true) == Trace(t, ops, false)
  {
    assert t.generations[0..] == t.generations;
    TracePruned(t, t, 0, ops);
  }

  /** What pruning buys: a confirmed generation becomes the oldest row, and no newer row is lost. */
  lemma {:induction false} ConfirmLeavesOnlyNewer(t: Tables, id: int)
    requires t.Valid() && PendingAt(t.generations, id)
    ensures var gs := Confirm(t, id, true).0.generations;
            && gs != [] && gs[0].id == id && gs[0].status == Confirmed
            && (forall g :: g in gs[1..] <==> g in t.generations && g.id > id)
  {
    var gs := t.generations;
    var i :| 0 <= i < |gs| && gs[i].id == id && gs[i].status == Pending;
    ConfirmAt(t, id, i, true);
    var kept := Confirm(t, id, true).0.generations;
    assert kept[1..] == gs[i + 1..];
    forall g | g in gs && g.id > id
      ensures g in gs[i + 1..]
    {
      var j :| 0 <= j < |gs| && gs[j] == g;
      assert gs[i + 1..][j - i - 1] == g;
    }
  }
}
