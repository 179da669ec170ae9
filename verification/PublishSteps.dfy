/**
 What every save has done by the time it publishes: the order of its steps, and the mode of
 the file it publishes.
 */
module PublishSteps {
  import opened Wrappers
  import opened FileTree
  import opened ObjectSpec
  import opened PublishProtocol
  import opened PublishSafety

  // ----- The order of the steps -----

  /** The step that begins a stage after the copying. */
  function BeginsStage(stage: Stage, id: nat): Label
    requires !stage.Chmodding? && !stage.Copying?
  {
    match stage
    case Syncing => CopyEnds(id)
    case Closing => Sync(id)
    case Rechecking => Close(id)
    case Publishing => Recheck(id)
  }

  predicate IsAtStage(s: System, id: nat, stage: Stage) {
    id in s.processes && AtStage(s.processes[id], stage)
  }

  lemma StagesBeginByTheirStep(s: System, l: Label, id: nat, stage: Stage)
    requires Enabled(s, l) && !stage.Chmodding? && !stage.Copying?
    requires IsAtStage(Next(s, l), id, stage)
    ensures IsAtStage(s, id, stage) || l == BeginsStage(stage, id)
  {
    if l.id != id {
      OtherProcessesStay(s, l, id);
    }
  }

  lemma {:induction false} StageWasBegun(
    tree: Tree, states: seq<System>, labels: seq<Label>, n: nat, id: nat, stage: Stage
  ) returns (i: nat)
    requires Path(tree, states, labels) && n <= |labels| && !stage.Chmodding? && !stage.Copying?
    requires IsAtStage(states[n], id, stage)
    ensures i < n && labels[i] == BeginsStage(stage, id)
  {
    assert n > 0 && Step(states, labels, n - 1);
    StagesBeginByTheirStep(states[n - 1], labels[n - 1], id, stage);
    if labels[n - 1] == BeginsStage(stage, id) {
      i := n - 1;
    } else {
      i := StageWasBegun(tree, states, labels, n - 1, id, stage);
    }
  }

  /** What a step that begins a stage needs: the stage before it. */
  lemma StageBefore(s: System, id: nat, stage: Stage)
    requires !stage.Chmodding? && !stage.Copying? && Enabled(s, BeginsStage(stage, id))
    ensures stage.Syncing? ==> IsAtStage(s, id, Copying)
    ensures stage.Closing? ==> IsAtStage(s, id, Syncing)
    ensures stage.Rechecking? ==> IsAtStage(s, id, Closing)
    ensures stage.Publishing? ==> IsAtStage(s, id, Rechecking)
  {
  }

  /**
   A save publishes only after its file was copied completely, synced and closed and its
   context looked at once more, in this order.
   */
  lemma {:induction false} SavesPublishLast(tree: Tree, states: seq<System>, labels: seq<Label>, n: nat, id: nat)
    returns (copied: nat, synced: nat, closed: nat, rechecked: nat)
    requires Path(tree, states, labels) && n < |labels| && labels[n] == Publish(id)
    ensures copied < synced < closed < rechecked < n
    ensures labels[copied] == CopyEnds(id) && labels[synced] == Sync(id)
    ensures labels[closed] == Close(id) && labels[rechecked] == Recheck(id)
  {
    assert Step(states, labels, n);
    rechecked := StageWasBegun(tree, states, labels, n, id, Publishing);
    assert Step(states, labels, rechecked);
    StageBefore(states[rechecked], id, Publishing);
    closed := StageWasBegun(tree, states, labels, rechecked, id, Rechecking);
    assert Step(states, labels, closed);
    StageBefore(states[closed], id, Rechecking);
    synced := StageWasBegun(tree, states, labels, closed, id, Closing);
    assert Step(states, labels, synced);
    StageBefore(states[synced], id, Closing);
    copied := StageWasBegun(tree, states, labels, synced, id, Syncing);
  }

  // ----- The mode -----

  lemma {:induction false} TreeInvOnPaths(tree: Tree, states: seq<System>, labels: seq<Label>, n: nat)
    requires CleanRoot(tree) && Path(tree, states, labels) && n <= |labels|
    ensures TreeInv(states[n])
  {
    if n > 0 {
      TreeInvOnPaths(tree, states, labels, n - 1);
      assert Step(states, labels, n - 1);
      TreeInvNext(states[n - 1], labels[n - 1]);
    }
  }

  /** At step i, which is the save's look at the old mode, the key's object had this mode, or there was none. */
  predicate ModeReadAt(states: seq<System>, labels: seq<Label>, i: nat, id: nat, key: string, found: Option<nat>) {
    && i < |labels| && i < |states| && labels[i] == ReadMode(id)
    && var t := states[i].tree;
    && (key in t.objects ==> t.objects[key] in t.inodes)
    && found == if key in t.objects then Some(t.inodes[t.objects[key]].mode) else None
  }

  ghost predicate ModeRead(states: seq<System>, labels: seq<Label>, n: nat, id: nat, key: string, found: Option<nat>) {
    exists i: nat :: i < n && ModeReadAt(states, labels, i, id, key, found)
  }

  /** What a save that has looked at the old mode, or need not look, goes by. */
  ghost predicate KnowsMode(states: seq<System>, labels: seq<Label>, n: nat, id: nat, op: Op, found: Option<nat>)
    requires op.Save?
  {
    if op.overwrite then ModeRead(states, labels, n, id, op.key, found) else found == None
  }

  ghost predicate ModeAccounted(states: seq<System>, labels: seq<Label>, n: nat, id: nat)
    requires n < |states|
  {
    id in states[n].processes ==>
      var Process(op, phase, _, _, _, _) := states[n].processes[id];
      && (phase.ReadingMode? ==> op.Save? && op.overwrite)
      && (phase.Creating? ==> op.Save? && KnowsMode(states, labels, n, id, op, phase.found))
      && (phase.Writing? ==> op.Save? && exists found: Option<nat> ::
            && KnowsMode(states, labels, n, id, op, found)
            && phase.mode == if found.Some? then found.value else 0x1A4)
  }

  lemma ModeStaysKnown(states: seq<System>, labels: seq<Label>, n: nat, id: nat, op: Op, found: Option<nat>)
    requires op.Save? && KnowsMode(states, labels, n, id, op, found)
    ensures KnowsMode(states, labels, n + 1, id, op, found)
  {
  }

  lemma ModeStaysAccounted(states: seq<System>, labels: seq<Label>, n: nat, id: nat)
    requires n + 1 < |states| && ModeAccounted(states, labels, n, id)
    requires id in states[n + 1].processes ==>
      id in states[n].processes && states[n + 1].processes[id] == states[n].processes[id]
    ensures ModeAccounted(states, labels, n + 1, id)
  {
    if id in states[n + 1].processes {
      var Process(op, phase, _, _, _, _) := states[n].processes[id];
      if phase.Creating? {
        ModeStaysKnown(states, labels, n, id, op, phase.found);
      } else if phase.Writing? {
        var found: Option<nat> :|
          && KnowsMode(states, labels, n, id, op, found)
          && phase.mode == if found.Some? then found.value else 0x1A4;
        ModeStaysKnown(states, labels, n, id, op, found);
      }
    }
  }

  lemma LookAccounted(states: seq<System>, labels: seq<Label>, n: nat, id: nat)
    requires Step(states, labels, n) && ModeAccounted(states, labels, n, id) && WellFormed(states[n].tree)
    requires labels[n] == Prepare(id) || labels[n] == ReadMode(id)
    ensures ModeAccounted(states, labels, n + 1, id)
  {
    if labels[n] == ReadMode(id) {
      var p, t := states[n].processes[id], states[n + 1].processes[id];
      assert ModeReadAt(states, labels, n, id, p.op.key, t.phase.found);
    }
  }

  lemma CreationAccounted(states: seq<System>, labels: seq<Label>, n: nat, id: nat)
    requires Step(states, labels, n) && ModeAccounted(states, labels, n, id)
    requires labels[n].Create? && labels[n].id == id
    ensures ModeAccounted(states, labels, n + 1, id)
  {
    var Process(op, phase, _, _, _, _) := states[n].processes[id];
    ModeStaysKnown(states, labels, n, id, op, phase.found);
  }

  /** Other steps of a save keep the mode, or end its writing. */
  lemma OtherStepsKeepMode(s: System, l: Label)
    requires Enabled(s, l) && l.id in s.processes && !l.Prepare? && !l.ReadMode? && !l.Create?
    ensures
      var p, q := s.processes[l.id], Next(s, l).processes;
      && l.id in q && q[l.id].op == p.op && !q[l.id].phase.ReadingMode? && !q[l.id].phase.Creating?
      && (q[l.id].phase.Writing? ==> p.phase.Writing? && q[l.id].phase.mode == p.phase.mode)
  {
  }

  lemma WritingAccounted(states: seq<System>, labels: seq<Label>, n: nat, id: nat)
    requires Step(states, labels, n) && ModeAccounted(states, labels, n, id)
    requires
      var l := labels[n];
      l.id == id && id in states[n].processes && !l.Prepare? && !l.ReadMode? && !l.Create?
    ensures ModeAccounted(states, labels, n + 1, id)
  {
    OtherStepsKeepMode(states[n], labels[n]);
    var Process(op, phase, _, _, _, _) := states[n].processes[id];
    if states[n + 1].processes[id].phase.Writing? {
      var found: Option<nat> :|
        && KnowsMode(states, labels, n, id, op, found)
        && phase.mode == if found.Some? then found.value else 0x1A4;
      ModeStaysKnown(states, labels, n, id, op, found);
    }
  }

  lemma {:induction false} ModeAlwaysAccounted(tree: Tree, states: seq<System>, labels: seq<Label>, n: nat, id: nat)
    requires CleanRoot(tree) && Path(tree, states, labels) && n <= |labels|
    ensures ModeAccounted(states, labels, n, id)
  {
    if n > 0 {
      ModeAlwaysAccounted(tree, states, labels, n - 1, id);
      TreeInvOnPaths(tree, states, labels, n - 1);
      assert Step(states, labels, n - 1);
      var l := labels[n - 1];
      if l.id != id {
        OtherProcessesStay(states[n - 1], l, id);
        ModeStaysAccounted(states, labels, n - 1, id);
      } else if l.Prepare? || l.ReadMode? {
        LookAccounted(states, labels, n - 1, id);
      } else if l.Create? {
        CreationAccounted(states, labels, n - 1, id);
      } else if !l.Invoke? {
        WritingAccounted(states, labels, n - 1, id);
      }
    }
  }

  /**
   The mode of a published file, over every run: for an overwriting save that of the object
   its key named when the save looked, if there was one; in all other cases 0644.
   */
  lemma {:induction false} PublishedMode(tree: Tree, states: seq<System>, labels: seq<Label>, n: nat, id: nat)
    returns (found: Option<nat>)
    requires CleanRoot(tree) && Path(tree, states, labels) && n < |labels| && labels[n] == Publish(id)
    requires id in states[n + 1].processes && states[n + 1].processes[id].phase.Cleaning?
    requires states[n + 1].processes[id].phase.response == Saved
    ensures
      var op, t := states[n + 1].processes[id].op, states[n + 1].tree;
      && op.Save? && op.key in t.objects && t.objects[op.key] in t.inodes
      && t.inodes[t.objects[op.key]] == Inode(op.body, if found.Some? then found.value else 0x1A4)
      && (op.overwrite ==> ModeRead(states, labels, n, id, op.key, found))
      && (!op.overwrite ==> found == None)
  {
    assert Step(states, labels, n);
    TreeInvOnPaths(tree, states, labels, n);
    ModeAlwaysAccounted(tree, states, labels, n, id);
    PublishedFileIsComplete(states[n], id);
    PublishKeepsOp(states[n], id);
    var p := states[n].processes[id];
    found :|
      && KnowsMode(states, labels, n, id, p.op, found)
      && p.phase.mode == if found.Some? then found.value else 0x1A4;
  }

  lemma PublishKeepsOp(s: System, id: nat)
    requires Enabled(s, Publish(id))
    ensures id in Next(s, Publish(id)).processes && Next(s, Publish(id)).processes[id].op == s.processes[id].op
    ensures Next(s, Publish(id)).processes[id].phase.Cleaning?
  {
  }
}
