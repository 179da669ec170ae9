/**
 The filesystem backend refines an atomic map. The invariants fall in two groups: what the
 tree looks like while files are being written, and how processes and the log correspond.
 */
module PublishSafety {
  import opened Wrappers
  import opened FileTree
  import opened ObjectSpec
  import opened PublishProtocol

  predicate OwnsTemp(p: Process, temp: nat) {
    (p.phase.Writing? && p.phase.temp == temp) || (p.phase.Cleaning? && p.phase.temp == temp)
  }

  predicate RunsItsOperation(p: Process) {
    && (p.phase.ReadingMode? || p.phase.Creating? || p.phase.Writing? || p.phase.Cleaning? ==> p.op.Save?)
    && (p.phase.Removing? ==> p.op.Delete?)
  }

  /** The file a save is writing: private, and holding as much of the body as its stage says. */
  predicate WritesPrivately(t: Tree, p: Process)
    requires p.phase.Writing?
  {
    var Writing(temp, inode, mode, stage) := p.phase;
    && p.op.Save? && temp in t.temporaries && t.temporaries[temp] == inode && inode in t.inodes
    && inode !in t.objects.Values
    && t.inodes[inode].bytes <= p.op.body
    && (stage.Chmodding? ==> t.inodes[inode].bytes == [])
    && (!stage.Chmodding? ==> t.inodes[inode].mode == mode)
    && (!stage.Chmodding? && !stage.Copying? ==> t.inodes[inode].bytes == p.op.body)
  }

  /** An opened reader's inode still holds the body its open answered with. */
  predicate ReadsItsBody(t: Tree, p: Process) {
    p.handle.Some? ==>
      && p.phase.Returned? && p.phase.response.Opened? && p.phase.response.body.Some?
      && p.handle.value in t.inodes && t.inodes[p.handle.value].bytes == p.phase.response.body.value
  }

  predicate TempsAreOwned(s: System) {
    && (forall temp :: temp in s.tree.temporaries ==>
          temp in s.owners && s.owners[temp] in s.processes && OwnsTemp(s.processes[s.owners[temp]], temp))
    && (forall id :: id in s.processes && (s.processes[id].phase.Writing? || s.processes[id].phase.Cleaning?) ==>
          s.processes[id].phase.temp in s.owners && s.owners[s.processes[id].phase.temp] == id)
  }

  /** No inode being written is written by another save or open in a reader. */
  predicate WritersAreAlone(s: System) {
    forall p, q :: p in s.processes && q in s.processes && s.processes[p].phase.Writing? ==>
      && (p != q && s.processes[q].phase.Writing? ==> s.processes[p].phase.inode != s.processes[q].phase.inode)
      && s.processes[q].handle != Some(s.processes[p].phase.inode)
  }

  predicate ProcessesAreSound(s: System) {
    forall id :: id in s.processes ==>
      && RunsItsOperation(s.processes[id])
      && (s.processes[id].phase.Writing? ==> WritesPrivately(s.tree, s.processes[id]))
      && ReadsItsBody(s.tree, s.processes[id])
  }

  predicate TreeInv(s: System) {
    WellFormed(s.tree) && ProcessesAreSound(s) && TempsAreOwned(s) && WritersAreAlone(s)
  }

  /** A process has a log entry exactly when it took effect; the entry lies within the call and carries its answer. */
  predicate EntryMatches(log: seq<Entry>, id: nat, p: Process) {
    && p.invoked <= |log|
    && (p.phase.Returned? <==> p.returned.Some?)
    && match p.entry
       case None => (p.phase.Cleaning? || p.phase.Returned?) ==> p.phase.response == Failed
       case Some(i) =>
         && p.invoked <= i < |log|
         && (p.phase.Cleaning? || p.phase.Returned?)
         && log[i] == Entry(id, p.op, p.phase.response)
         && (p.returned.Some? ==> i < p.returned.value <= |log|)
  }

  predicate LogMatches(processes: map<nat, Process>, log: seq<Entry>) {
    && (forall id :: id in processes ==> EntryMatches(log, id, processes[id]))
    && (forall i :: 0 <= i < |log| ==> log[i].actor in processes && processes[log[i].actor].entry == Some(i))
  }

  predicate Refines(s: System, m: map<string, Bytes>) {
    WellFormed(s.tree) && Legal(m, s.log) && Contents(s.tree) == Replay(m, s.log)
  }

  predicate Inv(s: System, m: map<string, Bytes>) {
    TreeInv(s) && LogMatches(s.processes, s.log) && Refines(s, m)
  }

  // ----- The tree -----

  lemma OtherProcessesStay(s: System, l: Label, id: nat)
    requires Enabled(s, l) && id != l.id
    ensures id in s.processes <==> id in Next(s, l).processes
    ensures id in s.processes ==> Next(s, l).processes[id] == s.processes[id]
  {
  }

  lemma OtherProcessStaysSound(s: System, l: Label, id: nat)
    requires TreeInv(s) && Enabled(s, l) && id in s.processes && id != l.id
    ensures s.processes[id].phase.Writing? ==> WritesPrivately(Next(s, l).tree, s.processes[id])
    ensures ReadsItsBody(Next(s, l).tree, s.processes[id])
  {
    if l.Publish? {
      PublishLeavesOthersPrivate(s, l.id, id);
    } else if l.SetMode? || l.Copy? {
      WritesLeaveOthersPrivate(s, l, id);
    } else {
      OtherStepsLeaveFilesAlone(s, l, s.processes[id]);
    }
  }

  lemma WritesLeaveOthersPrivate(s: System, l: Label, id: nat)
    requires ProcessesAreSound(s) && WritersAreAlone(s) && Enabled(s, l) && (l.SetMode? || l.Copy?)
    requires id in s.processes && id != l.id
    ensures s.processes[id].phase.Writing? ==> WritesPrivately(Next(s, l).tree, s.processes[id])
    ensures ReadsItsBody(Next(s, l).tree, s.processes[id])
  {
    assert WritesPrivately(s.tree, s.processes[l.id]);
  }

  lemma OtherStepsLeaveFilesAlone(s: System, l: Label, p: Process)
    requires Enabled(s, l) && !l.Publish? && !l.SetMode? && !l.Copy?
    requires p.phase.Writing? ==> WritesPrivately(s.tree, p)
    requires p.phase.Writing? && l.Clean? ==> s.processes[l.id].phase.temp != p.phase.temp
    requires ReadsItsBody(s.tree, p)
    ensures p.phase.Writing? ==> WritesPrivately(Next(s, l).tree, p)
    ensures ReadsItsBody(Next(s, l).tree, p)
  {
  }

  lemma PublishLeavesOthersPrivate(s: System, actor: nat, id: nat)
    requires TreeInv(s) && Enabled(s, Publish(actor)) && id in s.processes && id != actor
    ensures s.processes[id].phase.Writing? ==> WritesPrivately(PublishFile(s, actor).tree, s.processes[id])
    ensures ReadsItsBody(PublishFile(s, actor).tree, s.processes[id])
  {
    assert WritesPrivately(s.tree, s.processes[actor]);
  }

  lemma CreatedFileIsPrivate(s: System, l: Label)
    requires Enabled(s, l) && l.Create? && RunsItsOperation(s.processes[l.id]) && WellFormed(s.tree)
    ensures
      var t := Next(s, l);
      l.id in t.processes && t.processes[l.id].phase.Writing? && WritesPrivately(t.tree, t.processes[l.id])
  {
  }

  lemma WrittenFileStaysPrivate(s: System, l: Label)
    requires Enabled(s, l) && l.id in s.processes && s.processes[l.id].phase.Writing?
    requires WritesPrivately(s.tree, s.processes[l.id])
    ensures
      var t := Next(s, l);
      l.id in t.processes && (t.processes[l.id].phase.Writing? ==> WritesPrivately(t.tree, t.processes[l.id]))
  {
  }

  lemma KeepsItsOperation(s: System, l: Label)
    requires Enabled(s, l) && l.id in s.processes && RunsItsOperation(s.processes[l.id])
    ensures l.id in Next(s, l).processes && RunsItsOperation(Next(s, l).processes[l.id])
    ensures Next(s, l).processes[l.id].phase.Writing? ==> l.Create? || s.processes[l.id].phase.Writing?
  {
  }

  lemma OwnFileStaysPrivate(s: System, l: Label)
    requires Enabled(s, l) && l.id in s.processes && RunsItsOperation(s.processes[l.id]) && WellFormed(s.tree)
    requires s.processes[l.id].phase.Writing? ==> WritesPrivately(s.tree, s.processes[l.id])
    ensures
      var t := Next(s, l);
      && l.id in t.processes && RunsItsOperation(t.processes[l.id])
      && (t.processes[l.id].phase.Writing? ==> WritesPrivately(t.tree, t.processes[l.id]))
  {
    KeepsItsOperation(s, l);
    if l.Create? {
      CreatedFileIsPrivate(s, l);
    } else if s.processes[l.id].phase.Writing? {
      WrittenFileStaysPrivate(s, l);
    }
  }

  lemma OwnBodyStays(s: System, l: Label)
    requires Enabled(s, l) && (l.id in s.processes ==> ReadsItsBody(s.tree, s.processes[l.id]))
    ensures l.id in Next(s, l).processes && ReadsItsBody(Next(s, l).tree, Next(s, l).processes[l.id])
  {
  }

  lemma OwnProcessStaysSound(s: System, l: Label)
    requires ProcessesAreSound(s) && WellFormed(s.tree) && Enabled(s, l)
    ensures
      var t := Next(s, l);
      && l.id in t.processes && RunsItsOperation(t.processes[l.id])
      && (t.processes[l.id].phase.Writing? ==> WritesPrivately(t.tree, t.processes[l.id]))
      && ReadsItsBody(t.tree, t.processes[l.id])
  {
    OwnBodyStays(s, l);
    if !l.Invoke? {
      OwnFileStaysPrivate(s, l);
    }
  }

  lemma ProcessesStaySound(s: System, l: Label)
    requires TreeInv(s) && Enabled(s, l)
    ensures ProcessesAreSound(Next(s, l))
  {
    var t := Next(s, l);
    forall id | id in t.processes
      ensures RunsItsOperation(t.processes[id]) && ReadsItsBody(t.tree, t.processes[id])
      ensures t.processes[id].phase.Writing? ==> WritesPrivately(t.tree, t.processes[id])
    {
      if id == l.id {
        OwnProcessStaysSound(s, l);
      } else {
        OtherProcessesStay(s, l, id);
        OtherProcessStaysSound(s, l, id);
      }
    }
  }

  /** Names appear only by Create, which draws new ones. */
  lemma TemporariesAppearByCreate(s: System, l: Label, temp: nat)
    requires Enabled(s, l)
    ensures temp in Next(s, l).tree.temporaries ==> temp in s.tree.temporaries || (l.Create? && l.temp == temp)
    ensures temp in s.owners ==> temp in Next(s, l).owners && Next(s, l).owners[temp] == s.owners[temp]
  {
  }

  /** The owner of a name keeps it until it has cleaned up. */
  lemma OwnerKeepsOwning(s: System, l: Label, temp: nat)
    requires Enabled(s, l) && l.id in s.processes && OwnsTemp(s.processes[l.id], temp)
    requires temp in Next(s, l).tree.temporaries
    ensures l.id in Next(s, l).processes && OwnsTemp(Next(s, l).processes[l.id], temp)
  {
  }

  lemma TempKeepsItsOwner(s: System, l: Label, temp: nat)
    requires TempsAreOwned(s) && Enabled(s, l) && temp in Next(s, l).tree.temporaries
    ensures
      var t := Next(s, l);
      temp in t.owners && t.owners[temp] in t.processes && OwnsTemp(t.processes[t.owners[temp]], temp)
  {
    TemporariesAppearByCreate(s, l, temp);
    if temp in s.tree.temporaries {
      var owner := s.owners[temp];
      if owner != l.id {
        OtherProcessesStay(s, l, owner);
      } else {
        OwnerKeepsOwning(s, l, temp);
      }
    }
  }

  lemma OwnerKeepsItsTemp(s: System, l: Label, id: nat)
    requires TempsAreOwned(s) && Enabled(s, l) && id in Next(s, l).processes
    requires Next(s, l).processes[id].phase.Writing? || Next(s, l).processes[id].phase.Cleaning?
    ensures
      var t := Next(s, l);
      t.processes[id].phase.temp in t.owners && t.owners[t.processes[id].phase.temp] == id
  {
    if id != l.id {
      OtherProcessesStay(s, l, id);
    }
  }

  lemma TempsStayOwned(s: System, l: Label)
    requires TreeInv(s) && Enabled(s, l)
    ensures TempsAreOwned(Next(s, l))
  {
    var t := Next(s, l);
    forall temp | temp in t.tree.temporaries
      ensures temp in t.owners && t.owners[temp] in t.processes && OwnsTemp(t.processes[t.owners[temp]], temp)
    {
      TempKeepsItsOwner(s, l, temp);
    }
    forall id | id in t.processes && (t.processes[id].phase.Writing? || t.processes[id].phase.Cleaning?)
      ensures t.processes[id].phase.temp in t.owners && t.owners[t.processes[id].phase.temp] == id
    {
      OwnerKeepsItsTemp(s, l, id);
    }
  }

  /** A process writes to an inode it was already writing to, or to a brand new one. */
  lemma WritingStartsFresh(s: System, l: Label, id: nat)
    requires Enabled(s, l) && id in Next(s, l).processes && Next(s, l).processes[id].phase.Writing?
    ensures
      var inode := Next(s, l).processes[id].phase.inode;
      || (id in s.processes && s.processes[id].phase.Writing? && s.processes[id].phase.inode == inode)
      || (id == l.id && l.Create? && inode !in s.tree.inodes)
  {
    if id != l.id {
      OtherProcessesStay(s, l, id);
    } else {
      OwnWritingStartsFresh(s, l);
    }
  }

  lemma OwnWritingStartsFresh(s: System, l: Label)
    requires Enabled(s, l) && l.id in Next(s, l).processes && Next(s, l).processes[l.id].phase.Writing?
    ensures
      var inode := Next(s, l).processes[l.id].phase.inode;
      || (l.id in s.processes && s.processes[l.id].phase.Writing? && s.processes[l.id].phase.inode == inode)
      || (l.Create? && inode !in s.tree.inodes)
  {
  }

  /** A reader's handle was there before, or names an inode that an object name had. */
  lemma HandlesAreObjects(s: System, l: Label, id: nat)
    requires TreeInv(s) && Enabled(s, l) && id in Next(s, l).processes && Next(s, l).processes[id].handle.Some?
    ensures
      var inode := Next(s, l).processes[id].handle.value;
      || (id in s.processes && s.processes[id].handle == Some(inode))
      || (l.OpenFile? && inode in s.tree.objects.Values)
  {
    if id != l.id {
      OtherProcessesStay(s, l, id);
    }
  }

  lemma WritersStayAlone(s: System, l: Label)
    requires TreeInv(s) && Enabled(s, l)
    ensures WritersAreAlone(Next(s, l))
  {
    var t := Next(s, l);
    forall p, q | p in t.processes && q in t.processes && t.processes[p].phase.Writing?
      ensures p != q && t.processes[q].phase.Writing? ==> t.processes[p].phase.inode != t.processes[q].phase.inode
      ensures t.processes[q].handle != Some(t.processes[p].phase.inode)
    {
      WritingStartsFresh(s, l, p);
      if p in s.processes && s.processes[p].phase.Writing? {
        assert WritesPrivately(s.tree, s.processes[p]);
      }
      if t.processes[q].phase.Writing? {
        WritingStartsFresh(s, l, q);
        if q in s.processes && s.processes[q].phase.Writing? {
          assert WritesPrivately(s.tree, s.processes[q]);
        }
      }
      if t.processes[q].handle.Some? {
        HandlesAreObjects(s, l, q);
        if q in s.processes {
          assert ReadsItsBody(s.tree, s.processes[q]);
        }
      }
    }
  }

  lemma TreeInvNext(s: System, l: Label)
    requires TreeInv(s) && Enabled(s, l)
    ensures TreeInv(Next(s, l))
  {
    ProcessesStaySound(s, l);
    TempsStayOwned(s, l);
    WritersStayAlone(s, l);
    TreeStaysWellFormed(s, l);
  }

  lemma TreeStaysWellFormed(s: System, l: Label)
    requires WellFormed(s.tree) && Enabled(s, l)
    ensures WellFormed(Next(s, l).tree)
  {
  }

  // ----- The log -----

  /** The log and the actor's entry stay, or the actor records its first entry. */
  predicate GrowsByActor(s: System, t: System, actor: nat) {
    && actor in t.processes
    && if t.log == s.log then
         t.processes[actor].entry == if actor in s.processes then s.processes[actor].entry else None
       else
         && actor in s.processes && s.processes[actor].entry == None
         && |t.log| == |s.log| + 1 && t.log[..|s.log|] == s.log
         && t.log[|s.log|].actor == actor && t.processes[actor].entry == Some(|s.log|)
  }

  lemma LogGrowsByActor(s: System, l: Label)
    requires (l.id in s.processes ==> EntryMatches(s.log, l.id, s.processes[l.id])) && Enabled(s, l)
    ensures GrowsByActor(s, Next(s, l), l.id)
  {
  }

  /** The steps at which an operation may take effect. */
  predicate MayLog(l: Label) {
    l.Publish? || l.StatThenRemove? || l.Remove? || l.Look? || l.OpenFile?
  }

  lemma LoggedEntryMatches(s: System, l: Label)
    requires MayLog(l) && Enabled(s, l) && EntryMatches(s.log, l.id, s.processes[l.id])
    ensures l.id in Next(s, l).processes
    ensures EntryMatches(Next(s, l).log, l.id, Next(s, l).processes[l.id])
  {
  }

  lemma UnloggedEntryMatches(s: System, l: Label)
    requires !MayLog(l) && Enabled(s, l)
    requires l.id in s.processes ==> EntryMatches(s.log, l.id, s.processes[l.id])
    ensures l.id in Next(s, l).processes
    ensures EntryMatches(Next(s, l).log, l.id, Next(s, l).processes[l.id])
  {
  }

  lemma OwnEntryMatches(s: System, l: Label)
    requires (l.id in s.processes ==> EntryMatches(s.log, l.id, s.processes[l.id])) && Enabled(s, l)
    ensures l.id in Next(s, l).processes
    ensures EntryMatches(Next(s, l).log, l.id, Next(s, l).processes[l.id])
  {
    if MayLog(l) {
      LoggedEntryMatches(s, l);
    } else {
      UnloggedEntryMatches(s, l);
    }
  }

  lemma LongerLogMatches(s: System, t: System, actor: nat, id: nat, p: Process)
    requires EntryMatches(s.log, id, p) && GrowsByActor(s, t, actor)
    ensures EntryMatches(t.log, id, p)
  {
    assert p.entry.Some? ==> t.log[p.entry.value] == s.log[p.entry.value];
  }

  lemma EntriesMatchNext(s: System, l: Label, id: nat)
    requires LogMatches(s.processes, s.log) && Enabled(s, l) && id in Next(s, l).processes
    ensures EntryMatches(Next(s, l).log, id, Next(s, l).processes[id])
  {
    if id == l.id {
      OwnEntryMatches(s, l);
    } else {
      LogGrowsByActor(s, l);
      OtherProcessesStay(s, l, id);
      LongerLogMatches(s, Next(s, l), l.id, id, s.processes[id]);
    }
  }

  lemma ActorsMatch(s: System, t: System, actor: nat, i: nat)
    requires LogMatches(s.processes, s.log) && GrowsByActor(s, t, actor) && i < |t.log|
    requires i < |s.log| && s.log[i].actor != actor ==>
      s.log[i].actor in t.processes && t.processes[s.log[i].actor] == s.processes[s.log[i].actor]
    ensures t.log[i].actor in t.processes && t.processes[t.log[i].actor].entry == Some(i)
  {
    if i < |s.log| {
      assert t.log[i] == s.log[i];
    }
  }

  lemma LogMatchesNext(s: System, l: Label)
    requires TreeInv(s) && LogMatches(s.processes, s.log) && Enabled(s, l)
    ensures LogMatches(Next(s, l).processes, Next(s, l).log)
  {
    var t := Next(s, l);
    forall id | id in t.processes
      ensures EntryMatches(t.log, id, t.processes[id])
    {
      EntriesMatchNext(s, l, id);
    }
    forall i | 0 <= i < |t.log|
      ensures t.log[i].actor in t.processes && t.processes[t.log[i].actor].entry == Some(i)
    {
      LogGrowsByActor(s, l);
      if i < |s.log| && s.log[i].actor != l.id {
        OtherProcessesStay(s, l, s.log[i].actor);
      }
      ActorsMatch(s, t, l.id, i);
    }
  }

  // ----- Refinement -----

  /** Object names, their inodes, and those inodes' bytes and modes are the same. */
  predicate ObjectsUntouched(a: Tree, b: Tree) {
    && b.objects == a.objects
    && forall key :: key in a.objects && a.objects[key] in a.inodes ==>
         a.objects[key] in b.inodes && b.inodes[a.objects[key]] == a.inodes[a.objects[key]]
  }

  /** A step that takes no effect in the log leaves every object's inode, bytes and mode as they were. */
  lemma OnlyLoggedStepsTouchObjects(s: System, l: Label)
    requires TreeInv(s) && Enabled(s, l)
    requires Next(s, l).log == s.log
    ensures ObjectsUntouched(s.tree, Next(s, l).tree)
  {
    if l.SetMode? || l.Copy? {
      assert WritesPrivately(s.tree, s.processes[l.id]);
      PrivateWritesTouchNoObject(s, l);
    } else {
      OtherStepsWriteNoInode(s, l);
    }
  }

  lemma OtherStepsWriteNoInode(s: System, l: Label)
    requires Enabled(s, l) && !l.SetMode? && !l.Copy? && Next(s, l).log == s.log
    ensures ObjectsUntouched(s.tree, Next(s, l).tree)
  {
  }

  lemma PrivateWritesTouchNoObject(s: System, l: Label)
    requires Enabled(s, l) && (l.SetMode? || l.Copy?) && WritesPrivately(s.tree, s.processes[l.id])
    ensures ObjectsUntouched(s.tree, Next(s, l).tree)
  {
  }

  lemma UntouchedContents(a: Tree, b: Tree)
    requires WellFormed(a) && WellFormed(b) && ObjectsUntouched(a, b)
    ensures Contents(a) == Contents(b)
  {
  }

  lemma EntryRefines(s: System, t: System, m: map<string, Bytes>, e: Entry)
    requires Refines(s, m) && WellFormed(t.tree)
    requires t.log == s.log + [e] && Answers(Contents(s.tree), e.op, e.response)
    requires Contents(t.tree) == Effect(Contents(s.tree), e.op, e.response)
    ensures Refines(t, m)
  {
    LogExtends(m, s.log, e);
  }

  lemma PublishRefines(s: System, id: nat, m: map<string, Bytes>)
    requires TreeInv(s) && Refines(s, m) && Enabled(s, Publish(id))
    ensures Refines(Next(s, Publish(id)), m)
  {
    var p := s.processes[id];
    var temp, key := p.phase.temp, p.op.key;
    assert WritesPrivately(s.tree, p);
    if p.op.overwrite {
      RenameContents(s.tree, temp, key);
    } else if key !in s.tree.objects {
      LinkContents(s.tree, temp, key);
    }
    var response := if p.op.overwrite || key !in s.tree.objects then Saved else AlreadyExists;
    EntryRefines(s, PublishFile(s, id), m, Entry(id, p.op, response));
  }

  lemma RemoveRefines(s: System, id: nat, m: map<string, Bytes>)
    requires Refines(s, m) && Enabled(s, Remove(id))
    ensures Refines(Next(s, Remove(id)), m)
  {
    var p := s.processes[id];
    UnlinkContents(s.tree, p.op.key);
    EntryRefines(s, Next(s, Remove(id)), m, Entry(id, p.op, Removed(p.op.key in s.tree.objects)));
  }

  /** A stat that finds nothing to remove, a look, or an open takes effect without changing the tree. */
  lemma ReadingRefines(s: System, l: Label, m: map<string, Bytes>)
    requires Refines(s, m) && Enabled(s, l)
    requires l.Look? || l.OpenFile? || (l.StatThenRemove? && s.processes[l.id].op.key !in s.tree.objects)
    ensures Refines(Next(s, l), m)
  {
    var p := s.processes[l.id];
    var present := p.op.key in s.tree.objects;
    var response :=
      if l.StatThenRemove? then Removed(false)
      else if l.Look? then Present(present)
      else Opened(if present then Some(Contents(s.tree)[p.op.key]) else None);
    EntryRefines(s, Next(s, l), m, Entry(l.id, p.op, response));
  }

  lemma WhatIsLogged(s: System, l: Label)
    requires Enabled(s, l) && Next(s, l).log != s.log
    ensures l.Publish? || l.Remove? || l.Look? || l.OpenFile?
      || (l.StatThenRemove? && s.processes[l.id].op.key !in s.tree.objects)
  {
  }

  lemma {:induction false} RefinesNext(s: System, l: Label, m: map<string, Bytes>)
    requires Inv(s, m) && Enabled(s, l)
    ensures Refines(Next(s, l), m)
  {
    TreeStaysWellFormed(s, l);
    if Next(s, l).log == s.log {
      OnlyLoggedStepsTouchObjects(s, l);
      UntouchedContents(s.tree, Next(s, l).tree);
    } else {
      WhatIsLogged(s, l);
      if l.Publish? {
        PublishRefines(s, l.id, m);
      } else if l.Remove? {
        RemoveRefines(s, l.id, m);
      } else {
        ReadingRefines(s, l, m);
      }
    }
  }

  lemma {:induction false} InvNext(s: System, l: Label, m: map<string, Bytes>)
    requires Inv(s, m) && Enabled(s, l)
    ensures Inv(Next(s, l), m)
  {
    TreeInvNext(s, l);
    LogMatchesNext(s, l);
    RefinesNext(s, l, m);
  }

  lemma {:induction false} InvAlways(s: System, labels: seq<Label>, m: map<string, Bytes>)
    requires Inv(s, m) && Executable(s, labels)
    ensures Inv(After(s, labels), m)
  {
    if labels != [] {
      var front := labels[..|labels| - 1];
      InvAlways(s, front, m);
      InvNext(After(s, front), labels[|labels| - 1], m);
    }
  }

  /** A root without leftovers from earlier runs. */
  predicate CleanRoot(tree: Tree) {
    WellFormed(tree) && tree.temporaries == map[]
  }

  /**
   Linearizability. In every reachable state the log is a legal sequential history of the
   atomic map that explains what the keys hold. Every operation that returned without an
   I/O failure has exactly one entry, with its answer, between its call and its return; a
   failed one has none. RealTimeOrder says what this means for operations that do not
   overlap.
   */
  lemma {:induction false} Linearizability(tree: Tree, labels: seq<Label>)
    requires CleanRoot(tree) && Executable(Initial(tree), labels)
    ensures
      var s := After(Initial(tree), labels);
      && WellFormed(s.tree) && Legal(Contents(tree), s.log) && Contents(s.tree) == Replay(Contents(tree), s.log)
      && (forall id :: id in s.processes && s.processes[id].phase.Returned? ==>
            var p := s.processes[id];
            && p.returned.Some?
            && if p.phase.response == Failed then p.entry == None
               else p.entry.Some? && p.invoked <= p.entry.value < p.returned.value <= |s.log|
                    && s.log[p.entry.value] == Entry(id, p.op, p.phase.response))
      && (forall i :: 0 <= i < |s.log| ==>
            s.log[i].actor in s.processes && s.processes[s.log[i].actor].entry == Some(i))
  {
    InvAlways(Initial(tree), labels, Contents(tree));
    var s := After(Initial(tree), labels);
    forall id | id in s.processes
      ensures EntryMatches(s.log, id, s.processes[id])
    {
    }
    forall i | 0 <= i < |s.log|
      ensures s.log[i].response != Failed
    {
      LegalAnswersNeverFail(Contents(tree), s.log, i);
    }
  }

  lemma {:induction false} LegalAnswersNeverFail(m: map<string, Bytes>, log: seq<Entry>, i: nat)
    requires Legal(m, log) && i < |log|
    ensures log[i].response != Failed
  {
    if i < |log| - 1 {
      LegalAnswersNeverFail(m, log[..|log| - 1], i);
    }
  }

  /** An opened reader sees one complete, unchanging body, whatever happens to the key. */
  lemma {:induction false} ReadersSeeOneBody(tree: Tree, labels: seq<Label>, id: nat)
    requires CleanRoot(tree) && Executable(Initial(tree), labels)
    requires
      var s := After(Initial(tree), labels);
      id in s.processes && s.processes[id].handle.Some?
    ensures
      var s := After(Initial(tree), labels);
      var inode := s.processes[id].handle.value;
      && s.processes[id].phase.Returned? && inode in s.tree.inodes
      && s.processes[id].phase.response == Opened(Some(s.tree.inodes[inode].bytes))
  {
    InvAlways(Initial(tree), labels, Contents(tree));
    var s := After(Initial(tree), labels);
    assert ReadsItsBody(s.tree, s.processes[id]);
  }

  predicate AllReturned(s: System) {
    forall id :: id in s.processes ==> s.processes[id].phase.Returned?
  }

  lemma NoOwnerNoTemporary(s: System)
    requires TempsAreOwned(s) && AllReturned(s)
    ensures s.tree.temporaries == map[]
  {
    assert forall temp :: temp in s.tree.temporaries ==> OwnsTemp(s.processes[s.owners[temp]], temp);
  }

  /** Once every operation has returned, no temporary name is left. */
  lemma {:induction false} NoTemporaryRemains(tree: Tree, labels: seq<Label>)
    requires CleanRoot(tree) && Executable(Initial(tree), labels) && AllReturned(After(Initial(tree), labels))
    ensures After(Initial(tree), labels).tree.temporaries == map[]
  {
    InvAlways(Initial(tree), labels, Contents(tree));
    NoOwnerNoTemporary(After(Initial(tree), labels));
  }

  /**
   For one key, over any concurrent run: creations minus removals is presence at the end
   minus presence at the start.
   */
  lemma {:induction false} ExclusiveSavesAreConserved(tree: Tree, labels: seq<Label>, key: string)
    requires CleanRoot(tree) && Executable(Initial(tree), labels)
    ensures
      var s := After(Initial(tree), labels);
      && WellFormed(s.tree)
      && Creations(Contents(tree), s.log, key) - Removals(s.log, key) ==
           PresentCount(Contents(s.tree), key) - PresentCount(Contents(tree), key)
  {
    InvAlways(Initial(tree), labels, Contents(tree));
    ConservationOfSaves(Contents(tree), After(Initial(tree), labels).log, key);
  }

  predicate SavedExclusively(p: Process, key: string) {
    p.op.Save? && p.op.key == key && !p.op.overwrite && p.phase == Returned(Saved)
  }

  lemma SaverHasEntry(log: seq<Entry>, id: nat, p: Process, key: string)
    requires EntryMatches(log, id, p) && SavedExclusively(p, key)
    ensures p.entry.Some? && p.entry.value < |log|
    ensures ExclusiveSave(log[p.entry.value], key) && log[p.entry.value].actor == id
  {
  }

  lemma OneSaver(m: map<string, Bytes>, log: seq<Entry>, key: string, p: nat, first: Process, q: nat, second: Process)
    requires Legal(m, log) && Removals(log, key) == 0
    requires EntryMatches(log, p, first) && SavedExclusively(first, key)
    requires EntryMatches(log, q, second) && SavedExclusively(second, key)
    ensures p == q
  {
    SaverHasEntry(log, p, first, key);
    SaverHasEntry(log, q, second, key);
    var i, j := first.entry.value, second.entry.value;
    if i < j {
      OneExclusiveSave(m, log, i, j, key);
    } else if j < i {
      OneExclusiveSave(m, log, j, i, key);
    }
  }

  /** Of any number of exclusive saves of one key, at most one succeeds while nobody removes the key. */
  lemma AtMostOneExclusiveSave(tree: Tree, labels: seq<Label>, key: string, p: nat, q: nat)
    requires CleanRoot(tree) && Executable(Initial(tree), labels)
    requires
      var s := After(Initial(tree), labels);
      && p in s.processes && q in s.processes && Removals(s.log, key) == 0
      && SavedExclusively(s.processes[p], key) && SavedExclusively(s.processes[q], key)
    ensures p == q
  {
    InvAlways(Initial(tree), labels, Contents(tree));
    var s := After(Initial(tree), labels);
    OneSaver(Contents(tree), s.log, key, p, s.processes[p], q, s.processes[q]);
  }

  // ----- Real time -----

  lemma {:induction false} PrefixRuns(s: System, labels: seq<Label>, i: nat)
    requires Executable(s, labels) && i <= |labels|
    ensures Executable(s, labels[..i])
  {
    if i == |labels| {
      assert labels[..i] == labels;
    } else {
      PrefixRuns(s, labels[..|labels| - 1], i);
      assert labels[..|labels| - 1][..i] == labels[..i];
    }
  }

  lemma MomentsStay(s: System, l: Label, id: nat)
    requires Enabled(s, l) && id in s.processes
    ensures id in Next(s, l).processes && Next(s, l).processes[id].invoked == s.processes[id].invoked
    ensures s.processes[id].phase.Returned? ==> Next(s, l).processes[id] == s.processes[id]
  {
    if id != l.id {
      OtherProcessesStay(s, l, id);
    }
  }

  /** A call keeps the moment of its start, and once it has returned it never changes. */
  lemma {:induction false} MomentsAreKept(s: System, labels: seq<Label>, i: nat, id: nat)
    requires Executable(s, labels) && i <= |labels| && Executable(s, labels[..i])
    requires id in After(s, labels[..i]).processes
    ensures id in After(s, labels).processes
    ensures After(s, labels).processes[id].invoked == After(s, labels[..i]).processes[id].invoked
    ensures After(s, labels[..i]).processes[id].phase.Returned? ==>
      After(s, labels).processes[id] == After(s, labels[..i]).processes[id]
  {
    if i == |labels| {
      assert labels[..i] == labels;
    } else {
      var front, l := labels[..|labels| - 1], labels[|labels| - 1];
      assert front[..i] == labels[..i];
      MomentsAreKept(s, front, i, id);
      MomentsStay(After(s, front), l, id);
    }
  }

  lemma InvocationIsTimed(s: System, id: nat, op: Op)
    requires Enabled(s, Invoke(id, op))
    ensures id in Next(s, Invoke(id, op)).processes && Next(s, Invoke(id, op)).processes[id].invoked == |s.log|
  {
  }

  lemma {:induction false} InvokedWhen(s: System, labels: seq<Label>, i: nat)
    requires Executable(s, labels) && i < |labels| && labels[i].Invoke? && Executable(s, labels[..i])
    ensures labels[i].id in After(s, labels).processes
    ensures After(s, labels).processes[labels[i].id].invoked == |After(s, labels[..i]).log|
  {
    PrefixRuns(s, labels, i + 1);
    assert labels[..i + 1][..i] == labels[..i];
    InvocationIsTimed(After(s, labels[..i]), labels[i].id, labels[i].op);
    MomentsAreKept(s, labels, i + 1, labels[i].id);
  }

  lemma EntriesLieWithin(s: System, m: map<string, Bytes>, id: nat)
    requires Inv(s, m) && id in s.processes && s.processes[id].entry.Some?
    ensures s.processes[id].invoked <= s.processes[id].entry.value
    ensures s.processes[id].phase.Returned? ==> s.processes[id].entry.value < |s.log|
  {
    assert EntryMatches(s.log, id, s.processes[id]);
  }

  /**
   Real-time order: if p had returned before q was invoked, the effect of p comes before
   that of q in the history.
   */
  lemma {:induction false} RealTimeOrder(tree: Tree, labels: seq<Label>, i: nat, p: nat, q: nat)
    requires CleanRoot(tree) && Executable(Initial(tree), labels)
    requires i < |labels| && labels[i].Invoke? && labels[i].id == q
    requires Executable(Initial(tree), labels[..i])
    requires
      var earlier := After(Initial(tree), labels[..i]);
      p in earlier.processes && earlier.processes[p].phase.Returned?
    ensures
      var s := After(Initial(tree), labels);
      && p in s.processes && q in s.processes
      && (s.processes[p].entry.Some? && s.processes[q].entry.Some? ==>
            s.processes[p].entry.value < s.processes[q].entry.value)
  {
    var start, m := Initial(tree), Contents(tree);
    InvAlways(start, labels[..i], m);
    InvAlways(start, labels, m);
    MomentsAreKept(start, labels, i, p);
    InvokedWhen(start, labels, i);
    var s := After(start, labels);
    if s.processes[p].entry.Some? && s.processes[q].entry.Some? {
      OrderedByMoments(After(start, labels[..i]), s, m, p, q);
    }
  }

  lemma OrderedByMoments(earlier: System, s: System, m: map<string, Bytes>, p: nat, q: nat)
    requires Inv(earlier, m) && Inv(s, m)
    requires p in earlier.processes && earlier.processes[p].phase.Returned?
    requires p in s.processes && s.processes[p] == earlier.processes[p]
    requires q in s.processes && s.processes[q].invoked == |earlier.log|
    requires s.processes[p].entry.Some? && s.processes[q].entry.Some?
    ensures s.processes[p].entry.value < s.processes[q].entry.value
  {
    EntriesLieWithin(earlier, m, p);
    EntriesLieWithin(s, m, q);
  }

  // ----- Failures -----

  /** Once a process has a log entry, it keeps it. */
  lemma {:induction false} EntriesAreKept(s: System, labels: seq<Label>, i: nat, id: nat, m: map<string, Bytes>)
    requires Inv(s, m) && Executable(s, labels) && i <= |labels| && Executable(s, labels[..i])
    requires id in After(s, labels[..i]).processes && After(s, labels[..i]).processes[id].entry.Some?
    ensures id in After(s, labels).processes
    ensures After(s, labels).processes[id].entry == After(s, labels[..i]).processes[id].entry
  {
    if i == |labels| {
      assert labels[..i] == labels;
    } else {
      var front, l := labels[..|labels| - 1], labels[|labels| - 1];
      assert front[..i] == labels[..i];
      EntriesAreKept(s, front, i, id, m);
      InvAlways(s, front, m);
      EntryStays(After(s, front), l, id);
    }
  }

  lemma EntryStays(s: System, l: Label, id: nat)
    requires TreeInv(s) && LogMatches(s.processes, s.log) && Enabled(s, l)
    requires id in s.processes && s.processes[id].entry.Some?
    ensures id in Next(s, l).processes && Next(s, l).processes[id].entry == s.processes[id].entry
  {
    LogGrowsByActor(s, l);
    if id != l.id {
      OtherProcessesStay(s, l, id);
    }
  }

  /**
   An operation that fails in the end, at whatever step, has at none of its steps changed
   an object's name, inode, bytes or mode.
   */
  lemma {:induction false} FailedOperationsTouchNothing(tree: Tree, labels: seq<Label>, i: nat)
    requires CleanRoot(tree) && Executable(Initial(tree), labels) && i < |labels|
    requires
      var s := After(Initial(tree), labels);
      labels[i].id in s.processes && s.processes[labels[i].id].phase == Returned(Failed)
    ensures Executable(Initial(tree), labels[..i]) && Executable(Initial(tree), labels[..i + 1])
    ensures ObjectsUntouched(After(Initial(tree), labels[..i]).tree, After(Initial(tree), labels[..i + 1]).tree)
  {
    var start, m := Initial(tree), Contents(tree);
    PrefixRuns(start, labels, i);
    PrefixRuns(start, labels, i + 1);
    assert labels[..i + 1][..i] == labels[..i];
    InvAlways(start, labels[..i], m);
    UnloggedUnlessKept(start, labels, i, m);
    OnlyLoggedStepsTouchObjects(After(start, labels[..i]), labels[i]);
  }

  lemma UnloggedUnlessKept(s: System, labels: seq<Label>, i: nat, m: map<string, Bytes>)
    requires Inv(s, m) && Executable(s, labels) && i < |labels|
    requires Executable(s, labels[..i]) && Executable(s, labels[..i + 1])
    requires labels[i].id in After(s, labels).processes
    requires After(s, labels).processes[labels[i].id].phase == Returned(Failed)
    ensures After(s, labels[..i + 1]).log == After(s, labels[..i]).log
  {
    assert labels[..i + 1][..i] == labels[..i];
    InvAlways(s, labels[..i], m);
    InvAlways(s, labels, m);
    LogGrowsByActor(After(s, labels[..i]), labels[i]);
    if After(s, labels[..i + 1]).log != After(s, labels[..i]).log {
      EntriesAreKept(s, labels, i + 1, labels[i].id, m);
      FailedHaveNoEntry(After(s, labels), m, labels[i].id);
    }
  }

  lemma FailedHaveNoEntry(s: System, m: map<string, Bytes>, id: nat)
    requires Inv(s, m) && id in s.processes && s.processes[id].phase == Returned(Failed)
    ensures s.processes[id].entry == None
  {
    assert EntryMatches(s.log, id, s.processes[id]);
    if s.processes[id].entry.Some? {
      LegalAnswersNeverFail(m, s.log, s.processes[id].entry.value);
    }
  }

  /** What a successful save publishes: the whole body, with the mode it read or the default one. */
  lemma PublishedFileIsComplete(s: System, id: nat)
    requires TreeInv(s) && Enabled(s, Publish(id))
    ensures
      var p, t := s.processes[id], Next(s, Publish(id));
      t.processes[id].phase.response == Saved ==>
        && p.op.key in t.tree.objects && t.tree.objects[p.op.key] == p.phase.inode
        && t.tree.inodes[p.phase.inode] == Inode(p.op.body, p.phase.mode)
  {
    assert WritesPrivately(s.tree, s.processes[id]);
  }
}
