/**
 Save, Delete, Exists and GetOrNil of the filesystem backend as concurrent step systems.
 Every system call is a step, every step may fail, and a context may be cancelled before
 publishing. log and the linearization data in each process are auxiliary.
 */
module PublishProtocol {
  import opened Wrappers
  import opened FileTree
  import opened ObjectSpec

  /** What the temporary file still needs before it may be published. */
  datatype Stage = Chmodding | Copying | Syncing | Closing | Rechecking | Publishing

  datatype Phase =
    | Begin
    | ReadingMode
    | Creating(found: Option<nat>)
    | Writing(temp: nat, inode: nat, mode: nat, stage: Stage)
    | Cleaning(temp: nat, response: Response)
    | Removing
    | Returned(response: Response)

  /**
   invoked and returned are log lengths at those moments, entry is the index of the
   process's own log entry, and handle is the inode a reader has open.
   */
  datatype Process = Process(
    op: Op, phase: Phase, invoked: nat, entry: Option<nat>, returned: Option<nat>, handle: Option<nat>)

  /** owners remembers who drew which temporary name; a drawn name is never drawn again. */
  datatype System = System(tree: Tree, processes: map<nat, Process>, owners: map<nat, nat>, log: seq<Entry>)

  datatype Label =
    | Invoke(id: nat, op: Op)
    | Fail(id: nat)
    | Prepare(id: nat)
    | ReadMode(id: nat)
    | Create(id: nat, temp: nat, inode: nat)
    | SetMode(id: nat)
    | Copy(id: nat, count: nat)
    | CopyEnds(id: nat)
    | Sync(id: nat)
    | Close(id: nat)
    | Recheck(id: nat)
    | Publish(id: nat)
    | Clean(id: nat)
    | StatThenRemove(id: nat)
    | Remove(id: nat)
    | Look(id: nat)
    | OpenFile(id: nat)

  function Initial(tree: Tree): System {
    System(tree, map[], map[], [])
  }

  predicate AtStage(p: Process, stage: Stage) {
    p.phase.Writing? && p.phase.stage == stage
  }

  predicate Enabled(s: System, l: Label) {
    if l.Invoke? then l.id !in s.processes
    else
      l.id in s.processes &&
      var p := s.processes[l.id];
      match l
      case Fail(_) => !p.phase.Cleaning? && !p.phase.Returned?
      case Prepare(_) => p.phase.Begin? && p.op.Save?
      case ReadMode(_) => p.phase.ReadingMode?
      case Create(_, temp, inode) =>
        p.phase.Creating? && temp !in s.tree.temporaries && temp !in s.owners && inode !in s.tree.inodes
      case SetMode(_) => AtStage(p, Chmodding) && p.phase.inode in s.tree.inodes
      case Copy(_, count) =>
        AtStage(p, Copying) && p.op.Save? && p.phase.inode in s.tree.inodes
        && 0 < count && |s.tree.inodes[p.phase.inode].bytes| + count <= |p.op.body|
      case CopyEnds(_) =>
        AtStage(p, Copying) && p.op.Save? && p.phase.inode in s.tree.inodes
        && |s.tree.inodes[p.phase.inode].bytes| == |p.op.body|
      case Sync(_) => AtStage(p, Syncing)
      case Close(_) => AtStage(p, Closing)
      case Recheck(_) => AtStage(p, Rechecking)
      case Publish(_) => AtStage(p, Publishing) && p.op.Save? && p.phase.temp in s.tree.temporaries
      case Clean(_) => p.phase.Cleaning?
      case StatThenRemove(_) => p.phase.Begin? && p.op.Delete?
      case Remove(_) => p.phase.Removing? && p.op.Delete?
      case Look(_) => p.phase.Begin? && p.op.Exists?
      case OpenFile(_) =>
        && p.phase.Begin? && p.op.Open?
        && (p.op.key in s.tree.objects ==> s.tree.objects[p.op.key] in s.tree.inodes)
  }

  function Move(s: System, id: nat, phase: Phase): System
    requires id in s.processes
  {
    var p := s.processes[id];
    var returned := if phase.Returned? then Some(|s.log|) else p.returned;
    s.(processes := s.processes[id := p.(phase := phase, returned := returned)])
  }

  /** The step at which the operation takes effect: it is recorded with its answer. */
  function Linearize(s: System, id: nat, response: Response): System
    requires id in s.processes
  {
    var p := s.processes[id];
    s.(log := s.log + [Entry(id, p.op, response)], processes := s.processes[id := p.(entry := Some(|s.log|))])
  }

  function Answer(s: System, id: nat, response: Response): System
    requires id in s.processes
  {
    Move(Linearize(s, id, response), id, Returned(response))
  }

  /** Rename over the name when overwriting; otherwise link, which refuses a taken name. */
  function PublishFile(s: System, id: nat): System
    requires id in s.processes && AtStage(s.processes[id], Publishing) && s.processes[id].op.Save?
    requires s.processes[id].phase.temp in s.tree.temporaries
  {
    var p := s.processes[id];
    var temp := p.phase.temp;
    if p.op.overwrite then
      Move(Linearize(s, id, Saved), id, Cleaning(temp, Saved)).(tree := Rename(s.tree, temp, p.op.key))
    else if p.op.key in s.tree.objects then
      Move(Linearize(s, id, AlreadyExists), id, Cleaning(temp, AlreadyExists))
    else
      Move(Linearize(s, id, Saved), id, Cleaning(temp, Saved)).(tree := Link(s.tree, temp, p.op.key))
  }

  function OpenObject(s: System, id: nat): System
    requires id in s.processes && s.processes[id].op.Open?
    requires s.processes[id].op.key in s.tree.objects ==> s.tree.objects[s.processes[id].op.key] in s.tree.inodes
  {
    var key := s.processes[id].op.key;
    if key in s.tree.objects then
      var inode := s.tree.objects[key];
      var t := Answer(s, id, Opened(Some(s.tree.inodes[inode].bytes)));
      t.(processes := t.processes[id := t.processes[id].(handle := Some(inode))])
    else Answer(s, id, Opened(None))
  }

  function Next(s: System, l: Label): System
    requires Enabled(s, l)
  {
    if l.Invoke? then
      s.(processes := s.processes[l.id := Process(l.op, Begin, |s.log|, None, None, None)])
    else
      var id := l.id;
      var p := s.processes[id];
      match l
      case Fail(_) => Move(s, id, if p.phase.Writing? then Cleaning(p.phase.temp, Failed) else Returned(Failed))
      case Prepare(_) => Move(s, id, if p.op.overwrite then ReadingMode else Creating(None))
      case ReadMode(_) =>
        var key := p.op.key;
        var known := key in s.tree.objects && s.tree.objects[key] in s.tree.inodes;
        Move(s, id, Creating(if known then Some(s.tree.inodes[s.tree.objects[key]].mode) else None))
      case Create(_, temp, inode) =>
        var next :=
          if p.phase.found.Some? then Writing(temp, inode, p.phase.found.value, Chmodding)
          else Writing(temp, inode, CREATE_MODE, Copying);
        Move(s, id, next).(tree := CreateExclusive(s.tree, temp, inode), owners := s.owners[temp := id])
      case SetMode(_) =>
        Move(s, id, p.phase.(stage := Copying)).(tree := Chmod(s.tree, p.phase.inode, p.phase.mode))
      case Copy(_, count) =>
        var written := |s.tree.inodes[p.phase.inode].bytes|;
        s.(tree := Append(s.tree, p.phase.inode, p.op.body[written..written + count]))
      case CopyEnds(_) => Move(s, id, p.phase.(stage := Syncing))
      case Sync(_) => Move(s, id, p.phase.(stage := Closing))
      case Close(_) => Move(s, id, p.phase.(stage := Rechecking))
      case Recheck(_) => Move(s, id, p.phase.(stage := Publishing))
      case Publish(_) => PublishFile(s, id)
      case Clean(_) => Move(s, id, Returned(p.phase.response)).(tree := UnlinkTemporary(s.tree, p.phase.temp))
      case StatThenRemove(_) =>
        if p.op.key in s.tree.objects then Move(s, id, Removing) else Answer(s, id, Removed(false))
      case Remove(_) =>
        Answer(s, id, Removed(p.op.key in s.tree.objects)).(tree := UnlinkObject(s.tree, p.op.key))
      case Look(_) => Answer(s, id, Present(p.op.key in s.tree.objects))
      case OpenFile(_) => OpenObject(s, id)
  }

  predicate Step(states: seq<System>, labels: seq<Label>, i: nat) {
    && i < |labels| && i + 1 < |states|
    && Enabled(states[i], labels[i]) && states[i + 1] == Next(states[i], labels[i])
  }

  /** The states a run goes through, from a root on which nothing is under way. */
  predicate Path(tree: Tree, states: seq<System>, labels: seq<Label>) {
    && |states| == |labels| + 1 && states[0] == Initial(tree)
    && forall i {:trigger Step(states, labels, i)} :: 0 <= i < |labels| ==> Step(states, labels, i)
  }

  predicate Executable(s: System, labels: seq<Label>)
    decreases |labels|, 0
  {
    labels == [] ||
    var front := labels[..|labels| - 1];
    Executable(s, front) && Enabled(After(s, front), labels[|labels| - 1])
  }

  function After(s: System, labels: seq<Label>): System
    requires Executable(s, labels)
    decreases |labels|, 1
  {
    if labels == [] then s else Next(After(s, labels[..|labels| - 1]), labels[|labels| - 1])
  }
}
