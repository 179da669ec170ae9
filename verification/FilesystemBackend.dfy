/**
 Save and Delete of the filesystem backend as uninterrupted calls on a file system in
 which any chosen set of calls fails. PublishProtocol interleaves the same steps.
 */
module FilesystemBackend {
  import opened Wrappers
  import opened FileTree
  import opened ObjectSpec
  import opened FileUtil

  /** Whether the context is done at the two moments a save looks at it. */
  datatype Context = Context(doneAtStart: bool, doneBeforePublish: bool)

  /** The calls every save makes on its way to success. */
  function NeededCalls(overwrite: bool): set<Call> {
    {MakeDirectory, OpenFile, SyncFile, CloseFile} + if overwrite then {Stat, RenameFile} else {LinkFile}
  }

  predicate Done(ctx: Context) {
    ctx.doneAtStart || ctx.doneBeforePublish
  }

  /** Enough for a save to fail: a done context, or a fault in a call that every save makes. */
  ghost predicate SaveMustFail(ctx: Context, fs: FileSystem, overwrite: bool) {
    Done(ctx) || exists call :: call in fs.faulty && call in NeededCalls(overwrite)
  }

  /** Without one of these no save fails; copying and changing the mode are not always reached. */
  ghost predicate SaveMayFail(ctx: Context, fs: FileSystem, body: Reader, overwrite: bool) {
    SaveMustFail(ctx, fs, overwrite) || CopyMayFail(fs, body) || (overwrite && ChangeMode in fs.faulty)
  }

  /**
   The answer is the atomic save's, or a failure with a cause; the keys hold what the
   atomic save leaves, or what they held before. A saved object keeps the permissions of
   the one it replaces, all other objects are untouched, and no temporary name is left.
   */
  method SaveObject(ctx: Context, fs: FileSystem, key: string, body: Reader, overwrite: bool, temp: nat, inode: nat)
    returns (r: Response)
    requires WellFormed(fs.tree) && body.Valid()
    requires temp !in fs.tree.temporaries && inode !in fs.tree.inodes
    modifies fs, body`position
    ensures WellFormed(fs.tree) && fs.tree.temporaries == old(fs.tree.temporaries)
    ensures SaveMustFail(ctx, fs, overwrite) ==> r == Failed
    ensures r == Failed ==> SaveMayFail(ctx, fs, body, overwrite)
    ensures r == Failed || Answers(old(Contents(fs.tree)), Save(key, old(body.Rest()), overwrite), r)
    ensures Contents(fs.tree) == Effect(old(Contents(fs.tree)), Save(key, old(body.Rest()), overwrite), r)
    ensures SameObjects(old(fs.tree), fs.tree, if r == Saved then {key} else {})
    ensures r in {Saved, AlreadyExists, Failed}
    ensures r == Saved ==> key in fs.tree.objects && fs.tree.inodes[fs.tree.objects[key]].bytes == old(body.Rest())
    ensures r == Saved && overwrite && key in old(fs.tree.objects) ==>
      fs.tree.inodes[fs.tree.objects[key]].mode == old(fs.tree.inodes[fs.tree.objects[key]].mode)
    ensures r == Saved && !(overwrite && key in old(fs.tree.objects)) ==>
      fs.tree.inodes[fs.tree.objects[key]].mode == 0x1A4
    ensures r == AlreadyExists ==> !overwrite && key in old(fs.tree.objects)
    ensures r == Saved && !overwrite ==> key !in old(fs.tree.objects)
  {
    if ctx.doneAtStart {
      return Failed;
    }
    var ok := fs.Attempt(MakeDirectory);
    if !ok {
      return Failed;
    }
    var mode := None;
    if overwrite {
      ok := fs.Attempt(Stat);
      if !ok {
        return Failed;
      }
      if key in fs.tree.objects {
        mode := Some(fs.tree.inodes[fs.tree.objects[key]].mode);
      }
    }
    ghost var before := fs.tree;
    ok := fs.OpenExclusive(temp, inode);
    if !ok {
      return Failed;
    }
    r := WriteAndPublish(ctx, fs, key, body, overwrite, mode, temp, inode);
    CleanupCompletes(before, fs.tree, key, temp, inode, r == Saved);
    fs.Remove(temp);
    if r != Saved {
      SameContents(before, fs.tree);
    }
  }

  lemma SameContents(a: Tree, b: Tree)
    requires WellFormed(a) && WellFormed(b) && b.objects == a.objects && SameObjects(a, b, {})
    ensures Contents(a) == Contents(b)
  {
  }

  /** The mode and the body go into the temporary file, which is synced and closed. */
  method FillTemporary(fs: FileSystem, body: Reader, mode: Option<nat>, inode: nat, ghost before: Tree)
    returns (ok: bool)
    requires body.Valid() && inode !in before.inodes && inode in fs.tree.inodes
    requires fs.tree.inodes[inode] == Inode([], CREATE_MODE) && OnlyPrivateChange(before, fs.tree, inode, CREATE_MODE)
    modifies fs, body`position
    ensures fs.tree.temporaries == old(fs.tree.temporaries)
    ensures inode in fs.tree.inodes && OnlyPrivateChange(before, fs.tree, inode, fs.tree.inodes[inode].mode)
    ensures ok ==> fs.tree.inodes[inode] == Inode(old(body.Rest()), if mode.Some? then mode.value else CREATE_MODE)
    ensures SyncFile in fs.faulty || CloseFile in fs.faulty ==> !ok
    ensures !ok ==>
      || SyncFile in fs.faulty || CloseFile in fs.faulty || CopyMayFail(fs, body)
      || (mode.Some? && ChangeMode in fs.faulty)
  {
    if mode.Some? {
      var changed := fs.ChmodFile(inode, mode.value);
      if !changed {
        return false;
      }
    }
    var err := CopyAll(fs, inode, body, before, if mode.Some? then mode.value else CREATE_MODE);
    if err.Some? {
      return false;
    }
    ok := fs.Attempt(SyncFile);
    if ok {
      ok := fs.Attempt(CloseFile);
    }
  }

  /** From the fresh temporary file to the rename or link. */
  method WriteAndPublish(
    ctx: Context, fs: FileSystem, key: string, body: Reader, overwrite: bool, mode: Option<nat>, temp: nat, inode: nat
  ) returns (r: Response)
    requires WellFormed(fs.tree) && body.Valid()
    requires temp in fs.tree.temporaries && fs.tree.temporaries[temp] == inode && inode !in fs.tree.objects.Values
    requires inode in fs.tree.inodes && fs.tree.inodes[inode] == Inode([], CREATE_MODE)
    requires mode.Some? ==> overwrite
    requires !ctx.doneAtStart && MakeDirectory !in fs.faulty && OpenFile !in fs.faulty
    requires overwrite ==> Stat !in fs.faulty
    modifies fs, body`position
    ensures SaveMustFail(ctx, fs, overwrite) ==> r == Failed
    ensures r == Failed ==> SaveMayFail(ctx, fs, body, overwrite)
    ensures r in {Saved, AlreadyExists, Failed}
    ensures Published(old(fs.tree), fs.tree, key, temp, inode, r == Saved)
    ensures r == Saved ==>
      fs.tree.inodes[inode] == Inode(old(body.Rest()), if mode.Some? then mode.value else CREATE_MODE)
    ensures r == Saved ==> overwrite || key !in old(fs.tree.objects)
    ensures r == AlreadyExists ==> !overwrite && key in old(fs.tree.objects)
  {
    ghost var before := fs.tree.(inodes := fs.tree.inodes - {inode});
    var ok := FillTemporary(fs, body, mode, inode, before);
    if !ok || ctx.doneBeforePublish {
      return Failed;
    }
    r := PublishTemporary(fs, key, overwrite, temp);
  }

  /** Rename when overwriting, link otherwise. */
  method PublishTemporary(fs: FileSystem, key: string, overwrite: bool, temp: nat) returns (r: Response)
    requires temp in fs.tree.temporaries
    modifies fs
    ensures r == Failed <==> (if overwrite then RenameFile else LinkFile) in fs.faulty
    ensures r in {Saved, AlreadyExists, Failed}
    ensures r == Saved ==> overwrite || key !in old(fs.tree.objects)
    ensures r == AlreadyExists ==> !overwrite && key in old(fs.tree.objects)
    ensures fs.tree ==
      if r != Saved then old(fs.tree)
      else if overwrite then Rename(old(fs.tree), temp, key)
      else Link(old(fs.tree), temp, key)
  {
    if overwrite {
      var renamed := fs.RenameOnto(temp, key);
      return if renamed then Saved else Failed;
    }
    var linked, taken := fs.LinkOnto(temp, key);
    return if linked then Saved else if taken then AlreadyExists else Failed;
  }

  /** Absent keys are reported as such; otherwise the name goes, or the call fails and nothing changes. */
  method DeleteObject(ctxDone: bool, fs: FileSystem, key: string) returns (r: Response)
    requires WellFormed(fs.tree)
    modifies fs
    ensures WellFormed(fs.tree) && fs.tree.temporaries == old(fs.tree.temporaries)
    ensures r == Failed <==> ctxDone || Stat in fs.faulty || (RemoveFile in fs.faulty && key in old(fs.tree.objects))
    ensures r == Failed || Answers(old(Contents(fs.tree)), Delete(key), r)
    ensures Contents(fs.tree) == Effect(old(Contents(fs.tree)), Delete(key), r)
    ensures SameObjects(old(fs.tree), fs.tree, {key})
  {
    if ctxDone {
      return Failed;
    }
    var ok := fs.Attempt(Stat);
    if !ok {
      return Failed;
    }
    if key !in fs.tree.objects {
      return Removed(false);
    }
    UnlinkContents(fs.tree, key);
    ok := fs.RemoveObject(key);
    return if ok then Removed(true) else Failed;
  }
}
