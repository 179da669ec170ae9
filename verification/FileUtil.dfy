/**
 fileutil.WriteFile over a file system in which any chosen set of calls fails: stream
 into a temporary file, sync, close, rename into place, and clean up whatever happened.
 */
module FileUtil {
  import opened Wrappers
  import opened FileTree

  /** The calls that can fail. */
  datatype Call =
    | MakeDirectory | Stat | OpenFile | ChangeMode | ReadStream | WriteChunk | SyncFile | CloseFile
    | RenameFile | LinkFile | RemoveFile

  datatype IOError = IOError(call: Call)

  /** A stream of bytes with a position; reads return what they like of what is left, or fail. */
  class Reader {
    const data: Bytes
    const faulty: bool
    var position: nat

    predicate Valid()
      reads this
    {
      position <= |data|
    }

    function Rest(): Bytes
      reads this
    {
      if position <= |data| then data[position..] else []
    }

    constructor (data: Bytes, faulty: bool)
      ensures Valid() && this.data == data && this.faulty == faulty && position == 0
    {
      this.data := data;
      this.faulty := faulty;
      position := 0;
    }

    /** Some bytes, or nothing at the end of the stream; only a faulty stream ends in an error. */
    method Read() returns (r: Result<Bytes, IOError>)
      requires Valid()
      modifies `position
      ensures Valid()
      ensures r.Err? ==> r.error == IOError(ReadStream) && faulty && position == old(position)
      ensures r.Ok? ==> r.value + Rest() == old(Rest())
      ensures r.Ok? ==> (r.value == [] <==> old(Rest()) == [])
    {
      var fails: bool := *;
      if faulty && fails {
        return Err(IOError(ReadStream));
      }
      if position == |data| {
        return Ok([]);
      }
      var count: nat :| 0 < count <= |data| - position;
      var chunk := data[position..position + count];
      position := position + count;
      return Ok(chunk);
    }
  }

  /** The calls of package os that the filesystem code makes; the faulty ones fail, a faulty write at any chunk. */
  class FileSystem {
    const faulty: set<Call>
    var tree: Tree

    constructor (tree: Tree, faulty: set<Call>)
      ensures this.tree == tree && this.faulty == faulty
    {
      this.tree := tree;
      this.faulty := faulty;
    }

    method Attempt(call: Call) returns (ok: bool)
      ensures ok <==> call !in faulty
    {
      ok := call !in faulty;
    }

    method OpenExclusive(temp: nat, inode: nat) returns (ok: bool)
      requires temp !in tree.temporaries && inode !in tree.inodes
      modifies this
      ensures ok <==> OpenFile !in faulty
      ensures tree == if ok then CreateExclusive(old(tree), temp, inode) else old(tree)
    {
      ok := Attempt(OpenFile);
      if ok {
        tree := CreateExclusive(tree, temp, inode);
      }
    }

    /** Writes the chunk, or a part of it and fails. */
    method Write(inode: nat, chunk: Bytes) returns (ok: bool)
      requires inode in tree.inodes
      modifies this
      ensures ok ==> tree == Append(old(tree), inode, chunk)
      ensures !ok ==> WriteChunk in faulty && exists part: Bytes :: tree == Append(old(tree), inode, part)
    {
      var survives: bool := *;
      ok := survives || WriteChunk !in faulty;
      if ok {
        tree := Append(tree, inode, chunk);
      } else {
        var count: nat :| count <= |chunk|;
        ghost var was := tree;
        tree := Append(tree, inode, chunk[..count]);
        assert tree == Append(was, inode, chunk[..count]);
      }
    }

    method RenameOnto(temp: nat, destination: string) returns (ok: bool)
      requires temp in tree.temporaries
      modifies this
      ensures ok <==> RenameFile !in faulty
      ensures tree == if ok then Rename(old(tree), temp, destination) else old(tree)
    {
      ok := Attempt(RenameFile);
      if ok {
        tree := Rename(tree, temp, destination);
      }
    }

    method ChmodFile(inode: nat, mode: nat) returns (ok: bool)
      requires inode in tree.inodes
      modifies this
      ensures ok <==> ChangeMode !in faulty
      ensures tree == if ok then Chmod(old(tree), inode, mode) else old(tree)
    {
      ok := Attempt(ChangeMode);
      if ok {
        tree := Chmod(tree, inode, mode);
      }
    }

    /** link(): refuses a taken name, and fails otherwise only when faulty. */
    method LinkOnto(temp: nat, key: string) returns (ok: bool, taken: bool)
      requires temp in tree.temporaries
      modifies this
      ensures taken ==> !ok && key in tree.objects
      ensures ok ==> key !in old(tree).objects
      ensures !ok && !taken <==> LinkFile in faulty
      ensures tree == if ok then Link(old(tree), temp, key) else old(tree)
    {
      ok := Attempt(LinkFile);
      taken := ok && key in tree.objects;
      ok := ok && !taken;
      if ok {
        tree := Link(tree, temp, key);
      }
    }

    /** unlink() of an object name. */
    method RemoveObject(key: string) returns (ok: bool)
      modifies this
      ensures ok <==> RemoveFile !in faulty
      ensures tree == if ok then UnlinkObject(old(tree), key) else old(tree)
    {
      ok := Attempt(RemoveFile);
      if ok {
        tree := UnlinkObject(tree, key);
      }
    }

    method Remove(temp: nat)
      modifies this
      ensures tree == UnlinkTemporary(old(tree), temp)
    {
      tree := UnlinkTemporary(tree, temp);
    }
  }

  /** The tree with the private file inode appearing or growing, and nothing else. */
  predicate OnlyPrivateChange(a: Tree, b: Tree, inode: nat, mode: nat) {
    && b.objects == a.objects
    && inode in b.inodes && b.inodes[inode].mode == mode
    && a.inodes.Keys <= b.inodes.Keys
    && forall other :: other in a.inodes ==> b.inodes[other] == a.inodes[other]
  }

  lemma AppendIsPrivate(a: Tree, b: Tree, inode: nat, mode: nat, chunk: Bytes)
    requires inode !in a.inodes && OnlyPrivateChange(a, b, inode, mode)
    ensures OnlyPrivateChange(a, Append(b, inode, chunk), inode, mode)
    ensures Append(b, inode, chunk).temporaries == b.temporaries
    ensures Append(b, inode, chunk).inodes[inode].bytes == b.inodes[inode].bytes + chunk
  {
  }

  predicate CopyMayFail(fs: FileSystem, reader: Reader) {
    reader.faulty || WriteChunk in fs.faulty
  }

  /** An error of the copy is the stream's or a write's. */
  predicate CopyAccounts(fs: FileSystem, reader: Reader, err: Option<IOError>) {
    err.Some? ==>
      || (err.value.call == ReadStream && reader.faulty)
      || (err.value.call == WriteChunk && WriteChunk in fs.faulty)
  }

  /** One read and one write of io.Copy. */
  method CopyChunk(fs: FileSystem, inode: nat, reader: Reader, ghost before: Tree, ghost mode: nat)
    returns (err: Option<IOError>, ended: bool)
    requires reader.Valid() && inode !in before.inodes && OnlyPrivateChange(before, fs.tree, inode, mode)
    modifies fs, reader`position
    ensures reader.Valid() && OnlyPrivateChange(before, fs.tree, inode, mode)
    ensures fs.tree.temporaries == old(fs.tree.temporaries)
    ensures err.None? ==>
      fs.tree.inodes[inode].bytes + reader.Rest() == old(fs.tree.inodes[inode].bytes + reader.Rest())
    ensures CopyAccounts(fs, reader, err)
    ensures err.None? ==> if ended then reader.Rest() == [] else |reader.Rest()| < |old(reader.Rest())|
  {
    ghost var tree := fs.tree;
    var r := reader.Read();
    if r.Err? {
      return Some(r.error), false;
    }
    if r.value == [] {
      return None, true;
    }
    var ok := fs.Write(inode, r.value);
    err := if ok then None else Some(IOError(WriteChunk));
    ended := false;
    ghost var part: Bytes := r.value;
    if !ok {
      part :| fs.tree == Append(tree, inode, part);
    }
    AppendIsPrivate(before, tree, inode, mode, part);
    assert (tree.inodes[inode].bytes + r.value) + reader.Rest() == tree.inodes[inode].bytes + (r.value + reader.Rest());
  }

  /** io.Copy: reads until the end of the stream and writes every chunk. */
  method CopyAll(fs: FileSystem, inode: nat, reader: Reader, ghost before: Tree, ghost mode: nat)
    returns (err: Option<IOError>)
    requires reader.Valid() && inode !in before.inodes
    requires OnlyPrivateChange(before, fs.tree, inode, mode) && fs.tree.inodes[inode].bytes == []
    modifies fs, reader`position
    ensures reader.Valid()
    ensures OnlyPrivateChange(before, fs.tree, inode, mode)
    ensures fs.tree.temporaries == old(fs.tree.temporaries)
    ensures CopyAccounts(fs, reader, err)
    ensures err.None? ==> reader.Rest() == [] && fs.tree.inodes[inode].bytes == old(reader.Rest())
  {
    var ended := false;
    while !ended
      invariant reader.Valid() && OnlyPrivateChange(before, fs.tree, inode, mode)
      invariant fs.tree.temporaries == old(fs.tree.temporaries)
      invariant fs.tree.inodes[inode].bytes + reader.Rest() == old(reader.Rest())
      invariant ended ==> reader.Rest() == []
      decreases |reader.Rest()|, !ended
    {
      err, ended := CopyChunk(fs, inode, reader, before, mode);
      if err.Some? {
        return;
      }
    }
    err := None;
  }

  /** Every object whose key is not excepted keeps its inode, and that inode its bytes and mode. */
  predicate SameObjects(a: Tree, b: Tree, except: set<string>) {
    forall key :: key in a.objects && key !in except && a.objects[key] in a.inodes ==>
      && key in b.objects && b.objects[key] == a.objects[key]
      && a.objects[key] in b.inodes && b.inodes[a.objects[key]] == a.inodes[a.objects[key]]
  }

  /** What happened between the open and the cleanup: the file was published, or only its own inode changed. */
  predicate Published(a: Tree, b: Tree, destination: string, temp: nat, inode: nat, done: bool) {
    && WellFormed(b)
    && b.temporaries - {temp} == a.temporaries - {temp}
    && b.objects == (if done then a.objects[destination := inode] else a.objects)
    && (done ==> inode in b.inodes)
    && forall other :: other in a.inodes && other != inode ==> other in b.inodes && b.inodes[other] == a.inodes[other]
  }

  lemma PutThenRemove(m: map<nat, nat>, key: nat, value: nat)
    requires key !in m
    ensures m[key := value] - {key} == m
  {
  }

  lemma OthersSurvive(a: Tree, b: Tree, destination: string, temp: nat, inode: nat, done: bool)
    requires WellFormed(a) && temp !in a.temporaries && inode !in a.inodes
    requires Published(CreateExclusive(a, temp, inode), b, destination, temp, inode, done)
    ensures SameObjects(a, UnlinkTemporary(b, temp), if done then {destination} else {})
  {
    forall other | other in a.inodes
      ensures other in b.inodes && b.inodes[other] == a.inodes[other]
    {
      assert other in CreateExclusive(a, temp, inode).inodes;
    }
  }

  lemma PublishedContents(a: Tree, b: Tree, destination: string, inode: nat)
    requires WellFormed(a) && WellFormed(b)
    requires inode in b.inodes && b.objects == a.objects[destination := inode]
    requires SameObjects(a, b, {destination})
    ensures Contents(b) == Contents(a)[destination := b.inodes[inode].bytes]
  {
  }

  lemma CleanupCompletes(a: Tree, b: Tree, destination: string, temp: nat, inode: nat, done: bool)
    requires WellFormed(a) && temp !in a.temporaries && inode !in a.inodes
    requires Published(CreateExclusive(a, temp, inode), b, destination, temp, inode, done)
    ensures
      var z := UnlinkTemporary(b, temp);
      && WellFormed(z) && z.temporaries == a.temporaries
      && SameObjects(a, z, if done then {destination} else {})
      && (done ==> Contents(z) == Contents(a)[destination := b.inodes[inode].bytes])
      && (!done ==> z.objects == a.objects)
  {
    var z := UnlinkTemporary(b, temp);
    PutThenRemove(a.temporaries, temp, inode);
    OthersSurvive(a, b, destination, temp, inode, done);
    if done {
      PublishedContents(a, z, destination, inode);
    }
  }

  /** The calls of WriteFile that come after the whole stream has been written. */
  const AFTER_COPY: set<Call> := {SyncFile, CloseFile, RenameFile}

  /**
   Success means that no call was faulty; an error names a faulty one, and copied says
   whether it came after the copy.
   */
  predicate Accounts(fs: FileSystem, reader: Reader, copied: bool, err: Option<IOError>) {
    && (err.None? ==> copied && fs.faulty * ({MakeDirectory, OpenFile} + AFTER_COPY) == {})
    && (err.Some? ==>
          && (copied <==> err.value.call in AFTER_COPY)
          && (CopyAccounts(fs, reader, err) || err.value.call in fs.faulty * ({MakeDirectory, OpenFile} + AFTER_COPY)))
  }

  /**
   On success the destination holds the full stream. On any error, which only a faulty
   call causes, the destination, like every other object, keeps its inode, bytes and mode.
   Either way no temporary name is left.
   */
  method WriteFile(fs: FileSystem, destination: string, reader: Reader, temp: nat, inode: nat)
    returns (copied: bool, err: Option<IOError>)
    requires WellFormed(fs.tree) && reader.Valid()
    requires temp !in fs.tree.temporaries && inode !in fs.tree.inodes
    modifies fs, reader`position
    ensures WellFormed(fs.tree)
    ensures fs.tree.temporaries == old(fs.tree.temporaries)
    ensures Accounts(fs, reader, copied, err)
    ensures err.None? ==> Contents(fs.tree) == old(Contents(fs.tree))[destination := old(reader.Rest())]
    ensures err.Some? ==> fs.tree.objects == old(fs.tree.objects)
    ensures SameObjects(old(fs.tree), fs.tree, if err.None? then {destination} else {})
    ensures copied ==> reader.Rest() == []
  {
    var ok := fs.Attempt(MakeDirectory);
    if !ok {
      return false, Some(IOError(MakeDirectory));
    }
    ghost var before := fs.tree;
    ok := fs.OpenExclusive(temp, inode);
    if !ok {
      return false, Some(IOError(OpenFile));
    }
    copied, err := FillAndPublish(fs, destination, reader, temp, inode);
    CleanupCompletes(before, fs.tree, destination, temp, inode, err.None?);
    fs.Remove(temp);
  }

  /** Everything between the open and the deferred cleanup. */
  method FillAndPublish(fs: FileSystem, destination: string, reader: Reader, temp: nat, inode: nat)
    returns (copied: bool, err: Option<IOError>)
    requires WellFormed(fs.tree) && reader.Valid()
    requires temp in fs.tree.temporaries && fs.tree.temporaries[temp] == inode && inode !in fs.tree.objects.Values
    requires inode in fs.tree.inodes && fs.tree.inodes[inode] == Inode([], CREATE_MODE)
    modifies fs, reader`position
    ensures Published(old(fs.tree), fs.tree, destination, temp, inode, err.None?)
    ensures MakeDirectory !in fs.faulty && OpenFile !in fs.faulty ==> Accounts(fs, reader, copied, err)
    ensures err.Some? ==> err.value.call !in {MakeDirectory, OpenFile}
    ensures err.None? ==> fs.tree.inodes[inode].bytes == old(reader.Rest())
    ensures copied ==> reader.Rest() == []
  {
    ghost var before := fs.tree.(inodes := fs.tree.inodes - {inode});
    err := CopyAll(fs, inode, reader, before, CREATE_MODE);
    if err.Some? {
      return false, err;
    }
    var ok := fs.Attempt(SyncFile);
    if !ok {
      return true, Some(IOError(SyncFile));
    }
    ok := fs.Attempt(CloseFile);
    if !ok {
      return true, Some(IOError(CloseFile));
    }
    ok := fs.RenameOnto(temp, destination);
    if !ok {
      return true, Some(IOError(RenameFile));
    }
    return true, None;
  }
}
