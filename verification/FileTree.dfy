/**
 The directory tree under one root as POSIX.1 describes it: names refer to inodes, and
 link(), rename() and unlink() change the names atomically (IEEE Std 1003.1-2017, System
 Interfaces, chapter 3). Object names and temporary names never coincide, and an inode
 outlives its names for the readers that have it open.
 */
module FileTree {
  type Bytes = seq<bv8>

  datatype Inode = Inode(bytes: Bytes, mode: nat)

  datatype Tree = Tree(objects: map<string, nat>, temporaries: map<nat, nat>, inodes: map<nat, Inode>)

  /** The permission bits of a newly created file. */
  const CREATE_MODE: nat := 0x1A4 // 0o644

  predicate WellFormed(t: Tree) {
    && (forall key :: key in t.objects ==> t.objects[key] in t.inodes)
    && (forall temp :: temp in t.temporaries ==> t.temporaries[temp] in t.inodes)
  }

  /** What the keys hold, as a map from key to bytes. */
  function Contents(t: Tree): map<string, Bytes>
    requires WellFormed(t)
  {
    map key | key in t.objects :: t.inodes[t.objects[key]].bytes
  }

  /** open(O_CREAT|O_EXCL): a new empty file under a name that was free. */
  function CreateExclusive(t: Tree, temp: nat, inode: nat): Tree
    requires temp !in t.temporaries && inode !in t.inodes
  {
    t.(temporaries := t.temporaries[temp := inode], inodes := t.inodes[inode := Inode([], CREATE_MODE)])
  }

  function Append(t: Tree, inode: nat, chunk: Bytes): Tree
    requires inode in t.inodes
  {
    t.(inodes := t.inodes[inode := t.inodes[inode].(bytes := t.inodes[inode].bytes + chunk)])
  }

  function Chmod(t: Tree, inode: nat, mode: nat): Tree
    requires inode in t.inodes
  {
    t.(inodes := t.inodes[inode := t.inodes[inode].(mode := mode)])
  }

  /** link(): fails with EEXIST when the new name exists. */
  function Link(t: Tree, temp: nat, key: string): Tree
    requires temp in t.temporaries && key !in t.objects
  {
    t.(objects := t.objects[key := t.temporaries[temp]])
  }

  /** rename(): replaces the new name; two names of one file are left alone. */
  function Rename(t: Tree, temp: nat, key: string): Tree
    requires temp in t.temporaries
  {
    if key in t.objects && t.objects[key] == t.temporaries[temp] then t
    else t.(objects := t.objects[key := t.temporaries[temp]], temporaries := t.temporaries - {temp})
  }

  function UnlinkObject(t: Tree, key: string): Tree {
    t.(objects := t.objects - {key})
  }

  function UnlinkTemporary(t: Tree, temp: nat): Tree {
    t.(temporaries := t.temporaries - {temp})
  }

  lemma LinkContents(t: Tree, temp: nat, key: string)
    requires WellFormed(t) && temp in t.temporaries && key !in t.objects
    ensures WellFormed(Link(t, temp, key))
    ensures Contents(Link(t, temp, key)) == Contents(t)[key := t.inodes[t.temporaries[temp]].bytes]
  {
  }

  lemma RenameContents(t: Tree, temp: nat, key: string)
    requires WellFormed(t) && temp in t.temporaries
    ensures WellFormed(Rename(t, temp, key))
    ensures Contents(Rename(t, temp, key)) == Contents(t)[key := t.inodes[t.temporaries[temp]].bytes]
  {
  }

  lemma UnlinkContents(t: Tree, key: string)
    requires WellFormed(t)
    ensures WellFormed(UnlinkObject(t, key))
    ensures Contents(UnlinkObject(t, key)) == Contents(t) - {key}
  {
  }
}
