/** What the filesystem backend promises: an atomic map from keys to complete bodies. */
module ObjectSpec {
  import opened Wrappers
  import opened FileTree

  datatype Op =
    | Save(key: string, body: Bytes, overwrite: bool)
    | Delete(key: string)
    | Exists(key: string)
    | Open(key: string)

  datatype Response =
    | Saved
    | AlreadyExists
    | Removed(found: bool)
    | Present(found: bool)
    | Opened(body: Option<Bytes>)
    | Failed

  /** Whether the atomic operation may answer so in this state. Failures are never atomic answers. */
  predicate Answers(m: map<string, Bytes>, op: Op, r: Response) {
    match op
    case Save(key, _, overwrite) =>
      (r == Saved && (overwrite || key !in m)) || (r == AlreadyExists && !overwrite && key in m)
    case Delete(key) => r == Removed(key in m)
    case Exists(key) => r == Present(key in m)
    case Open(key) => r == Opened(if key in m then Some(m[key]) else None)
  }

  function Effect(m: map<string, Bytes>, op: Op, r: Response): map<string, Bytes> {
    if op.Save? && r == Saved then m[op.key := op.body]
    else if op.Delete? && r == Removed(true) then m - {op.key}
    else m
  }

  /** One atomic operation: who performed it, what it was, and what it answered. */
  datatype Entry = Entry(actor: nat, op: Op, response: Response)

  function Replay(m: map<string, Bytes>, log: seq<Entry>): map<string, Bytes> {
    if log == [] then m
    else Effect(Replay(m, log[..|log| - 1]), log[|log| - 1].op, log[|log| - 1].response)
  }

  predicate Legal(m: map<string, Bytes>, log: seq<Entry>) {
    log == [] ||
    var front, last := log[..|log| - 1], log[|log| - 1];
    Legal(m, front) && Answers(Replay(m, front), last.op, last.response)
  }

  lemma LogExtends(m: map<string, Bytes>, log: seq<Entry>, e: Entry)
    requires Legal(m, log) && Answers(Replay(m, log), e.op, e.response)
    ensures Legal(m, log + [e]) && Replay(m, log + [e]) == Effect(Replay(m, log), e.op, e.response)
  {
    assert (log + [e])[..|log|] == log;
  }

  /** What one entry of a legal history says about the map before and after it. */
  predicate ObeysTheRules(before: map<string, Bytes>, e: Entry, after: map<string, Bytes>) {
    match e.op
    case Save(key, body, overwrite) =>
      || (e.response == Saved && (overwrite || key !in before) && after == before[key := body])
      || (e.response == AlreadyExists && !overwrite && key in before && after == before)
    case Delete(key) => e.response == Removed(key in before) && after == before - {key}
    case Exists(key) => e.response == Present(key in before) && after == before
    case Open(key) =>
      && e.response == Opened(if key in before then Some(before[key]) else None)
      && after == before
  }

  lemma {:induction false} LegalHistoriesObeyTheRules(m: map<string, Bytes>, log: seq<Entry>, i: nat)
    requires Legal(m, log) && i < |log|
    ensures ObeysTheRules(Replay(m, log[..i]), log[i], Replay(m, log[..i + 1]))
  {
    if i == |log| - 1 {
      assert log[..i + 1] == log;
      var m' := Replay(m, log[..i]);
      assert log[i].op.Delete? && log[i].op.key !in m' ==> m' - {log[i].op.key} == m';
    } else {
      var front := log[..|log| - 1];
      assert front[..i] == log[..i] && front[..i + 1] == log[..i + 1];
      LegalHistoriesObeyTheRules(m, front, i);
    }
  }

  // ----- Conservation -----

  /** Saves that put a key where there was none: successful links, and renames onto an absent name. */
  function Creations(m: map<string, Bytes>, log: seq<Entry>, key: string): nat {
    if log == [] then 0
    else
      var front, e := log[..|log| - 1], log[|log| - 1];
      Creations(m, front, key)
        + if e.op.Save? && e.op.key == key && e.response == Saved && key !in Replay(m, front) then 1 else 0
  }

  function Removals(log: seq<Entry>, key: string): nat {
    if log == [] then 0
    else
      var e := log[|log| - 1];
      Removals(log[..|log| - 1], key) + if e.op == Delete(key) && e.response == Removed(true) then 1 else 0
  }

  function PresentCount(m: map<string, Bytes>, key: string): nat {
    if key in m then 1 else 0
  }

  lemma {:induction false} ConservationOfSaves(m: map<string, Bytes>, log: seq<Entry>, key: string)
    requires Legal(m, log)
    ensures Creations(m, log, key) - Removals(log, key) == PresentCount(Replay(m, log), key) - PresentCount(m, key)
  {
    if log != [] {
      ConservationOfSaves(m, log[..|log| - 1], key);
    }
  }

  predicate ExclusiveSave(e: Entry, key: string) {
    e.op.Save? && e.op.key == key && !e.op.overwrite && e.response == Saved
  }

  /** A key that was saved stays until it is removed. */
  lemma {:induction false} SavedKeysStay(m: map<string, Bytes>, log: seq<Entry>, i: nat, key: string)
    requires i < |log| && ExclusiveSave(log[i], key) && Removals(log, key) == 0
    ensures key in Replay(m, log)
  {
    if i < |log| - 1 {
      SavedKeysStay(m, log[..|log| - 1], i, key);
    }
  }

  /** Without removals, at most one exclusive save of a key succeeds. */
  lemma {:induction false} OneExclusiveSave(m: map<string, Bytes>, log: seq<Entry>, i: nat, j: nat, key: string)
    requires Legal(m, log) && i < j < |log|
    requires ExclusiveSave(log[i], key) && ExclusiveSave(log[j], key)
    ensures Removals(log, key) > 0
  {
    var front := log[..|log| - 1];
    if j < |log| - 1 {
      OneExclusiveSave(m, front, i, j, key);
    } else if Removals(log, key) == 0 {
      SavedKeysStay(m, front, i, key);
    }
  }
}
