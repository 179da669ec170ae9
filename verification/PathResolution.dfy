/**
 How the filesystem backend turns a root and a key into a path on Unix, and what that
 means for keys built by the default key builder.
 */
module PathResolution {
  import opened Wrappers
  import opened Lexical
  import opened KeyBuilding

  datatype PathError = RootRequired | InvalidKey(key: string) | NotRelative | EscapesRoot(key: string)

  function Resolve(root: string, key: string): Result<string, PathError> {
    if root == "" then Err(RootRequired)
    else if ".." in Fields(key, BOTH_SLASHES) then Err(InvalidKey(key))
    else
      var cleaned := Clean(key);
      if cleaned == "." || cleaned == ".." || Rooted(cleaned) || HasPrefix(cleaned, "../") then Err(InvalidKey(key))
      else
        var path := JoinPaths(root, cleaned);
        match Rel(root, path)
        case None => Err(NotRelative)
        case Some(relative) =>
          if relative == ".." || HasPrefix(relative, "../") || Rooted(relative) then Err(EscapesRoot(key)) else Ok(path)
  }

  /** The names in a key: its slash segments other than empty ones and dots. */
  function Segments(key: string): seq<string> {
    Names(Split(key, SLASH))
  }

  /** The keys that resolve: relative, with a name in them, and without parent segments. */
  predicate Acceptable(key: string) {
    ".." !in Fields(key, BOTH_SLASHES) && !Rooted(key) && Segments(key) != []
  }

  /** Two paths of which the second is the first or lies below it. */
  predicate SameOrInside(a: string, b: string) {
    Rooted(a) == Rooted(b) && Kept(a) <= Kept(b)
  }

  lemma NoParentSegments(key: string)
    requires ".." !in Fields(key, BOTH_SLASHES)
    ensures ".." !in Split(key, SLASH)
    ensures Kept(key) == Segments(key)
    ensures AreSegments(Segments(key))
    ensures forall i :: 0 <= i < |Segments(key)| ==> Segments(key)[i] != "." && Segments(key)[i] != ".."
  {
    if ".." in Split(key, SLASH) {
      SlashSegmentIsField(key, "..");
    }
    PushAllNames(Rooted(key), [], Split(key, SLASH));
    assert [] + Segments(key) == Segments(key);
    SplitPiecesAreFree(key, SLASH);
    forall i | 0 <= i < |Segments(key)|
      ensures Segments(key)[i] in Split(key, SLASH) && Segments(key)[i] != "" && Segments(key)[i] != "."
    {
      NamesKeep(Split(key, SLASH), Segments(key)[i]);
    }
  }

  lemma ClimbingPathsStartWithParent(path: string)
    requires HasPrefix(path, "../")
    ensures Split(path, SLASH)[0] == ".."
  {
    assert path == ".." + ['/'] + path[3..];
    SplitConcat("..", path[3..], '/', SLASH);
    SplitFree("..", SLASH);
  }

  /** Joined proper names look like no special path. */
  lemma JoinedNamesAreOrdinary(names: seq<string>)
    requires AreSegments(names) && names != []
    requires forall i :: 0 <= i < |names| ==> names[i] != "." && names[i] != ".."
    ensures Join(names) != "" && Join(names) != "." && Join(names) != ".."
    ensures !Rooted(Join(names)) && !HasPrefix(Join(names), "../")
  {
    SplitJoin(names);
    SplitFree(".", SLASH);
    SplitFree("..", SLASH);
    assert names[0] != "." && names[0] != "..";
    assert names[0][0] !in SLASH;
    if HasPrefix(Join(names), "../") {
      ClimbingPathsStartWithParent(Join(names));
    }
  }

  /** Joining the root and a list of proper names keeps the root's segments in front. */
  lemma JoinBelowRoot(root: string, names: seq<string>)
    requires root != "" && AreSegments(names) && names != []
    requires forall i :: 0 <= i < |names| ==> names[i] != "." && names[i] != ".."
    ensures JoinPaths(root, Join(names)) == Render(Rooted(root), Kept(root) + names)
    ensures CleanStack(Rooted(root), Kept(root) + names)
  {
    JoinedNamesAreOrdinary(names);
    var whole := root + "/" + Join(names);
    assert whole == root + ['/'] + Join(names);
    SplitConcat(root, Join(names), '/', SLASH);
    SplitJoin(names);
    PushAllConcat(Rooted(root), [], Split(root, SLASH), names);
    assert ".." !in names;
    PushAllNames(Rooted(root), Kept(root), names);
    NamesOfNames(names);
    KeptIsClean(whole);
  }

  lemma {:induction false} NamesOfNames(names: seq<string>)
    requires AreSegments(names) && forall i :: 0 <= i < |names| ==> names[i] != "."
    ensures Names(names) == names
  {
    if names != [] {
      NamesOfNames(names[1..]);
    }
  }

  lemma RelBelowRoot(root: string, names: seq<string>)
    requires root != "" && names != [] && CleanStack(Rooted(root), Kept(root) + names)
    ensures Rel(root, Render(Rooted(root), Kept(root) + names)) == Some(Join(names))
  {
    CleanIdempotent(root);
    RenderReadsBack(Rooted(root), Kept(root) + names);
    assert Kept(Clean(root)) != Kept(root) + names;
    RelOfExtension(Kept(root), names);
  }

  /**
   A key resolves if and only if it is acceptable, and then to the cleaned root's segments
   followed by the key's names. The final relative-path check rejects nothing.
   */
  lemma ResolutionIsExact(root: string, key: string)
    ensures Resolve(root, key).Ok? <==> root != "" && Acceptable(key)
    ensures Resolve(root, key).Ok? ==>
      && Clean(key) == Join(Segments(key))
      && Resolve(root, key).value == Render(Rooted(root), Kept(root) + Segments(key))
      && Rooted(Resolve(root, key).value) == Rooted(root)
      && Kept(Resolve(root, key).value) == Kept(root) + Segments(key)
    ensures Resolve(root, key).Err? ==>
      Resolve(root, key).error == (if root == "" then RootRequired else InvalidKey(key))
  {
    if root != "" && ".." !in Fields(key, BOTH_SLASHES) {
      NoParentSegments(key);
      var names := Segments(key);
      if Rooted(key) {
        assert Rooted(Clean(key));
      } else if names == [] {
        assert Clean(key) == ".";
      } else {
        assert Clean(key) == Join(names);
        JoinedNamesAreOrdinary(names);
        JoinBelowRoot(root, names);
        RelBelowRoot(root, names);
        RenderReadsBack(Rooted(root), Kept(root) + names);
      }
    }
  }

  /**
   The text of the path. Below a root that is clean, or after cleaning it, the names of the
   key follow after a slash; below "/" and "." they stand alone, after a slash and without.
   */
  lemma {:induction false} ResolvedText(root: string, key: string)
    requires Resolve(root, key).Ok?
    ensures
      var names := Join(Segments(key));
      Resolve(root, key).value ==
        if Clean(root) == "/" then "/" + names
        else if Clean(root) == "." then names
        else Clean(root) + "/" + names
  {
    ResolutionIsExact(root, key);
    NamesBelow(root, Segments(key));
  }

  lemma EmptyStackIsSpecial(root: string)
    requires root != ""
    ensures Kept(root) == [] <==> Clean(root) == "/" || Clean(root) == "."
  {
    if Kept(root) != [] {
      CleanTextIsNotSpecial(Rooted(root), Kept(root), root);
    }
  }

  lemma CleanTextIsNotSpecial(rooted: bool, stack: seq<string>, root: string)
    requires stack != [] && stack == Kept(root) && rooted == Rooted(root)
    ensures Render(rooted, stack) != "/" && Render(rooted, stack) != "."
  {
    KeptIsClean(root);
    SplitJoin(stack);
    SplitFree(".", SLASH);
    assert stack[0] != ".";
    if rooted {
      assert |"/" + Join(stack)| > 1;
    }
  }

  lemma {:induction false} NamesBelow(root: string, names: seq<string>)
    requires root != "" && names != []
    ensures
      Render(Rooted(root), Kept(root) + names) ==
        if Clean(root) == "/" then "/" + Join(names)
        else if Clean(root) == "." then Join(names)
        else Clean(root) + "/" + Join(names)
  {
    EmptyStackIsSpecial(root);
    if Kept(root) == [] {
      assert [] + names == names;
    } else {
      JoinConcat(Kept(root), names);
      if Rooted(root) {
        assert "/" + (Join(Kept(root)) + "/" + Join(names)) == "/" + Join(Kept(root)) + "/" + Join(names);
      }
    }
  }

  /** Every resolved path lies strictly below the root. */
  lemma PathsStayBelowRoot(root: string, key: string)
    requires Resolve(root, key).Ok?
    ensures SameOrInside(root, Resolve(root, key).value) && Kept(root) != Kept(Resolve(root, key).value)
  {
    ResolutionIsExact(root, key);
  }

  /** Two keys resolve to one path exactly when their names agree. */
  lemma SamePathMeansSameNames(root: string, a: string, b: string)
    requires Resolve(root, a).Ok? && Resolve(root, b).Ok?
    ensures Resolve(root, a) == Resolve(root, b) <==> Segments(a) == Segments(b)
  {
    ResolutionIsExact(root, a);
    ResolutionIsExact(root, b);
    assert Kept(root) + Segments(a) == Kept(root) + Segments(b) ==> Segments(a) == Segments(b) by {
      assert (Kept(root) + Segments(a))[|Kept(root)|..] == Segments(a);
      assert (Kept(root) + Segments(b))[|Kept(root)|..] == Segments(b);
    }
  }

  // ----- Keys of the default key builder -----

  lemma FileNamesHaveNames(name: string)
    requires AcceptsFileName(name) && name[0] != '/'
    ensures ".." !in Fields(name, BOTH_SLASHES) && Segments(name) != []
  {
    var first := Split(name, SLASH)[0];
    FirstPieceStarts(name);
    if first == "." {
      SlashSegmentIsField(name, ".");
    }
    NamesKeep(Split(name, SLASH), first);
  }

  lemma FirstPieceStarts(s: string)
    requires s != "" && s[0] != '/'
    ensures Split(s, SLASH)[0] != "" && Split(s, SLASH)[0] in Split(s, SLASH)
  {
  }

  /** The names of a scoped key: the tenant, then the file's. */
  lemma ScopedSegments(identifier: string, name: string)
    requires identifier != "" && AcceptsIdentifier(identifier)
    ensures Segments(identifier + "/" + name) == [identifier] + Segments(name)
    ensures Fields(identifier + "/" + name, BOTH_SLASHES) == [identifier] + Fields(name, BOTH_SLASHES)
  {
    assert identifier + "/" + name == identifier + ['/'] + name;
    SplitConcat(identifier, name, '/', SLASH);
    SplitConcat(identifier, name, '/', BOTH_SLASHES);
    assert Free(identifier, SLASH);
    SplitFree(identifier, SLASH);
    SplitFree(identifier, BOTH_SLASHES);
    NamesConcat([identifier], Split(name, SLASH));
    NonEmptyConcat([identifier], Split(name, BOTH_SLASHES));
    assert [identifier][1..] == [];
  }

  /** Every key the builder accepts resolves under every non-empty root. */
  lemma BuiltKeysResolve(root: string, request: Request)
    requires root != "" && BuiltKey(request).Ok?
    ensures Resolve(root, BuiltKey(request).value).Ok?
  {
    var name, identifier, key := FileName(request), Identifier(request), BuiltKey(request).value;
    TrimEnds(request.fileID, '/');
    AcceptedNamesAreNotEmpty(name);
    FileNamesHaveNames(name);
    if identifier != "" {
      ScopedSegments(identifier, name);
      assert identifier[0] !in BOTH_SLASHES && key[0] == identifier[0];
    }
    ResolutionIsExact(root, key);
  }

  /** Requests of different tenants resolve to paths of which neither is, or lies below, the other. */
  lemma {:induction false} TenantIsolation(root: string, p: Request, q: Request)
    requires root != "" && BuiltKey(p).Ok? && BuiltKey(q).Ok?
    requires Identifier(p) != "" && Identifier(q) != "" && Identifier(p) != Identifier(q)
    ensures Resolve(root, BuiltKey(p).value).Ok? && Resolve(root, BuiltKey(q).value).Ok?
    ensures !SameOrInside(Resolve(root, BuiltKey(p).value).value, Resolve(root, BuiltKey(q).value).value)
    ensures !SameOrInside(Resolve(root, BuiltKey(q).value).value, Resolve(root, BuiltKey(p).value).value)
  {
    BuiltKeysResolve(root, p);
    BuiltKeysResolve(root, q);
    ResolutionIsExact(root, BuiltKey(p).value);
    ResolutionIsExact(root, BuiltKey(q).value);
    ScopedSegments(Identifier(p), FileName(p));
    ScopedSegments(Identifier(q), FileName(q));
    var n := |Kept(root)|;
    assert (Kept(root) + Segments(BuiltKey(p).value))[n] == Identifier(p);
    assert (Kept(root) + Segments(BuiltKey(q).value))[n] == Identifier(q);
  }

  /** The names of a built key: the tenant's, if the key has one, and then the file's. */
  function BuiltSegments(request: Request): seq<string> {
    (if Identifier(request) == "" then [] else [Identifier(request)]) + Segments(FileName(request))
  }

  lemma BuiltKeySegments(root: string, request: Request)
    requires root != "" && BuiltKey(request).Ok?
    ensures
      var path := Resolve(root, BuiltKey(request).value);
      && path.Ok? && path.value == Render(Rooted(root), Kept(root) + BuiltSegments(request))
      && Rooted(path.value) == Rooted(root) && Kept(path.value) == Kept(root) + BuiltSegments(request)
  {
    BuiltKeysResolve(root, request);
    ResolutionIsExact(root, BuiltKey(request).value);
    if Identifier(request) != "" {
      ScopedSegments(Identifier(request), FileName(request));
    } else {
      assert BuiltSegments(request) == Segments(FileName(request));
    }
  }

  /**
   A request without a tenant segment collides with a scoped one in its key exactly when
   its file ID spells out the tenant and the other file ID, and in its path already when
   the names agree.
   */
  lemma UnscopedCollision(root: string, shared: Request, scoped: Request)
    requires root != "" && BuiltKey(shared).Ok? && BuiltKey(scoped).Ok?
    requires Identifier(shared) == "" && Identifier(scoped) != ""
    ensures BuiltKey(shared) == BuiltKey(scoped) <==> FileName(shared) == Identifier(scoped) + "/" + FileName(scoped)
    ensures Resolve(root, BuiltKey(shared).value) == Resolve(root, BuiltKey(scoped).value) <==>
      Segments(FileName(shared)) == [Identifier(scoped)] + Segments(FileName(scoped))
  {
    BuiltKeysResolve(root, shared);
    BuiltKeysResolve(root, scoped);
    SamePathMeansSameNames(root, BuiltKey(shared).value, BuiltKey(scoped).value);
    ScopedSegments(Identifier(scoped), FileName(scoped));
  }

  /** The directory below which the files of a tenant lie. */
  function TenantDirectory(root: string, identifier: string): string {
    JoinPaths(root, identifier)
  }

  lemma TenantDirectoryIsClean(root: string, identifier: string)
    requires root != "" && identifier != "" && AcceptsIdentifier(identifier)
    ensures
      var directory := TenantDirectory(root, identifier);
      Rooted(directory) == Rooted(root) && Kept(directory) == Kept(root) + [identifier]
  {
    assert identifier == Join([identifier]);
    JoinBelowRoot(root, [identifier]);
    RenderReadsBack(Rooted(root), Kept(root) + [identifier]);
  }

  /** Any built key resolves into a tenant's directory if and only if its first name is the tenant's identifier. */
  lemma {:induction false} InsideTenantExactly(root: string, request: Request, identifier: string)
    requires root != "" && BuiltKey(request).Ok? && identifier != "" && AcceptsIdentifier(identifier)
    ensures
      var path := Resolve(root, BuiltKey(request).value);
      && path.Ok? && BuiltSegments(request) != []
      && (SameOrInside(TenantDirectory(root, identifier), path.value) <==> BuiltSegments(request)[0] == identifier)
  {
    BuiltKeySegments(root, request);
    TenantDirectoryIsClean(root, identifier);
    PathsStayBelowRoot(root, BuiltKey(request).value);
    NonEmptyExtension(Kept(root), BuiltSegments(request));
    OneStepBelow(Kept(root), identifier, BuiltSegments(request));
  }

  lemma NonEmptyExtension(base: seq<string>, below: seq<string>)
    requires base + below != base
    ensures below != []
  {
  }

  lemma OneStepBelow(base: seq<string>, name: string, below: seq<string>)
    requires below != []
    ensures base + [name] <= base + below <==> below[0] == name
  {
    assert (base + below)[|base|] == below[0] && (base + [name])[|base|] == name;
    assert (base + below)[..|base| + 1] == base + [below[0]];
  }
}
