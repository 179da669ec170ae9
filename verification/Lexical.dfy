/**
 Strings and path segments: splitting, joining and trimming as the strings package does
 it, and Clean, Join and Rel of path/filepath on Unix as stack algorithms.
 */
module Lexical {
  import opened Wrappers

  const SLASH: set<char> := {'/'}
  const BOTH_SLASHES: set<char> := {'/', '\\'}

  /** The pieces between separators, empty ones included. */
  function Split(s: string, seps: set<char>): (r: seq<string>)
    ensures r != []
  {
    if s == "" then [""]
    else
      var rest := Split(s[1..], seps);
      if s[0] in seps then [""] + rest else [[s[0]] + rest[0]] + rest[1..]
  }

  function NonEmpty(segments: seq<string>): seq<string> {
    if segments == [] then []
    else if segments[0] == "" then NonEmpty(segments[1..])
    else [segments[0]] + NonEmpty(segments[1..])
  }

  /** strings.FieldsFunc: the non-empty pieces. */
  function Fields(s: string, seps: set<char>): seq<string> {
    NonEmpty(Split(s, seps))
  }

  /** strings.Join with a slash. */
  function Join(segments: seq<string>): string {
    if segments == [] then ""
    else if |segments| == 1 then segments[0]
    else segments[0] + "/" + Join(segments[1..])
  }

  function TrimLeft(s: string, c: char): string {
    if s != "" && s[0] == c then TrimLeft(s[1..], c) else s
  }

  function TrimRight(s: string, c: char): string {
    if s != "" && s[|s| - 1] == c then TrimRight(s[..|s| - 1], c) else s
  }

  function Trim(s: string, c: char): string {
    TrimRight(TrimLeft(s, c), c)
  }

  predicate Free(s: string, seps: set<char>) {
    forall i :: 0 <= i < |s| ==> s[i] !in seps
  }

  // ----- filepath on Unix -----

  /** One segment arrives at the stack of Clean. */
  function Push(rooted: bool, stack: seq<string>, segment: string): seq<string> {
    if segment == "" || segment == "." then stack
    else if segment == ".." then
      if stack != [] && stack[|stack| - 1] != ".." then stack[..|stack| - 1]
      else if rooted then stack
      else stack + [".."]
    else stack + [segment]
  }

  function PushAll(rooted: bool, stack: seq<string>, segments: seq<string>): seq<string>
    decreases segments
  {
    if segments == [] then stack else PushAll(rooted, Push(rooted, stack, segments[0]), segments[1..])
  }

  predicate Rooted(path: string) {
    path != "" && path[0] == '/'
  }

  /** The segments Clean keeps. */
  function Kept(path: string): seq<string> {
    PushAll(Rooted(path), [], Split(path, SLASH))
  }

  function Render(rooted: bool, stack: seq<string>): string {
    if rooted then "/" + Join(stack) else if stack == [] then "." else Join(stack)
  }

  function Clean(path: string): string {
    if path == "" then "." else Render(Rooted(path), Kept(path))
  }

  /** filepath.Join of two elements; empty ones are ignored. */
  function JoinPaths(a: string, b: string): string {
    if a == "" && b == "" then ""
    else if a == "" then Clean(b)
    else if b == "" then Clean(a)
    else Clean(a + "/" + b)
  }

  function Ups(n: nat): seq<string> {
    if n == 0 then [] else [".."] + Ups(n - 1)
  }

  /** Drop the common prefix, climb out of what is left of the base, descend to the target. */
  function RelSegments(base: seq<string>, target: seq<string>): Option<seq<string>> {
    if base != [] && target != [] && base[0] == target[0] then RelSegments(base[1..], target[1..])
    else if base != [] && base[0] == ".." then None
    else Some(Ups(|base|) + target)
  }

  /** filepath.Rel; None stands for its error. */
  function Rel(base: string, target: string): Option<string> {
    var b, t := Clean(base), Clean(target);
    if b == t then Some(".")
    else if Rooted(b) != Rooted(t) then None
    else
      match RelSegments(Kept(b), Kept(t))
      case None => None
      case Some(segments) => Some(Join(segments))
  }

  predicate HasPrefix(s: string, prefix: string) {
    prefix <= s
  }

  // ----- Splitting and joining -----

  lemma {:induction false} SplitConcat(a: string, b: string, c: char, seps: set<char>)
    requires c in seps
    ensures Split(a + [c] + b, seps) == Split(a, seps) + Split(b, seps)
  {
    if a == "" {
      assert a + [c] + b == [c] + b;
    } else {
      assert (a + [c] + b)[1..] == a[1..] + [c] + b;
      SplitConcat(a[1..], b, c, seps);
    }
  }

  lemma {:induction false} SplitFree(s: string, seps: set<char>)
    requires Free(s, seps)
    ensures Split(s, seps) == [s]
  {
    if s != "" {
      SplitFree(s[1..], seps);
      assert [s[0]] + s[1..] == s;
    }
  }

  lemma {:induction false} SplitPiecesAreFree(s: string, seps: set<char>)
    ensures forall i :: 0 <= i < |Split(s, seps)| ==> Free(Split(s, seps)[i], seps)
  {
    if s != "" {
      SplitPiecesAreFree(s[1..], seps);
    }
  }

  lemma JoinFew(a: string, b: string)
    ensures Join([a]) == a
    ensures Join([a, b]) == a + "/" + b
  {
    assert [a, b][1..] == [b];
  }

  /** Segments that can stand between slashes. */
  predicate AreSegments(segments: seq<string>) {
    forall i :: 0 <= i < |segments| ==> segments[i] != "" && Free(segments[i], SLASH)
  }

  lemma {:induction false} SplitJoin(segments: seq<string>)
    requires AreSegments(segments) && segments != []
    ensures Split(Join(segments), SLASH) == segments
    ensures Join(segments) != "" && Join(segments)[0] == segments[0][0]
  {
    SplitFree(segments[0], SLASH);
    if |segments| > 1 {
      SplitJoin(segments[1..]);
      SplitConcat(segments[0], Join(segments[1..]), '/', SLASH);
      assert segments[0] + ['/'] + Join(segments[1..]) == Join(segments);
    }
  }

  /**
   A slash segment without any separator is also a piece under both separators; the first
   one is the first one.
   */
  lemma {:induction false} SlashSegmentsAreFields(s: string, k: nat)
    requires k < |Split(s, SLASH)| && Free(Split(s, SLASH)[k], BOTH_SLASHES)
    ensures k == 0 ==> Split(s, BOTH_SLASHES)[0] == Split(s, SLASH)[0]
    ensures k > 0 ==> Split(s, SLASH)[k] in Split(s, BOTH_SLASHES)[1..]
  {
    if s != "" {
      var rest, fields := Split(s[1..], SLASH), Split(s[1..], BOTH_SLASHES);
      if s[0] == '/' {
        if k > 0 {
          SlashSegmentsAreFields(s[1..], k - 1);
        }
      } else if k > 0 {
        SlashSegmentsAreFields(s[1..], k);
        assert Split(s, SLASH)[k] == rest[k];
      } else {
        var piece := Split(s, SLASH)[0];
        assert piece == [s[0]] + rest[0] && piece[0] == s[0];
        assert forall i :: 0 <= i < |rest[0]| ==> rest[0][i] == piece[i + 1];
        SlashSegmentsAreFields(s[1..], 0);
      }
    }
  }

  lemma SlashSegmentIsField(s: string, segment: string)
    requires segment in Split(s, SLASH) && Free(segment, BOTH_SLASHES) && segment != ""
    ensures segment in Fields(s, BOTH_SLASHES)
  {
    var k :| 0 <= k < |Split(s, SLASH)| && Split(s, SLASH)[k] == segment;
    SlashSegmentsAreFields(s, k);
    NonEmptyKeeps(Split(s, BOTH_SLASHES), segment);
  }

  lemma {:induction false} NonEmptyKeeps(segments: seq<string>, segment: string)
    ensures segment in NonEmpty(segments) <==> segment in segments && segment != ""
  {
    if segments != [] {
      NonEmptyKeeps(segments[1..], segment);
    }
  }

  lemma {:induction false} NonEmptyConcat(a: seq<string>, b: seq<string>)
    ensures NonEmpty(a + b) == NonEmpty(a) + NonEmpty(b)
  {
    if a == [] {
      assert a + b == b;
    } else {
      assert (a + b)[1..] == a[1..] + b;
      NonEmptyConcat(a[1..], b);
    }
  }

  // ----- Clean -----

  /** The segments that are neither empty nor a dot. */
  function Names(segments: seq<string>): seq<string> {
    if segments == [] then []
    else if segments[0] == "" || segments[0] == "." then Names(segments[1..])
    else [segments[0]] + Names(segments[1..])
  }

  lemma {:induction false} NamesConcat(a: seq<string>, b: seq<string>)
    ensures Names(a + b) == Names(a) + Names(b)
  {
    if a == [] {
      assert a + b == b;
    } else {
      assert (a + b)[1..] == a[1..] + b;
      NamesConcat(a[1..], b);
    }
  }

  lemma {:induction false} NamesKeep(segments: seq<string>, segment: string)
    ensures segment in Names(segments) <==> segment in segments && segment != "" && segment != "."
  {
    if segments != [] {
      NamesKeep(segments[1..], segment);
    }
  }

  lemma {:induction false} PushAllConcat(rooted: bool, stack: seq<string>, a: seq<string>, b: seq<string>)
    ensures PushAll(rooted, stack, a + b) == PushAll(rooted, PushAll(rooted, stack, a), b)
    decreases a
  {
    if a == [] {
      assert a + b == b;
    } else {
      assert (a + b)[1..] == a[1..] + b;
      PushAllConcat(rooted, Push(rooted, stack, a[0]), a[1..], b);
    }
  }

  /** Without parent segments Clean only drops empty segments and dots. */
  lemma {:induction false} PushAllNames(rooted: bool, stack: seq<string>, segments: seq<string>)
    requires ".." !in segments
    ensures PushAll(rooted, stack, segments) == stack + Names(segments)
    decreases segments
  {
    if segments != [] {
      PushAllNames(rooted, Push(rooted, stack, segments[0]), segments[1..]);
    }
  }

  /** What a stack of Clean can hold: proper names, after leading parent segments if the path is relative. */
  predicate CleanStack(rooted: bool, stack: seq<string>) {
    && AreSegments(stack)
    && (forall i :: 0 <= i < |stack| ==> stack[i] != ".")
    && (forall i :: 0 <= i < |stack| && stack[i] == ".." ==> !rooted)
    && (forall i, j :: 0 <= i < j < |stack| && stack[j] == ".." ==> stack[i] == "..")
  }

  lemma {:induction false} PushAllIsClean(rooted: bool, stack: seq<string>, segments: seq<string>)
    requires CleanStack(rooted, stack) && forall i :: 0 <= i < |segments| ==> Free(segments[i], SLASH)
    ensures CleanStack(rooted, PushAll(rooted, stack, segments))
    decreases segments
  {
    if segments != [] {
      assert segments[0] !in {"", ".", ".."} ==> stack + [segments[0]] == Push(rooted, stack, segments[0]);
      PushAllIsClean(rooted, Push(rooted, stack, segments[0]), segments[1..]);
    }
  }

  lemma KeptIsClean(path: string)
    ensures CleanStack(Rooted(path), Kept(path))
  {
    SplitPiecesAreFree(path, SLASH);
    PushAllIsClean(Rooted(path), [], Split(path, SLASH));
  }

  /** A clean stack pushed again is itself. */
  lemma {:induction false} PushAllAgain(rooted: bool, stack: seq<string>, segments: seq<string>)
    requires CleanStack(rooted, stack + segments)
    ensures PushAll(rooted, stack, segments) == stack + segments
    decreases segments
  {
    if segments != [] {
      var whole := stack + segments;
      assert whole[|stack|] == segments[0];
      assert stack != [] && segments[0] == ".." ==> whole[|stack| - 1] == "..";
      assert Push(rooted, stack, segments[0]) == stack + [segments[0]];
      assert stack + [segments[0]] + segments[1..] == whole;
      PushAllAgain(rooted, stack + [segments[0]], segments[1..]);
    }
  }

  /** Reading a rendered path back gives the stack it was rendered from. */
  lemma RenderReadsBack(rooted: bool, stack: seq<string>)
    requires CleanStack(rooted, stack)
    ensures Rooted(Render(rooted, stack)) == rooted
    ensures Kept(Render(rooted, stack)) == stack
    ensures Clean(Render(rooted, stack)) == Render(rooted, stack)
  {
    var path := Render(rooted, stack);
    if stack != [] {
      SplitJoin(stack);
      assert stack[0][0] !in SLASH;
    }
    PushAllAgain(rooted, [], stack);
    assert [] + stack == stack;
    if rooted {
      assert path[1..] == Join(stack);
      assert Split(path, SLASH) == [""] + Split(Join(stack), SLASH);
      PushAllConcat(true, [], [""], Split(Join(stack), SLASH));
      assert PushAll(true, [], [""]) == [];
    } else if stack == [] {
      SplitFree(".", SLASH);
    }
  }

  /** Clean is idempotent, and keeps rootedness and the kept segments. */
  lemma CleanIdempotent(path: string)
    ensures Clean(Clean(path)) == Clean(path)
    ensures Rooted(Clean(path)) == Rooted(path) && Kept(Clean(path)) == Kept(path)
  {
    KeptIsClean(path);
    if path == "" {
      assert Kept(".") == [];
    } else {
      RenderReadsBack(Rooted(path), Kept(path));
    }
  }

  lemma {:induction false} RelOfExtension(base: seq<string>, more: seq<string>)
    ensures RelSegments(base, base + more) == Some(more)
  {
    if base == [] {
      assert base + more == more && Ups(0) + more == more;
    } else {
      assert (base + more)[1..] == base[1..] + more;
      RelOfExtension(base[1..], more);
    }
  }

  // ----- What the functions mean, in terms of the text -----

  /** The pieces, put together again, are the text. */
  lemma {:induction false} JoinSplit(s: string)
    ensures Join(Split(s, SLASH)) == s
  {
    if s != "" {
      var rest := Split(s[1..], SLASH);
      JoinSplit(s[1..]);
      if s[0] in SLASH {
        assert ([""] + rest)[1..] == rest;
        assert Join([""] + rest) == "/" + Join(rest);
      } else {
        assert ([[s[0]] + rest[0]] + rest[1..])[1..] == rest[1..];
        assert s == [s[0]] + s[1..];
      }
    }
  }

  function ToSlash(s: string): string {
    seq(|s|, i requires 0 <= i < |s| => if s[i] == '\\' then '/' else s[i])
  }

  /** Under both separators the pieces have the ends that they have when backslashes are slashes. */
  lemma {:induction false} SplitAtBoth(s: string)
    ensures Split(s, BOTH_SLASHES) == Split(ToSlash(s), SLASH)
  {
    if s != "" {
      SplitAtBoth(s[1..]);
      assert ToSlash(s)[1..] == ToSlash(s[1..]);
    }
  }

  lemma {:induction false} TrimLeftIsExact(s: string, c: char) returns (k: nat)
    ensures k <= |s| && TrimLeft(s, c) == s[k..]
    ensures forall i :: 0 <= i < k ==> s[i] == c
  {
    if s != "" && s[0] == c {
      k := TrimLeftIsExact(s[1..], c);
      k := k + 1;
    } else {
      k := 0;
    }
  }

  lemma {:induction false} TrimRightIsExact(s: string, c: char) returns (k: nat)
    ensures k <= |s| && TrimRight(s, c) == s[..k]
    ensures forall i :: k <= i < |s| ==> s[i] == c
  {
    if s != "" && s[|s| - 1] == c {
      k := TrimRightIsExact(s[..|s| - 1], c);
    } else {
      k := |s|;
    }
  }

  /** Trimming removes nothing but the character, and only at the ends. */
  lemma TrimIsExact(s: string, c: char) returns (lo: nat, hi: nat)
    ensures lo <= hi <= |s| && Trim(s, c) == s[lo..hi]
    ensures forall i :: 0 <= i < lo || hi <= i < |s| ==> s[i] == c
  {
    lo := TrimLeftIsExact(s, c);
    var k := TrimRightIsExact(s[lo..], c);
    hi := lo + k;
    forall i | hi <= i < |s|
      ensures s[i] == c
    {
      assert s[lo..][i - lo] == c;
    }
  }

  /** Pieces in the middle of a path that cancel out leave its kept segments alone. */
  lemma MiddleCancels(a: string, middle: string, b: string)
    requires forall rooted, stack :: PushAll(rooted, stack, Split(middle, SLASH)) == stack
    ensures Kept(a + ['/'] + middle + ['/'] + b) == Kept(a + ['/'] + b)
  {
    var path, rooted := a + ['/'] + middle + ['/'] + b, Rooted(a + ['/'] + b);
    assert Rooted(path) == rooted;
    SplitConcat(a + ['/'] + middle, b, '/', SLASH);
    SplitConcat(a, middle, '/', SLASH);
    SplitConcat(a, b, '/', SLASH);
    PushAllConcat(rooted, [], Split(a, SLASH) + Split(middle, SLASH), Split(b, SLASH));
    PushAllConcat(rooted, [], Split(a, SLASH), Split(middle, SLASH));
    PushAllConcat(rooted, [], Split(a, SLASH), Split(b, SLASH));
  }

  predicate ProperName(name: string) {
    name != "" && name != "." && name != ".." && Free(name, SLASH)
  }

  lemma EmptyAndDotCancel(rooted: bool, stack: seq<string>)
    ensures PushAll(rooted, stack, Split("", SLASH)) == stack
    ensures PushAll(rooted, stack, Split(".", SLASH)) == stack
  {
    SplitFree(".", SLASH);
  }

  lemma NameAndParentCancel(rooted: bool, stack: seq<string>, name: string)
    requires ProperName(name)
    ensures PushAll(rooted, stack, Split(name + ['/'] + "..", SLASH)) == stack
  {
    SplitConcat(name, "..", '/', SLASH);
    SplitFree(name, SLASH);
    SplitFree("..", SLASH);
    var pieces, longer := [name] + [".."], stack + [name];
    assert pieces[0] == name && pieces[1..] == [".."];
    assert Push(rooted, stack, name) == longer;
    assert longer[|longer| - 1] == name && longer[..|longer| - 1] == stack;
    assert PushAll(rooted, longer, [".."]) == PushAll(rooted, Push(rooted, longer, ".."), [".."][1..]);
  }

  /**
   The rules by which Go describes Clean: repeated slashes are one, a dot is nothing, a
   parent cancels the name before it, and at the root it is nothing.
   */
  lemma CleanRules(a: string, name: string, b: string)
    requires ProperName(name)
    ensures Clean(a + "/" + "" + "/" + b) == Clean(a + "/" + b)
    ensures Clean(a + "/" + "." + "/" + b) == Clean(a + "/" + b)
    ensures Clean(a + "/" + (name + "/" + "..") + "/" + b) == Clean(a + "/" + b)
    ensures Clean("/" + ".." + "/" + b) == Clean("/" + b)
  {
    forall rooted, stack
      ensures PushAll(rooted, stack, Split("", SLASH)) == stack
      ensures PushAll(rooted, stack, Split(".", SLASH)) == stack
      ensures PushAll(rooted, stack, Split(name + ['/'] + "..", SLASH)) == stack
    {
      EmptyAndDotCancel(rooted, stack);
      NameAndParentCancel(rooted, stack, name);
    }
    MiddleCancels(a, "", b);
    MiddleCancels(a, ".", b);
    MiddleCancels(a, name + ['/'] + "..", b);
    ParentOfTheRoot(b);
  }

  lemma ParentOfTheRoot(b: string)
    ensures Clean("/" + ".." + "/" + b) == Clean("/" + b)
  {
    var path := "" + ['/'] + ".." + ['/'] + b;
    assert path == "/" + ".." + "/" + b && "" + ['/'] + b == "/" + b;
    SplitConcat("" + ['/'] + "..", b, '/', SLASH);
    SplitConcat("", "..", '/', SLASH);
    SplitConcat("", b, '/', SLASH);
    SplitFree("..", SLASH);
    var up := [""] + [".."];
    assert up == ["", ".."] && up[1..] == [".."];
    PushAllConcat(true, [], up, Split(b, SLASH));
    PushAllConcat(true, [], [""], Split(b, SLASH));
    assert PushAll(true, [], up) == [] && PushAll(true, [], [""]) == [];
  }

  /**
   A clean path other than the root and the dot consists of proper pieces only, after a
   leading slash if there is one.
   */
  lemma CleanPathsHaveProperPieces(path: string)
    requires Clean(path) != "/" && Clean(path) != "."
    ensures
      var text := if Rooted(Clean(path)) then Clean(path)[1..] else Clean(path);
      && text != ""
      && forall i :: 0 <= i < |Split(text, SLASH)| ==> Split(text, SLASH)[i] != "" && Split(text, SLASH)[i] != "."
  {
    KeptIsClean(path);
    var stack := Kept(path);
    assert stack != [];
    SplitJoin(stack);
    assert stack[0][0] !in SLASH;
    if Rooted(path) {
      assert Clean(path)[1..] == Join(stack);
    }
  }

  lemma {:induction false} JoinConcat(a: seq<string>, b: seq<string>)
    requires a != [] && b != []
    ensures Join(a + b) == Join(a) + "/" + Join(b)
  {
    assert (a + b)[1..] == a[1..] + b;
    if |a| == 1 {
      assert a[1..] + b == b;
    } else {
      JoinConcat(a[1..], b);
    }
  }

  // ----- Rel undoes Join -----

  lemma {:induction false} UpsClimb(rooted: bool, stack: seq<string>, extra: seq<string>)
    requires forall i :: 0 <= i < |extra| ==> extra[i] != ".."
    ensures PushAll(rooted, stack + extra, Ups(|extra|)) == stack
  {
    if extra == [] {
      assert stack + extra == stack;
    } else {
      var all := stack + extra;
      assert all[..|all| - 1] == stack + extra[..|extra| - 1];
      UpsClimb(rooted, stack, extra[..|extra| - 1]);
      assert Ups(|extra|)[1..] == Ups(|extra| - 1);
    }
  }

  /** Following the segments of Rel from the base leads to the target. */
  lemma {:induction false} RelSegmentsLead(rooted: bool, common: seq<string>, base: seq<string>, target: seq<string>)
    requires CleanStack(rooted, common + base) && CleanStack(rooted, common + target)
    requires RelSegments(base, target).Some?
    ensures PushAll(rooted, common + base, RelSegments(base, target).value) == common + target
    decreases |base|
  {
    if base != [] && target != [] && base[0] == target[0] {
      var more := common + [base[0]];
      assert more + base[1..] == common + base && more + target[1..] == common + target;
      RelSegmentsLead(rooted, more, base[1..], target[1..]);
    } else {
      OnlyLeadingParents(rooted, common, base);
      UpsClimb(rooted, common, base);
      PushAllConcat(rooted, common + base, Ups(|base|), target);
      PushAllAgain(rooted, common, target);
    }
  }

  lemma OnlyLeadingParents(rooted: bool, common: seq<string>, base: seq<string>)
    requires CleanStack(rooted, common + base) && (base != [] ==> base[0] != "..")
    ensures forall i :: 0 <= i < |base| ==> base[i] != ".."
  {
    var all := common + base;
    forall i | 0 <= i < |base|
      ensures base[i] != ".."
    {
      assert all[|common| + i] == base[i];
      assert base != [] ==> all[|common|] == base[0];
    }
  }

  lemma {:induction false} UpsAreSegments(n: nat)
    ensures AreSegments(Ups(n)) && |Ups(n)| == n
  {
    if n > 0 {
      UpsAreSegments(n - 1);
    }
  }

  lemma {:induction false} RelSegmentsAreSegments(base: seq<string>, target: seq<string>)
    requires RelSegments(base, target).Some? && AreSegments(target)
    ensures AreSegments(RelSegments(base, target).value)
    ensures RelSegments(base, target).value == [] ==> base == target
    decreases |base|
  {
    if base != [] && target != [] && base[0] == target[0] {
      RelSegmentsAreSegments(base[1..], target[1..]);
    } else {
      UpsAreSegments(|base|);
    }
  }

  /** What the relative path is for: joined to the base it names the target. */
  lemma RelLeadsToTarget(base: string, target: string)
    requires Rel(base, target).Some?
    ensures Clean(Clean(base) + "/" + Rel(base, target).value) == Clean(target)
  {
    var b, t, r := Clean(base), Clean(target), Rel(base, target).value;
    CleanIdempotent(base);
    CleanIdempotent(target);
    assert b + "/" + r == b + ['/'] + r;
    SplitConcat(b, r, '/', SLASH);
    PushAllConcat(Rooted(b), [], Split(b, SLASH), Split(r, SLASH));
    CleanIsNotEmpty(base);
    if b == t {
      SplitFree(".", SLASH);
      assert Kept(b + "/" + r) == Kept(b);
    } else {
      KeptIsClean(b);
      KeptIsClean(t);
      RelSegmentsAreSegments(Kept(b), Kept(t));
      RelSegmentsLead(Rooted(b), [], Kept(b), Kept(t));
      assert [] + Kept(b) == Kept(b) && [] + Kept(t) == Kept(t);
      var segments := RelSegments(Kept(b), Kept(t)).value;
      assert segments != [];
      SplitJoin(segments);
      assert Kept(b + "/" + r) == Kept(t);
    }
    CleanIsNotEmpty(target);
    assert Clean(t) == Render(Rooted(t), Kept(t));
  }

  lemma CleanIsNotEmpty(path: string)
    ensures Clean(path) != ""
  {
    KeptIsClean(path);
    if Kept(path) != [] {
      SplitJoin(Kept(path));
    }
  }
}
