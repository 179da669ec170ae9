/** defaultKeyBuilder.Build: tenant-scoped object keys and the requests it rejects. */
module KeyBuilding {
  import opened Wrappers
  import opened ConfigTypes
  import opened Lexical

  datatype KeyError = InvalidFileID(fileID: string) | InvalidTenantSegment(identifier: string)

  datatype Request = Request(fileID: string, tenantMode: TenantMode, tenant: Option<Tenant>)

  /** The tenant segment: the code, else the ID; empty when the key has none. */
  function Identifier(request: Request): string {
    if request.tenantMode.TenantScoped? && request.tenant.Some? then
      if request.tenant.value.code != "" then request.tenant.value.code else request.tenant.value.id
    else ""
  }

  /** The file ID without leading and trailing slashes. */
  function FileName(request: Request): string {
    Trim(request.fileID, '/')
  }

  predicate AcceptsFileName(name: string) {
    Trim(name, '\\') != "" && "." !in Fields(name, BOTH_SLASHES) && ".." !in Fields(name, BOTH_SLASHES)
  }

  predicate AcceptsIdentifier(identifier: string) {
    identifier != "." && identifier != ".." && Free(identifier, BOTH_SLASHES)
  }

  function BuiltKey(request: Request): Result<string, KeyError> {
    var name, identifier := FileName(request), Identifier(request);
    if !AcceptsFileName(name) then Err(InvalidFileID(request.fileID))
    else if !AcceptsIdentifier(identifier) then Err(InvalidTenantSegment(identifier))
    else if identifier == "" then Ok(name)
    else Ok(identifier + "/" + name)
  }

  method ContainsAny(s: string, chars: set<char>) returns (found: bool)
    ensures found <==> !Free(s, chars)
  {
    for i := 0 to |s|
      invariant Free(s[..i], chars)
    {
      if s[i] in chars {
        return true;
      }
      assert s[..i + 1] == s[..i] + [s[i]];
    }
    assert s[..|s|] == s;
    return false;
  }

  /** No slash of either kind, and not one of the two names that stand for directories. */
  predicate Plain(s: string) {
    s != "." && s != ".." && '/' !in s && '\\' !in s
  }

  /**
   Build as the function BuiltKey, and in plain words. A file ID is refused when nothing but
   slashes is in it or a segment of it is a dot or two; a tenant's code, or its ID if the
   code is empty, goes in front of the trimmed file ID and is refused unless it is plain.
   Without a tenant, without either name, and in any other mode, the key is the trimmed
   file ID.
   */
  method Build(request: Request) returns (r: Result<string, KeyError>)
    ensures r == BuiltKey(request)
    ensures
      var name := Trim(request.fileID, '/');
      r == Err(InvalidFileID(request.fileID)) <==>
        Trim(name, '\\') == "" || exists segment :: segment in Fields(name, {'/', '\\'}) && segment in {".", ".."}
    ensures
      r == Err(InvalidFileID(request.fileID)) || (
        var name := Trim(request.fileID, '/');
        match request.tenant
        case Some(Tenant(id, code, _)) =>
          if request.tenantMode == TenantScoped && code != "" then
            r == if Plain(code) then Ok(code + "/" + name) else Err(InvalidTenantSegment(code))
          else if request.tenantMode == TenantScoped && id != "" then
            r == if Plain(id) then Ok(id + "/" + name) else Err(InvalidTenantSegment(id))
          else r == Ok(name)
        case None => r == Ok(name))
  {
    var fileID := Trim(request.fileID, '/');
    if Trim(fileID, '\\') == "" {
      return Err(InvalidFileID(request.fileID));
    }
    var fields := Fields(fileID, BOTH_SLASHES);
    for i := 0 to |fields|
      invariant "." !in fields[..i] && ".." !in fields[..i]
    {
      if fields[i] == "." || fields[i] == ".." {
        return Err(InvalidFileID(request.fileID));
      }
    }
    assert fields[..|fields|] == fields;
    var segments: seq<string> := [];
    if request.tenantMode.TenantScoped? && request.tenant.Some? {
      var identifier := request.tenant.value.code;
      if identifier == "" {
        identifier := request.tenant.value.id;
      }
      if identifier != "" {
        var separated := ContainsAny(identifier, BOTH_SLASHES);
        if identifier == "." || identifier == ".." || separated {
          return Err(InvalidTenantSegment(identifier));
        }
        segments := segments + [identifier];
      }
    }
    segments := segments + [fileID];
    JoinFew(Identifier(request), fileID);
    JoinFew(fileID, "");
    assert segments == if Identifier(request) == "" then [fileID] else [Identifier(request), fileID];
    return Ok(Join(segments));
  }

  lemma {:induction false} TrimRightEnds(s: string, c: char)
    ensures TrimRight(s, c) <= s
    ensures TrimRight(s, c) != "" ==> TrimRight(s, c)[|TrimRight(s, c)| - 1] != c
  {
    if s != "" && s[|s| - 1] == c {
      TrimRightEnds(s[..|s| - 1], c);
    }
  }

  lemma {:induction false} TrimLeftStarts(s: string, c: char)
    ensures TrimLeft(s, c) != "" ==> TrimLeft(s, c)[0] != c
  {
    if s != "" && s[0] == c {
      TrimLeftStarts(s[1..], c);
    }
  }

  /** A trimmed string neither starts nor ends with the trimmed character. */
  lemma TrimEnds(s: string, c: char)
    ensures Trim(s, c) != "" ==> Trim(s, c)[0] != c && Trim(s, c)[|Trim(s, c)| - 1] != c
  {
    TrimLeftStarts(s, c);
    TrimRightEnds(TrimLeft(s, c), c);
  }

  lemma AcceptedNamesAreNotEmpty(name: string)
    requires AcceptsFileName(name)
    ensures name != ""
  {
  }

  /** A separator-free identifier followed by a slash can be read back from the key. */
  lemma FirstSlashSplits(a: string, b: string, x: string, y: string)
    requires Free(a, SLASH) && Free(b, SLASH)
    ensures a + "/" + x == b + "/" + y <==> a == b && x == y
  {
    SplitFree(a, SLASH);
    SplitFree(b, SLASH);
    SplitConcat(a, x, '/', SLASH);
    SplitConcat(b, y, '/', SLASH);
    assert a + "/" + x == a + ['/'] + x && b + "/" + y == b + ['/'] + y;
    assert ([a] + Split(x, SLASH))[0] == a && ([b] + Split(y, SLASH))[0] == b;
    assert (a + "/" + x)[|a| + 1..] == x && (b + "/" + y)[|b| + 1..] == y;
  }

  /** Among requests with a tenant segment, keys identify the tenant and the slash-trimmed file ID. */
  lemma ScopedKeysIdentifyRequests(p: Request, q: Request)
    requires BuiltKey(p).Ok? && BuiltKey(q).Ok? && Identifier(p) != "" && Identifier(q) != ""
    ensures BuiltKey(p) == BuiltKey(q) <==> Identifier(p) == Identifier(q) && FileName(p) == FileName(q)
  {
    FirstSlashSplits(Identifier(p), Identifier(q), FileName(p), FileName(q));
  }
}
