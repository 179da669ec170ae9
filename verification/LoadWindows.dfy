/** A call that misses, leads and reads the source without interruption, and the end of its lead. */
module LoadWindows {
  import opened Wrappers
  import opened ConfigTypes
  import opened CacheModel
  import opened LoaderProtocol
  import opened Schedules

  /** The flight with call id leading for the key; its outcome is what the call holds so far. */
  function LeadAt(f: Flight, id: nat, key: CacheKey, lead: Lead, outcome: Outcome): Flight {
    Flight(f.loaders[id := Loader(key, Leading(lead))], f.loads[key := id], f.calls[id := Call(key, outcome, true)])
  }

  function Miss(id: nat, key: CacheKey): seq<Label> {
    [Arrive(id, key), FirstPeek(id), Elect(id)]
  }

  function ReadSourceOnce(id: nat): seq<Label> {
    [VersionedPeek(id), SourceBegin(id), SourceReads(id, NO_CONFIG)]
  }

  /** From the arrival to the moment before the fill. */
  function OpenWindow(id: nat, key: CacheKey): seq<Label> {
    Miss(id, key) + ReadSourceOnce(id) + [SourceReturns(id)]
  }

  /** The call is new, its key neither cached nor being loaded, and the source has a configuration for it. */
  predicate CanOpen(s: System, id: nat, key: CacheKey) {
    && id !in s.flight.loaders && id !in s.flight.calls
    && key !in s.flight.loads && key !in s.cache.entries && key in s.source
  }

  /** The state in which the call holds the source's configuration and the current token. */
  function Opened(s: System, id: nat, key: CacheKey): System
    requires key in s.source
  {
    var lead := Window(Token(s.cache.version), s.history.mutations, Filling);
    s.(flight := LeadAt(s.flight, id, key, lead, Outcome(s.source[key], None)), history := SourceCalled(s.history, key))
  }

  lemma MissLeads(s: System, id: nat, key: CacheKey)
    requires CanOpen(s, id, key)
    ensures Executable(s, Miss(id, key))
    ensures After(s, Miss(id, key)) ==
      s.(flight := LeadAt(s.flight, id, key, VersionedRead, Outcome(NO_CONFIG, None)))
  {
    var f := s.flight;
    var arrived := s.(flight := f.(loaders := f.loaders[id := Loader(key, FirstRead)]));
    var electing := s.(flight := f.(loaders := f.loaders[id := Loader(key, Electing)]));
    assert Next(s, Arrive(id, key)) == arrived;
    PeekMisses(arrived, f, id, key);
    assert Next(arrived, FirstPeek(id)) == electing;
    ElectionIsWon(electing, f, id, key);
    ThreeSteps(s, Arrive(id, key), FirstPeek(id), Elect(id));
  }

  lemma PeekMisses(s: System, f: Flight, id: nat, key: CacheKey)
    requires s.flight == f.(loaders := f.loaders[id := Loader(key, FirstRead)]) && key !in s.cache.entries
    ensures Enabled(s, FirstPeek(id))
    ensures Next(s, FirstPeek(id)) == s.(flight := f.(loaders := f.loaders[id := Loader(key, Electing)]))
  {
    var electing := Loader(key, Electing);
    assert f.loaders[id := Loader(key, FirstRead)][id := electing] == f.loaders[id := electing];
  }

  lemma ElectionIsWon(s: System, f: Flight, id: nat, key: CacheKey)
    requires s.flight == f.(loaders := f.loaders[id := Loader(key, Electing)]) && key !in f.loads
    ensures Enabled(s, Elect(id))
    ensures Next(s, Elect(id)) == s.(flight := LeadAt(f, id, key, VersionedRead, Outcome(NO_CONFIG, None)))
  {
    var led := Loader(key, Leading(VersionedRead));
    assert f.loaders[id := Loader(key, Electing)][id := led] == f.loaders[id := led];
  }

  /** A leader's step that moves it on and perhaps assigns its outcome. */
  lemma LeadMoves(f: Flight, id: nat, key: CacheKey, from: Lead, to: Lead, held: Outcome, result: Option<Outcome>)
    ensures
      Advance(LeadAt(f, id, key, from, held), id, Leading(to), result) ==
      LeadAt(f, id, key, to, if result.Some? then result.value else held)
  {
    var g, was, led := LeadAt(f, id, key, from, held), Loader(key, Leading(from)), Loader(key, Leading(to));
    assert f.loaders[id := was][id := led] == f.loaders[id := led];
    if result.Some? {
      var before, after := Call(key, held, true), Call(key, result.value, true);
      assert f.calls[id := before][id := after] == f.calls[id := after];
    }
  }

  lemma VersionedMiss(s: System, f: Flight, id: nat, key: CacheKey, held: Outcome)
    requires s.flight == LeadAt(f, id, key, VersionedRead, held) && key !in s.cache.entries
    ensures Enabled(s, VersionedPeek(id))
    ensures Next(s, VersionedPeek(id)) ==
      s.(flight := LeadAt(f, id, key, Window(Token(s.cache.version), s.history.mutations, BeforeSource), held))
  {
    LeadMoves(f, id, key, VersionedRead, Window(Token(s.cache.version), s.history.mutations, BeforeSource), held, None);
  }

  lemma SourceIsCalled(s: System, f: Flight, id: nat, key: CacheKey, token: string, readAt: nat, held: Outcome)
    requires s.flight == LeadAt(f, id, key, Window(token, readAt, BeforeSource), held)
    ensures Enabled(s, SourceBegin(id))
    ensures Next(s, SourceBegin(id)) ==
      s.(flight := LeadAt(f, id, key, Window(token, readAt, InSource), held), history := SourceCalled(s.history, key))
  {
    LeadMoves(f, id, key, Window(token, readAt, BeforeSource), Window(token, readAt, InSource), held, None);
  }

  lemma SourceAnswers(s: System, f: Flight, id: nat, key: CacheKey, token: string, readAt: nat, held: Outcome)
    requires s.flight == LeadAt(f, id, key, Window(token, readAt, InSource), held) && key in s.source
    ensures Enabled(s, SourceReads(id, NO_CONFIG))
    ensures Next(s, SourceReads(id, NO_CONFIG)) ==
      s.(flight := LeadAt(f, id, key, Window(token, readAt, SourceAnswered(Outcome(s.source[key], None))), held))
  {
    var answered := Window(token, readAt, SourceAnswered(Outcome(s.source[key], None)));
    LeadMoves(f, id, key, Window(token, readAt, InSource), answered, held, None);
  }

  lemma AnswerIsHeld(
    s: System, f: Flight, id: nat, key: CacheKey, token: string, readAt: nat, answer: Outcome, held: Outcome
  )
    requires s.flight == LeadAt(f, id, key, Window(token, readAt, SourceAnswered(answer)), held) && answer.err.None?
    ensures Enabled(s, SourceReturns(id))
    ensures Next(s, SourceReturns(id)) == s.(flight := LeadAt(f, id, key, Window(token, readAt, Filling), answer))
  {
    var answered := Window(token, readAt, SourceAnswered(answer));
    LeadMoves(f, id, key, answered, Window(token, readAt, Filling), held, Some(answer));
  }

  lemma LeaderReads(s: System, f: Flight, id: nat, key: CacheKey, held: Outcome)
    requires s.flight == LeadAt(f, id, key, VersionedRead, held) && key !in s.cache.entries && key in s.source
    ensures Executable(s, ReadSourceOnce(id))
    ensures
      var answered := Window(Token(s.cache.version), s.history.mutations, SourceAnswered(Outcome(s.source[key], None)));
      After(s, ReadSourceOnce(id)) ==
        s.(flight := LeadAt(f, id, key, answered, held), history := SourceCalled(s.history, key))
  {
    var token, readAt := Token(s.cache.version), s.history.mutations;
    VersionedMiss(s, f, id, key, held);
    var missed := Next(s, VersionedPeek(id));
    SourceIsCalled(missed, f, id, key, token, readAt, held);
    SourceAnswers(Next(missed, SourceBegin(id)), f, id, key, token, readAt, held);
    ThreeSteps(s, VersionedPeek(id), SourceBegin(id), SourceReads(id, NO_CONFIG));
  }

  lemma {:induction false} WindowOpens(s: System, id: nat, key: CacheKey)
    requires CanOpen(s, id, key)
    ensures Executable(s, OpenWindow(id, key)) && After(s, OpenWindow(id, key)) == Opened(s, id, key)
  {
    var f, held, answer := s.flight, Outcome(NO_CONFIG, None), Outcome(s.source[key], None);
    MissLeads(s, id, key);
    var led := s.(flight := LeadAt(f, id, key, VersionedRead, held));
    LeaderReads(led, f, id, key, held);
    RunsConcatenate(s, Miss(id, key), ReadSourceOnce(id));
    var read := After(led, ReadSourceOnce(id));
    AnswerIsHeld(read, f, id, key, Token(s.cache.version), s.history.mutations, answer, held);
    Extend(s, Miss(id, key) + ReadSourceOnce(id), SourceReturns(id));
  }
}
