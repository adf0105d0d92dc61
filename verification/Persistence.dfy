/**
  The client persistence seam as a whole: the working copy, the write chains behind it and
  the hydrations in flight, under every order of settlements and backend replacements.
 */
module Persistence {
  import opened Prelude
  import opened WriteQueue
  import opened RecordCache

  /** A hydration waiting for the native store: the stamp it saw when it began. */
  datatype Read = Read(key: Key, version: nat, generation: nat)

  /** `newest` is the specification's own record: the last local write or removal of each
      record within the current backend generation, kept whether or not it stays cached. */
  datatype State = State(
    generation: nat, installed: bool, local: map<Key, string>, cache: Cache, queue: Queue,
    hydrations: map<nat, Read>, newest: map<Key, Option<string>>)

  const INITIAL := State(0, false, map[], Cache([], map[]), EMPTY, map[], map[])

  // ---- steps --------------------------------------------------------------------

  function Install(s: State, installed: bool): State {
    State(s.generation + 1, installed, s.local, Cache([], map[]), Replace(s.queue), s.hydrations, map[])
  }

  function Stored(local: map<Key, string>, key: Key, value: Option<string>, ok: bool): map<Key, string> {
    if !ok then local else match value case Some(v) => local[key := v] case None => local - {key}
  }

  /** writeRecord and removeClientRecord; a removal is always a barrier write. `ok` is
      whether the browser's own storage accepted it. */
  function Intend(s: State, key: Key, value: Option<string>, barrier: bool, ok: bool): State {
    if !s.installed then s.(local := Stored(s.local, key, value, ok))
    else s.(cache := Put(Stamp(s.cache, key), key, value),
            queue := Issue(s.queue, Chain(s.generation, key), value, barrier),
            newest := s.newest[key := value])
  }

  /** readClientRecord: what it returns, and the recency it leaves. */
  function ReadValue(s: State, key: Key): Option<string> {
    if !s.installed then (if key in s.local then Some(s.local[key]) else None)
    else match Lookup(s.cache.entries, key) case Some(v) => v case None => None
  }

  function Touch(c: Cache, key: Key): Cache {
    match Lookup(c.entries, key) case Some(v) => Put(c, key, v) case None => c
  }

  function AfterRead(s: State, key: Key): State {
    if !s.installed then s else s.(cache := Touch(s.cache, key))
  }

  predicate ReadsThrough(s: State, key: Key) {
    s.installed && Lookup(s.cache.entries, key).None?
  }

  /** hydrateClientRecord up to its await. */
  function BeginRead(s: State, ticket: nat, key: Key): State
    requires ReadsThrough(s, key)
  {
    s.(hydrations := s.hydrations[ticket := Read(key, if key in s.cache.versions then s.cache.versions[key] else 0, s.generation)])
  }

  predicate Newer(s: State, r: Read) {
    (if r.key in s.cache.versions then s.cache.versions[r.key] else 0) != r.version
  }

  /** ... and from there on: a record written meanwhile keeps its newer value. */
  function ReadResult(s: State, ticket: nat, value: Option<string>): Option<string>
    requires ticket in s.hydrations
  {
    var r := s.hydrations[ticket];
    if !Newer(s, r) then value
    else match Lookup(s.cache.entries, r.key) case Some(v) => v case None => None
  }

  function EndRead(s: State, ticket: nat, value: Option<string>): State
    requires ticket in s.hydrations
  {
    var r := s.hydrations[ticket];
    s.(hydrations := s.hydrations - {ticket},
       cache := if Newer(s, r) then Touch(s.cache, r.key) else Put(s.cache, r.key, value))
  }

  datatype Event =
    | DoInstall(installed: bool)
    | DoIntend(key: Key, value: Option<string>, barrier: bool, ok: bool)
    | DoRead(key: Key)
    | DoBeginRead(ticket: nat, key: Key)
    | OnRead(ticket: nat, value: Option<string>)
    | OnReadFailed(ticket: nat)
    | OnStart(w: nat) | OnLand(w: nat) | OnSettle(w: nat, ok: bool) | OnRecord(w: nat) | OnFinish(w: nat)

  predicate Enabled(s: State, e: Event) {
    match e
    case DoInstall(_) => true
    case DoIntend(_, value, barrier, _) => value.None? ==> barrier
    case DoRead(_) => true
    case DoBeginRead(ticket, key) => ticket !in s.hydrations && ReadsThrough(s, key)
    case OnRead(ticket, _) => ticket in s.hydrations
    case OnReadFailed(ticket) => ticket in s.hydrations
    case OnStart(w) => CanStart(s.queue, w)
    case OnLand(w) => At(s.queue, w, Running) && !s.queue.progress[w].landed
    case OnSettle(w, ok) => At(s.queue, w, Running) && (ok ==> s.queue.progress[w].landed)
    case OnRecord(w) => At(s.queue, w, Settled)
    case OnFinish(w) => At(s.queue, w, Recorded)
  }

  function Step(s: State, e: Event): State
    requires Enabled(s, e)
  {
    match e
    case DoInstall(installed) => Install(s, installed)
    case DoIntend(key, value, barrier, ok) => Intend(s, key, value, barrier, ok)
    case DoRead(key) => AfterRead(s, key)
    case DoBeginRead(ticket, key) => BeginRead(s, ticket, key)
    case OnRead(ticket, value) => EndRead(s, ticket, value)
    case OnReadFailed(ticket) => s.(hydrations := s.hydrations - {ticket})
    case OnStart(w) => s.(queue := Start(s.queue, w))
    case OnLand(w) => s.(queue := Land(s.queue, w))
    case OnSettle(w, ok) => s.(queue := Settle(s.queue, w, ok))
    case OnRecord(w) => s.(queue := Record(s.queue, s.generation, w))
    case OnFinish(w) => s.(queue := Finish(s.queue, w))
  }

  predicate Possible(s: State, run: seq<Event>)
    decreases |run|
  {
    run == [] || (Enabled(s, run[0]) && Possible(Step(s, run[0]), run[1..]))
  }

  function After(s: State, run: seq<Event>): State
    requires Possible(s, run)
    decreases |run|
  {
    if run == [] then s else After(Step(s, run[0]), run[1..])
  }

  // ---- the invariant ------------------------------------------------------------------

  /** A stamped record is cached with the newest local intent. */
  ghost predicate Agrees(c: Cache, newest: map<Key, Option<string>>) {
    forall k :: k in c.versions ==> k in newest && Lookup(c.entries, k) == Some(newest[k])
  }

  ghost predicate ReadsUnstamped(hydrations: map<nat, Read>) {
    forall t :: t in hydrations ==> hydrations[t].version == 0
  }

  ghost predicate Coherent(s: State) {
    Bounded(s.cache) && Agrees(s.cache, s.newest) && ReadsUnstamped(s.hydrations)
  }

  ghost predicate Inv(s: State) {
    Coherent(s) && WriteQueue.Inv(s.queue, s.generation)
  }

  lemma TouchKeeps(c: Cache, newest: map<Key, Option<string>>, key: Key)
    requires Bounded(c) && Agrees(c, newest)
    ensures Bounded(Touch(c, key)) && Agrees(Touch(c, key), newest)
    ensures Lookup(Touch(c, key).entries, key) == Lookup(c.entries, key)
    ensures key in c.versions ==> key in Touch(c, key).versions
  {
    var v := Lookup(c.entries, key);
    if v.Some? {
      PutFacts(c, key, v.value);
    }
  }

  lemma IntendKeeps(c: Cache, newest: map<Key, Option<string>>, key: Key, value: Option<string>)
    requires Bounded(c) && Agrees(c, newest)
    ensures var d := Put(Stamp(c, key), key, value);
            Bounded(d) && Agrees(d, newest[key := value]) && key in d.versions
  {
    var stamped := Stamp(c, key);
    PutFacts(stamped, key, value);
    var d := Put(stamped, key, value);
    forall k | k in d.versions ensures k in newest[key := value] && Lookup(d.entries, k) == Some(newest[key := value][k]) {
      assert Has(d.entries, k);
      assert k != key ==> k in c.versions;
    }
  }

  lemma FillKeeps(c: Cache, newest: map<Key, Option<string>>, key: Key, value: Option<string>)
    requires Bounded(c) && Agrees(c, newest) && key !in c.versions
    ensures Bounded(Put(c, key, value)) && Agrees(Put(c, key, value), newest) && key !in Put(c, key, value).versions
    ensures Lookup(Put(c, key, value).entries, key) == Some(value)
  {
    PutFacts(c, key, value);
  }

  lemma CoherentStep(s: State, e: Event)
    requires Coherent(s) && Enabled(s, e)
    ensures Coherent(Step(s, e))
  {
    match e
    case DoIntend(key, value, _, _) =>
      if s.installed {
        IntendKeeps(s.cache, s.newest, key, value);
      }
    case DoRead(key) => TouchKeeps(s.cache, s.newest, key);
    case OnRead(ticket, value) =>
      var r := s.hydrations[ticket];
      if Newer(s, r) {
        TouchKeeps(s.cache, s.newest, r.key);
      } else {
        FillKeeps(s.cache, s.newest, r.key, value);
      }
    case _ =>
  }

  lemma QueueStep(s: State, e: Event)
    requires WriteQueue.Inv(s.queue, s.generation) && Enabled(s, e)
    ensures WriteQueue.Inv(Step(s, e).queue, Step(s, e).generation)
  {
    match e
    case DoInstall(_) => ReplaceKeeps(s.queue, s.generation);
    case DoIntend(key, value, barrier, _) =>
      if s.installed {
        IssueKeeps(s.queue, s.generation, key, value, barrier);
      }
    case OnStart(w) => StartKeeps(s.queue, s.generation, w);
    case OnLand(w) => LandKeeps(s.queue, s.generation, w);
    case OnSettle(w, ok) => SettleKeeps(s.queue, s.generation, w, ok);
    case OnRecord(w) => RecordKeeps(s.queue, s.generation, w);
    case OnFinish(w) => FinishKeeps(s.queue, s.generation, w);
    case _ =>
  }

  /** From the empty module state, every run keeps the invariant, so at every moment the
      write chains are ordered, the ledger is exact and the working copy is coherent. */
  lemma {:induction false} Always(s: State, run: seq<Event>)
    requires Inv(s) && Possible(s, run)
    ensures Inv(After(s, run))
    decreases |run|
  {
    if run != [] {
      CoherentStep(s, run[0]);
      QueueStep(s, run[0]);
      Always(Step(s, run[0]), run[1..]);
    }
  }

  lemma InitialHolds()
    ensures Inv(INITIAL)
  {
  }

  // ---- what readers see ------------------------------------------------------------------

  /** The record was written in this generation and has stayed cached since. */
  ghost predicate Kept(s: State, key: Key) {
    key in s.cache.versions
  }

  /** While a record is stamped, reading it gives the newest local intent. */
  lemma ReadsNewestIntent(s: State, key: Key)
    requires Inv(s) && s.installed && Kept(s, key)
    ensures key in s.newest && ReadValue(s, key) == s.newest[key]
    ensures ReadValue(AfterRead(s, key), key) == s.newest[key]
  {
    TouchKeeps(s.cache, s.newest, key);
  }

  /** Nothing but an eviction or another backend takes a stamp away. */
  lemma StampStays(s: State, e: Event, key: Key)
    requires Inv(s) && Enabled(s, e) && Kept(s, key) && !e.DoInstall? && Has(Step(s, e).cache.entries, key)
    ensures Kept(Step(s, e), key) && Step(s, e).installed == s.installed
  {
    match e
    case DoIntend(k, value, _, _) =>
      if s.installed {
        PutFacts(Stamp(s.cache, k), k, value);
      }
    case DoRead(k) =>
      if Lookup(s.cache.entries, k).Some? {
        PutFacts(s.cache, k, Lookup(s.cache.entries, k).value);
      }
    case OnRead(ticket, value) =>
      var r := s.hydrations[ticket];
      if !Newer(s, r) {
        PutFacts(s.cache, r.key, value);
      } else if Lookup(s.cache.entries, r.key).Some? {
        PutFacts(s.cache, r.key, Lookup(s.cache.entries, r.key).value);
      }
    case _ =>
  }

  predicate WritesKey(s: State, e: Event, key: Key) {
    e.DoIntend? && e.key == key && s.installed
  }

  /** A stamp is only ever made by a local write or removal of the record. */
  lemma StampExact(s: State, e: Event, key: Key)
    requires Inv(s) && Enabled(s, e)
    ensures Kept(Step(s, e), key) <==>
            (Kept(s, key) || WritesKey(s, e, key)) && !e.DoInstall? && Has(Step(s, e).cache.entries, key)
  {
    CoherentStep(s, e);
    if Kept(s, key) && !e.DoInstall? && Has(Step(s, e).cache.entries, key) {
      StampStays(s, e, key);
    }
    match e
    case DoIntend(k, value, _, _) =>
      if s.installed {
        PutFacts(Stamp(s.cache, k), k, value);
      }
    case DoRead(k) =>
      if Lookup(s.cache.entries, k).Some? {
        PutFacts(s.cache, k, Lookup(s.cache.entries, k).value);
      }
    case OnRead(ticket, value) =>
      var r := s.hydrations[ticket];
      if !Newer(s, r) {
        PutFacts(s.cache, r.key, value);
      } else if Lookup(s.cache.entries, r.key).Some? {
        PutFacts(s.cache, r.key, Lookup(s.cache.entries, r.key).value);
      }
    case _ =>
  }

  /** The record was written at some step and cached after that and every later one, under one
      backend; `written` says whether that is so at the start. */
  ghost predicate CachedSinceWritten(s: State, run: seq<Event>, key: Key, written: bool)
    requires Possible(s, run)
    decreases |run|
  {
    if run == [] then written
    else
      var t := Step(s, run[0]);
      CachedSinceWritten(t, run[1..], key,
        (written || WritesKey(s, run[0], key)) && !run[0].DoInstall? && Has(t.cache.entries, key))
  }

  /** So a record is stamped exactly while it has been cached since it was written. */
  lemma {:induction false} KeptExact(s: State, run: seq<Event>, key: Key)
    requires Inv(s) && Possible(s, run)
    ensures Inv(After(s, run))
    ensures Kept(After(s, run), key) <==> CachedSinceWritten(s, run, key, Kept(s, key))
    decreases |run|
  {
    if run != [] {
      CoherentStep(s, run[0]);
      QueueStep(s, run[0]);
      StampExact(s, run[0], key);
      KeptExact(Step(s, run[0]), run[1..], key);
    }
  }

  /** After any run, a record cached since it was last written or removed reads as the newest
      local intent. */
  lemma CachedReadsNewest(run: seq<Event>, key: Key)
    requires Possible(INITIAL, run) && After(INITIAL, run).installed && CachedSinceWritten(INITIAL, run, key, false)
    ensures var s := After(INITIAL, run); key in s.newest && ReadValue(s, key) == s.newest[key]
  {
    InitialHolds();
    KeptExact(INITIAL, run, key);
    ReadsNewestIntent(After(INITIAL, run), key);
  }

  /** A hydration that ends late returns and leaves the newest local intent exactly when the
      record is stamped, or the store already agreed with it. */
  lemma LateReadExact(s: State, ticket: nat, value: Option<string>)
    requires Inv(s) && ticket in s.hydrations && s.hydrations[ticket].key in s.newest
    ensures var key := s.hydrations[ticket].key;
            && (ReadResult(s, ticket, value) == s.newest[key] <==> Kept(s, key) || value == s.newest[key])
            && (s.installed ==>
                  (ReadValue(EndRead(s, ticket, value), key) == s.newest[key] <==> Kept(s, key) || value == s.newest[key]))
  {
    var r := s.hydrations[ticket];
    if Newer(s, r) {
      TouchKeeps(s.cache, s.newest, r.key);
    } else {
      FillKeeps(s.cache, s.newest, r.key, value);
    }
  }

  /** Over runs: after any run, a late answer leaves the newest local intent alone exactly when the
      record was cached ever since it was written, or the answer says the same. */
  lemma LateReadOverRuns(run: seq<Event>, ticket: nat, value: Option<string>)
    requires Possible(INITIAL, run) && ticket in After(INITIAL, run).hydrations
    requires After(INITIAL, run).hydrations[ticket].key in After(INITIAL, run).newest
    ensures var s := After(INITIAL, run);
            var key := s.hydrations[ticket].key;
            ReadResult(s, ticket, value) == s.newest[key] <==>
              CachedSinceWritten(INITIAL, run, key, false) || value == s.newest[key]
  {
    InitialHolds();
    KeptExact(INITIAL, run, After(INITIAL, run).hydrations[ticket].key);
    LateReadExact(After(INITIAL, run), ticket, value);
  }

  /** Writing, then hearing an older read, keeps the write. */
  lemma WriteBeatsRead(s: State, ticket: nat, older: Option<string>, value: Option<string>, barrier: bool)
    requires Inv(s) && s.installed && ticket in s.hydrations
    ensures var key := s.hydrations[ticket].key;
            var d := Intend(s, key, value, barrier, true);
            ReadResult(d, ticket, older) == value && ReadValue(EndRead(d, ticket, older), key) == value
  {
    var key := s.hydrations[ticket].key;
    var d := Intend(s, key, value, barrier, true);
    IntendKeeps(s.cache, s.newest, key, value);
    TouchKeeps(d.cache, d.newest, key);
  }

  /** The generation is not checked: what a read begun under an earlier backend leaves depends on
      the stamp alone. Without one its answer is cached, over whatever the new backend had
      answered; with one the newest local intent stays. */
  lemma OldBackendLeaksExact(s: State, ticket: nat, value: Option<string>)
    requires Inv(s) && ticket in s.hydrations && s.hydrations[ticket].generation != s.generation
    ensures var key := s.hydrations[ticket].key;
            var cached := Lookup(EndRead(s, ticket, value).cache.entries, key);
            && (!Kept(s, key) ==> cached == Some(value))
            && (Kept(s, key) ==> key in s.newest && cached == Some(s.newest[key]))
            && (cached == Some(value) <==> !Kept(s, key) || s.newest[key] == value)
  {
    var key := s.hydrations[ticket].key;
    if Kept(s, key) {
      TouchKeeps(s.cache, s.newest, key);
    } else {
      FillKeeps(s.cache, s.newest, key, value);
    }
  }

  /** The old answer overwrites what the new backend has just answered. */
  lemma OldBackendOverwrites(key: Key, older: string, newer: string)
    requires older != newer
    ensures var run := [DoInstall(true), DoBeginRead(0, key), DoInstall(true), DoBeginRead(1, key),
                        OnRead(1, Some(newer)), OnRead(0, Some(older))];
            && Possible(INITIAL, run) && ReadValue(After(INITIAL, run), key) == Some(older)
            && Possible(INITIAL, run[..5]) && ReadValue(After(INITIAL, run[..5]), key) == Some(newer)
  {
    var run := [DoInstall(true), DoBeginRead(0, key), DoInstall(true), DoBeginRead(1, key),
                OnRead(1, Some(newer)), OnRead(0, Some(older))];
    var a := Install(INITIAL, true);
    assert Lookup(a.cache.entries, key).None?;
    var b := BeginRead(a, 0, key);
    var c := Install(b, true);
    assert Lookup(c.cache.entries, key).None?;
    var d := BeginRead(c, 1, key);
    var f := EndRead(d, 1, Some(newer));
    var g := EndRead(f, 0, Some(older));
    InitialHolds();
    ReadsOf(d, 1, Some(newer));
    ReadsOf(f, 0, Some(older));
    RunOn(f, [], OnRead(0, Some(older)), g);
    RunOn(d, [OnRead(0, Some(older))], OnRead(1, Some(newer)), g);
    RunOn(d, [], OnRead(1, Some(newer)), f);
    RunOn(c, [OnRead(1, Some(newer)), OnRead(0, Some(older))], DoBeginRead(1, key), g);
    RunOn(c, [OnRead(1, Some(newer))], DoBeginRead(1, key), f);
    RunOn(b, run[3..], DoInstall(true), g);
    RunOn(b, run[3..5], DoInstall(true), f);
    RunOn(a, run[2..], DoBeginRead(0, key), g);
    RunOn(a, run[2..5], DoBeginRead(0, key), f);
    RunOn(INITIAL, run[1..], DoInstall(true), g);
    RunOn(INITIAL, run[1..5], DoInstall(true), f);
    assert run[..5] == [DoInstall(true)] + run[1..5];
  }

  lemma ReadsOf(s: State, ticket: nat, value: Option<string>)
    requires s.installed && ticket in s.hydrations && s.hydrations[ticket].version == 0 && s.cache.versions == map[]
    requires Distinct(s.cache.entries) && |s.cache.entries| <= 1
    ensures var d := EndRead(s, ticket, value);
            && ReadValue(d, s.hydrations[ticket].key) == value && d.cache.versions == map[]
            && Distinct(d.cache.entries)
  {
    PutFacts(s.cache, s.hydrations[ticket].key, value);
    PutShape(s.cache, s.hydrations[ticket].key, value);
  }

  lemma RunOn(s: State, rest: seq<Event>, e: Event, end: State)
    requires Enabled(s, e) && Possible(Step(s, e), rest) && After(Step(s, e), rest) == end
    ensures Possible(s, [e] + rest) && After(s, [e] + rest) == end
  {
    assert ([e] + rest)[1..] == rest;
  }

  /** Such a run: a read begins, the backend is replaced, and the old answer arrives. */
  lemma OldBackendLeaks(key: Key, value: string)
    ensures var run := [DoInstall(true), DoBeginRead(0, key), DoInstall(true), OnRead(0, Some(value))];
            Possible(INITIAL, run) && ReadValue(After(INITIAL, run), key) == Some(value)
  {
    var run := [DoInstall(true), DoBeginRead(0, key), DoInstall(true), OnRead(0, Some(value))];
    var a := Install(INITIAL, true);
    assert Lookup(a.cache.entries, key).None?;
    var b := BeginRead(a, 0, key);
    var c := Install(b, true);
    var d := EndRead(c, 0, Some(value));
    assert d.cache == Put(Cache([], map[]), key, Some(value));
    PutShape(Cache([], map[]), key, Some(value));
    assert d.cache.entries == [Entry(key, Some(value))];
    assert Possible(d, run[1..][1..][1..][1..]);
    assert Possible(c, run[1..][1..][1..]);
    assert Possible(b, run[1..][1..]);
    assert Possible(a, run[1..]);
    assert After(b, run[1..][1..]) == After(c, run[1..][1..][1..]) == d;
    assert After(INITIAL, run) == After(a, run[1..]) == After(b, run[1..][1..]);
  }
}
