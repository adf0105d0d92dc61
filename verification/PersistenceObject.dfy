/**
  The client persistence module as it runs: module variables changed in place. Each method
  is one stretch of the source between two awaits and one step of Persistence, whose invariant
  `Valid` every call keeps.
 */
module PersistenceObject {
  import opened Prelude
  import opened WriteQueue
  import opened RecordCache
  import opened Persistence

  class ClientPersistence {
    var backendInstalled: bool
    var backendGeneration: nat
    var localStorage: map<Key, string>
    var remoteCache: seq<Entry>
    var cacheVersions: map<Key, nat>
    var writeChains: map<Chain, nat>
    var pendingWrites: set<nat>
    var writeErrors: map<Chain, nat>
    /** The write promises, in order of issue, and the hydrations waiting for the store. */
    var writes: seq<Write>
    var progress: seq<Progress>
    var hydrations: map<nat, Read>
    ghost var store: map<Chain, Held>
    ghost var newest: map<Key, Option<string>>

    ghost function Queued(): Queue
      reads this
    {
      Queue(writes, progress, writeChains, pendingWrites, writeErrors, store)
    }

    ghost function Model(): State
      reads this
    {
      State(backendGeneration, backendInstalled, localStorage, Cache(remoteCache, cacheVersions), Queued(),
            hydrations, newest)
    }

    /** A stamped record is cached with the newest local intent. */
    ghost predicate Valid()
      reads this
      ensures Valid() ==> forall k :: k in cacheVersions ==> k in newest && Lookup(remoteCache, k) == Some(newest[k])
    {
      Persistence.Inv(Model())
    }

    twostate predicate Took(e: Event)
      reads this
    {
      Enabled(old(Model()), e) && Model() == Step(old(Model()), e)
    }

    twostate lemma StaysValid(e: Event)
      requires old(Valid()) && Took(e)
      ensures Valid()
    {
      CoherentStep(old(Model()), e);
      QueueStep(old(Model()), e);
    }

    constructor ()
      ensures Model() == INITIAL
    {
      backendInstalled, backendGeneration, localStorage := false, 0, map[];
      remoteCache, cacheVersions := [], map[];
      writeChains, pendingWrites, writeErrors := map[], {}, map[];
      writes, progress, hydrations := [], [], map[];
      store, newest := map[], map[];
    }

    method SetClientPersistenceBackend(installed: bool)
      modifies this
      ensures Took(DoInstall(installed))
    {
      backendGeneration := backendGeneration + 1;
      backendInstalled := installed;
      remoteCache := [];
      cacheVersions := map[];
      writeChains := map[];
      writeErrors := map[];
      newest := map[];
    }

    // ---- the working copy --------------------------------------------------------------

    method CacheSet(key: Key, value: Option<string>)
      modifies this
      ensures Model() == old(Model()).(cache := Put(old(Model()).cache, key, value))
    {
      remoteCache := Without(remoteCache, key) + [Entry(key, value)];
      ghost var full := Cache(remoteCache, cacheVersions);
      while |remoteCache| > MAX_REMOTE_CACHE_ENTRIES
        invariant Trim(Cache(remoteCache, cacheVersions)) == Trim(full)
        invariant Model() == old(Model()).(cache := Cache(remoteCache, cacheVersions))
      {
        var oldest := remoteCache[0].key;
        remoteCache := remoteCache[1..];
        cacheVersions := cacheVersions - {oldest};
      }
    }

    method CacheGet(key: Key) returns (value: Option<string>)
      modifies this
      ensures Model() == old(Model()).(cache := Touch(old(Model()).cache, key))
      ensures value == match Lookup(old(remoteCache), key) case Some(v) => v case None => None
    {
      var cached := Lookup(remoteCache, key);
      if cached.None? {
        return None;
      }
      value := cached.value;
      CacheSet(key, value);
    }

    // ---- the write chains ----------------------------------------------------------------

    method QueueWrite(key: Key, value: Option<string>, barrier: bool)
      modifies this
      ensures Model() == old(Model()).(queue := Issue(old(Model()).queue, Chain(old(backendGeneration), key), value, barrier))
    {
      var chain := Chain(backendGeneration, key);
      var prior := if chain in writeChains then Some(writeChains[chain]) else None;
      var write := |writes|;
      writes := writes + [Write(chain, value, barrier, prior)];
      progress := progress + [Progress(Waiting, false, false)];
      writeChains := writeChains[chain := write];
      if barrier {
        pendingWrites := pendingWrites + {write};
      }
    }

    /** What the chained operation does on its own: it starts once the one before it is done, its
        value reaches the store, and it settles. */
    method OperationMoves(w: nat, e: Event)
      requires e == OnStart(w) || e == OnLand(w) || (e.OnSettle? && e.w == w)
      requires Enabled(Model(), e)
      modifies this
      ensures Took(e)
    {
      if e.OnStart? {
        progress := progress[w := progress[w].(stage := Running)];
      } else if e.OnLand? {
        progress := progress[w := progress[w].(landed := true)];
        store := store[writes[w].chain := Held(writes[w].value, w)];
      } else {
        progress := progress[w := progress[w].(stage := Settled, ok := e.ok)];
      }
    }

    /** The settlement handlers: only a barrier write of the current generation speaks. */
    method SettlementHandled(w: nat)
      requires At(Queued(), w, Settled)
      modifies this
      ensures Took(OnRecord(w))
    {
      var chain := writes[w].chain;
      if writes[w].barrier && chain.generation == backendGeneration {
        if progress[w].ok {
          writeErrors := writeErrors - {chain};
        } else {
          writeErrors := writeErrors[chain := w];
        }
      }
      progress := progress[w := progress[w].(stage := Recorded)];
    }

    method FinallyRuns(w: nat)
      requires At(Queued(), w, Recorded)
      modifies this
      ensures Took(OnFinish(w))
    {
      var chain := writes[w].chain;
      if writes[w].barrier {
        pendingWrites := pendingWrites - {w};
      }
      if chain in writeChains && writeChains[chain] == w {
        writeChains := writeChains - {chain};
      }
      progress := progress[w := progress[w].(stage := Done)];
    }

    /** The flush after its waits: None while it goes on waiting, or whether it returns. */
    method FlushOutcome() returns (outcome: Option<bool>)
      ensures outcome == None <==> pendingWrites != {}
      ensures outcome == Some(true) <==> FlushReturns(Queued())
    {
      if pendingWrites != {} {
        return None;
      }
      outcome := Some(writeErrors == map[]);
    }

    // ---- records -----------------------------------------------------------------------------

    method ReadClientRecord(key: Key) returns (value: Option<string>)
      modifies this
      ensures Took(DoRead(key)) && value == ReadValue(old(Model()), key)
    {
      if !backendInstalled {
        return if key in localStorage then Some(localStorage[key]) else None;
      }
      value := CacheGet(key);
    }

    method LocalSet(key: Key, value: Option<string>, ok: bool)
      modifies this
      ensures Model() == old(Model()).(local := Stored(old(localStorage), key, value, ok))
    {
      if ok {
        localStorage := if value.Some? then localStorage[key := value.value] else localStorage - {key};
      }
    }

    /** writeClientRecord, writeClientPreference and removeClientRecord. */
    method WriteRecord(key: Key, value: Option<string>, barrier: bool, ok: bool)
      requires value.None? ==> barrier
      modifies this
      ensures Took(DoIntend(key, value, barrier, ok))
    {
      if !backendInstalled {
        LocalSet(key, value, ok);
        return;
      }
      newest := newest[key := value];
      cacheVersions := cacheVersions[key := (if key in cacheVersions then cacheVersions[key] else 0) + 1];
      CacheSet(key, value);
      QueueWrite(key, value, barrier);
    }

    /** hydrateClientRecord up to its await; a cached record answers at once. */
    method BeginHydrate(ticket: nat, key: Key) returns (answer: Option<Option<string>>)
      requires ticket !in hydrations
      modifies this
      ensures answer.Some? <==> !old(ReadsThrough(Model(), key))
      ensures answer.Some? ==> Took(DoRead(key)) && answer.value == ReadValue(old(Model()), key)
      ensures answer.None? ==> Took(DoBeginRead(ticket, key))
    {
      if !backendInstalled || Lookup(remoteCache, key).Some? {
        var value := ReadClientRecord(key);
        return Some(value);
      }
      var version := if key in cacheVersions then cacheVersions[key] else 0;
      hydrations := hydrations[ticket := Read(key, version, backendGeneration)];
      answer := None;
    }

    method EndHydrate(ticket: nat, value: Option<string>) returns (result: Option<string>)
      requires ticket in hydrations
      modifies this
      ensures Took(OnRead(ticket, value)) && result == ReadResult(old(Model()), ticket, value)
    {
      var read := hydrations[ticket];
      hydrations := hydrations - {ticket};
      var version := if read.key in cacheVersions then cacheVersions[read.key] else 0;
      if version != read.version {
        result := CacheGet(read.key);
        return;
      }
      CacheSet(read.key, value);
      result := value;
    }
  }
}
