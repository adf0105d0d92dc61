/**
  From what callers ask for to what the store holds: the intents of a run, the writes queued for
  them, and what a flush that returns has made durable.
 */
module PersistenceIntents {
  import opened Prelude
  import opened WriteQueue
  import opened RecordCache
  import opened Persistence

  /** A local write or removal that reached the backend, with the generation it belongs to. */
  datatype Intent = Intent(chain: Chain, value: Option<string>, barrier: bool)

  /** The intents of a run, read off its events. */
  ghost function Intents(generation: nat, installed: bool, run: seq<Event>): seq<Intent>
    decreases |run|
  {
    if run == [] then []
    else match run[0]
      case DoInstall(next) => Intents(generation + 1, next, run[1..])
      case DoIntend(key, value, barrier, _) =>
        (if installed then [Intent(Chain(generation, key), value, barrier)] else []) + Intents(generation, installed, run[1..])
      case _ => Intents(generation, installed, run[1..])
  }

  function Queued(writes: seq<Write>): seq<Intent> {
    seq(|writes|, i requires 0 <= i < |writes| => Intent(writes[i].chain, writes[i].value, writes[i].barrier))
  }

  lemma StepQueues(s: State, e: Event)
    requires Enabled(s, e)
    ensures Queued(Step(s, e).queue.writes) == Queued(s.queue.writes) + Intents(s.generation, s.installed, [e])
  {
    assert [e][1..] == [];
  }

  /** What is queued over a run is exactly what was asked for, in order: its record, its value or
      removal, and whether a flush waits for it. */
  lemma {:induction false} QueuedAreIntents(s: State, run: seq<Event>)
    requires Possible(s, run)
    ensures Queued(After(s, run).queue.writes) == Queued(s.queue.writes) + Intents(s.generation, s.installed, run)
    decreases |run|
  {
    if run != [] {
      var t := Step(s, run[0]);
      StepQueues(s, run[0]);
      QueuedAreIntents(t, run[1..]);
      FirstIntents(s.generation, s.installed, run);
      assert t.generation == (if run[0].DoInstall? then s.generation + 1 else s.generation);
      assert t.installed == (if run[0].DoInstall? then run[0].installed else s.installed);
    }
  }

  lemma FirstIntents(generation: nat, installed: bool, run: seq<Event>)
    requires run != []
    ensures Intents(generation, installed, run) == Intents(generation, installed, [run[0]])
              + Intents(if run[0].DoInstall? then generation + 1 else generation,
                        if run[0].DoInstall? then run[0].installed else installed, run[1..])
  {
    assert [run[0]][1..] == [];
  }

  /** The last intent for a record. */
  predicate LastOf(intents: seq<Intent>, chain: Chain, n: nat) {
    n < |intents| && intents[n].chain == chain && forall m :: n < m < |intents| ==> intents[m].chain != chain
  }

  /** `newest` is the last intent of each record in this generation. */
  ghost predicate NewestOf(newest: map<Key, Option<string>>, intents: seq<Intent>, generation: nat) {
    && (forall k :: k in newest ==> exists n: nat :: LastOf(intents, Chain(generation, k), n))
    && (forall k: Key, n: nat :: NewestAt(newest, intents, generation, k, n))
  }

  predicate NewestAt(newest: map<Key, Option<string>>, intents: seq<Intent>, generation: nat, k: Key, n: nat) {
    LastOf(intents, Chain(generation, k), n) ==> k in newest && newest[k] == intents[n].value
  }

  lemma IntentAppended(newest: map<Key, Option<string>>, before: seq<Intent>, generation: nat, key: Key, intent: Intent,
                       newest': map<Key, Option<string>>, after: seq<Intent>)
    requires NewestOf(newest, before, generation) && intent.chain == Chain(generation, key)
    requires after == before + [intent] && newest' == newest[key := intent.value]
    ensures NewestOf(newest', after, generation)
  {
    forall k | k in newest' ensures exists n: nat :: LastOf(after, Chain(generation, k), n) {
      if k == key {
        assert LastOf(after, Chain(generation, k), |before|);
      } else {
        var n: nat :| LastOf(before, Chain(generation, k), n);
        assert LastOf(after, Chain(generation, k), n);
      }
    }
    forall k: Key, n: nat ensures NewestAt(newest', after, generation, k, n) {
      if LastOf(after, Chain(generation, k), n) {
        LastBefore(before, intent, after, Chain(generation, k), n);
        assert NewestAt(newest, before, generation, k, n);
      }
    }
  }

  lemma LastBefore(before: seq<Intent>, intent: Intent, after: seq<Intent>, chain: Chain, n: nat)
    requires after == before + [intent] && LastOf(after, chain, n)
    ensures if chain == intent.chain then n == |before| && after[n] == intent else LastOf(before, chain, n) && after[n] == before[n]
  {
    assert after[|before|] == intent;
    forall m | n < m < |before| ensures before[m].chain != chain {
      assert after[m] == before[m];
    }
  }

  lemma NewGeneration(intents: seq<Intent>, generation: nat)
    requires forall i :: 0 <= i < |intents| ==> intents[i].chain.generation < generation
    ensures NewestOf(map[], intents, generation)
  {
    forall k: Key, n: nat ensures NewestAt(map[], intents, generation, k, n) {
    }
  }

  lemma NewestStep(s: State, e: Event)
    requires Persistence.Inv(s) && Enabled(s, e) && NewestOf(s.newest, Queued(s.queue.writes), s.generation)
    ensures NewestOf(Step(s, e).newest, Queued(Step(s, e).queue.writes), Step(s, e).generation)
  {
    StepQueues(s, e);
    if e.DoInstall? {
      NewGeneration(Queued(s.queue.writes), s.generation + 1);
      assert Queued(s.queue.writes) + [] == Queued(s.queue.writes);
    } else if e.DoIntend? && s.installed {
      var intent := Intent(Chain(s.generation, e.key), e.value, e.barrier);
      assert [e][1..] == [] && Intents(s.generation, s.installed, [e]) == [intent];
      IntentAppended(s.newest, Queued(s.queue.writes), s.generation, e.key, intent, Step(s, e).newest, Queued(Step(s, e).queue.writes));
    } else {
      assert Step(s, e).queue.writes == s.queue.writes && Step(s, e).newest == s.newest;
    }
  }

  lemma {:induction false} NewestAlways(s: State, run: seq<Event>)
    requires Persistence.Inv(s) && NewestOf(s.newest, Queued(s.queue.writes), s.generation) && Possible(s, run)
    ensures Persistence.Inv(After(s, run))
    ensures NewestOf(After(s, run).newest, Queued(After(s, run).queue.writes), After(s, run).generation)
    decreases |run|
  {
    if run != [] {
      CoherentStep(s, run[0]);
      QueueStep(s, run[0]);
      NewestStep(s, run[0]);
      NewestAlways(Step(s, run[0]), run[1..]);
    }
  }

  /** When a flush returns, the store holds the last value asked for of every record that was last
      written with a barrier, and it is what readers are promised. */
  lemma FlushStoresIntents(run: seq<Event>, key: Key, n: nat)
    requires Possible(INITIAL, run) && FlushReturns(After(INITIAL, run).queue)
    requires LastBarrierIntent(run, After(INITIAL, run).generation, key, n)
    ensures Holds(After(INITIAL, run), key, Intents(0, false, run)[n].value)
  {
    var s, intents := After(INITIAL, run), Intents(0, false, run);
    FromTheStart(run);
    NewestIs(s.newest, intents, s.generation, key, n);
    LastIsDurable(s.queue, s.generation, intents, Chain(s.generation, key), n);
  }

  /** The last intent for the record is the `n`-th, and a flush waits for it. */
  ghost predicate LastBarrierIntent(run: seq<Event>, generation: nat, key: Key, n: nat) {
    LastOf(Intents(0, false, run), Chain(generation, key), n) && Intents(0, false, run)[n].barrier
  }

  /** The store holds the value, and readers are promised it. */
  predicate Holds(s: State, key: Key, value: Option<string>) {
    && Chain(s.generation, key) in s.queue.store && s.queue.store[Chain(s.generation, key)].value == value
    && key in s.newest && s.newest[key] == value
  }

  lemma FromTheStart(run: seq<Event>)
    requires Possible(INITIAL, run)
    ensures var s := After(INITIAL, run);
            && Persistence.Inv(s) && Queued(s.queue.writes) == Intents(0, false, run)
            && NewestOf(s.newest, Intents(0, false, run), s.generation)
  {
    QueuedAreIntents(INITIAL, run);
    InitialHolds();
    NothingNewest();
    NewestAlways(INITIAL, run);
  }

  lemma NewestIs(newest: map<Key, Option<string>>, intents: seq<Intent>, generation: nat, key: Key, n: nat)
    requires NewestOf(newest, intents, generation) && LastOf(intents, Chain(generation, key), n)
    ensures key in newest && newest[key] == intents[n].value
  {
    assert NewestAt(newest, intents, generation, key, n);
  }

  lemma NothingNewest()
    ensures NewestOf(INITIAL.newest, Queued(INITIAL.queue.writes), INITIAL.generation)
  {
    assert Queued(INITIAL.queue.writes) == [];
    NewGeneration([], 0);
  }

  lemma LastIsDurable(q: Queue, generation: nat, intents: seq<Intent>, chain: Chain, n: nat)
    requires WriteQueue.Inv(q, generation) && FlushReturns(q) && intents == Queued(q.writes)
    requires LastOf(intents, chain, n) && intents[n].barrier && chain.generation == generation
    ensures chain in q.store && q.store[chain].value == intents[n].value
  {
    FlushMeansDurable(q, generation);
    forall m | n < m < |q.writes| ensures q.writes[m].chain != chain {
      assert intents[m].chain != chain;
    }
    assert LastBarrier(q.writes, n);
    StoreHoldsLastSuccess(q, generation, chain, n);
  }

  // ---- without a backend -------------------------------------------------------------------------

  /** The last local write or removal the browser accepted, read off the events. */
  ghost function LocalValue(installed: bool, run: seq<Event>, key: Key, was: Option<string>): Option<string>
    decreases |run|
  {
    if run == [] then was
    else match run[0]
      case DoInstall(next) => LocalValue(next, run[1..], key, was)
      case DoIntend(k, value, _, ok) => LocalValue(installed, run[1..], key, if !installed && ok && k == key then value else was)
      case _ => LocalValue(installed, run[1..], key, was)
  }

  function Local(s: State, key: Key): Option<string> {
    if key in s.local then Some(s.local[key]) else None
  }

  /** Without a backend a record reads as that, whatever backends came and went meanwhile. */
  lemma {:induction false} LocalExact(s: State, run: seq<Event>, key: Key)
    requires Possible(s, run)
    ensures Local(After(s, run), key) == LocalValue(s.installed, run, key, Local(s, key))
    ensures !After(s, run).installed ==> ReadValue(After(s, run), key) == Local(After(s, run), key)
    decreases |run|
  {
    if run != [] {
      LocalExact(Step(s, run[0]), run[1..], key);
    }
  }
}
