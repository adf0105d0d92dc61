/**
  The per-record write chains of the client persistence seam: writes of one record run one
  after another, whatever order the store answers in, and the error ledger speaks for the
  newest barrier write. A write is known by its place in the order of issue.
 */
module WriteQueue {
  import opened Prelude

  type Key = string

  /** A chain key: a record within one backend generation. */
  datatype Chain = Chain(generation: nat, key: Key)

  /** `prior` is the promise the write waits for; without one it starts at once. */
  datatype Write = Write(chain: Chain, value: Option<string>, barrier: bool, prior: Option<nat>)

  /** Recorded: the settlement handler ran. Done: its finally clause ran too. */
  datatype Stage = Waiting | Running | Settled | Recorded | Done

  /** The effect of an operation lands in the store at some point while it runs. */
  datatype Progress = Progress(stage: Stage, landed: bool, ok: bool)

  /** What the store holds for a record, and the write that put it there. */
  datatype Held = Held(value: Option<string>, writer: nat)

  /** `store` is the native side: a record absent from it is as no write of the chain left it. */
  datatype Queue = Queue(
    writes: seq<Write>, progress: seq<Progress>, chains: map<Chain, nat>,
    pending: set<nat>, errors: map<Chain, nat>, store: map<Chain, Held>)

  const EMPTY := Queue([], [], map[], {}, map[], map[])

  // ---- steps --------------------------------------------------------------------

  function PriorOf(q: Queue, chain: Chain): Option<nat> {
    if chain in q.chains then Some(q.chains[chain]) else None
  }

  /** queueWrite: behind the chain's newest promise, and newest itself from now on. */
  function Issue(q: Queue, chain: Chain, value: Option<string>, barrier: bool): Queue {
    var w := |q.writes|;
    q.(writes := q.writes + [Write(chain, value, barrier, PriorOf(q, chain))],
       progress := q.progress + [Progress(Waiting, false, false)],
       chains := q.chains[chain := w],
       pending := if barrier then q.pending + {w} else q.pending)
  }

  /** The handlers a write registered when it was issued, its finally clause too, run before
      the operation that was chained behind it, so a successor starts once its prior is done. */
  predicate CanStart(q: Queue, w: nat) {
    && w < |q.writes| && |q.progress| == |q.writes| && q.progress[w].stage.Waiting?
    && (q.writes[w].prior.Some? ==> At(q, q.writes[w].prior.value, Done))
  }

  predicate At(q: Queue, w: nat, stage: Stage) {
    w < |q.writes| && |q.progress| == |q.writes| && q.progress[w].stage == stage
  }

  function With(q: Queue, w: nat, p: Progress): Queue
    requires w < |q.progress|
  {
    q.(progress := q.progress[w := p])
  }

  function Start(q: Queue, w: nat): Queue
    requires CanStart(q, w)
  {
    With(q, w, q.progress[w].(stage := Running))
  }

  function Land(q: Queue, w: nat): Queue
    requires At(q, w, Running) && !q.progress[w].landed
  {
    With(q, w, q.progress[w].(landed := true)).(store := q.store[q.writes[w].chain := Held(q.writes[w].value, w)])
  }

  /** A success has landed; a failure may or may not have. */
  function Settle(q: Queue, w: nat, ok: bool): Queue
    requires At(q, w, Running) && (ok ==> q.progress[w].landed)
  {
    With(q, w, q.progress[w].(stage := Settled, ok := ok))
  }

  function Record(q: Queue, generation: nat, w: nat): Queue
    requires At(q, w, Settled)
  {
    var write := q.writes[w];
    var d := With(q, w, q.progress[w].(stage := Recorded));
    if !write.barrier || write.chain.generation != generation then d
    else d.(errors := if q.progress[w].ok then q.errors - {write.chain} else q.errors[write.chain := w])
  }

  function Finish(q: Queue, w: nat): Queue
    requires At(q, w, Recorded)
  {
    var write := q.writes[w];
    var d := With(q, w, q.progress[w].(stage := Done));
    d.(pending := if write.barrier then q.pending - {w} else q.pending,
       chains := if write.chain in q.chains && q.chains[write.chain] == w then q.chains - {write.chain} else q.chains)
  }

  /** Installing another backend forgets chains and errors; the writes go on. */
  function Replace(q: Queue): Queue {
    q.(chains := map[], errors := map[])
  }

  // ---- the invariant ---------------------------------------------------------------

  ghost predicate SameChain(writes: seq<Write>, v: nat, w: nat) {
    v < w < |writes| && writes[v].chain == writes[w].chain
  }

  ghost predicate IsRecorded(progress: seq<Progress>, w: nat) {
    w < |progress| && (progress[w].stage.Recorded? || progress[w].stage.Done?)
  }

  /** Everything issued before `w` on its chain is done before `w` starts. */
  ghost predicate InOrder(writes: seq<Write>, progress: seq<Progress>) {
    forall v: nat, w: nat :: SameChain(writes, v, w) && w < |progress| && !progress[w].stage.Waiting? ==>
      progress[v].stage.Done?
  }

  /** The prior of a write is the one issued just before it on its chain, unless that is done. */
  ghost predicate Linked(writes: seq<Write>, progress: seq<Progress>) {
    forall v: nat, w: nat :: SameChain(writes, v, w) && w < |progress| ==>
      if writes[w].prior.None? then progress[v].stage.Done?
      else var p := writes[w].prior.value; p < w && (v == p || SameChain(writes, v, p))
  }

  ghost predicate ChainsNewest(writes: seq<Write>, progress: seq<Progress>, chains: map<Chain, nat>, generation: nat) {
    && (forall c :: c in chains ==> c.generation == generation && chains[c] < |writes| && writes[chains[c]].chain == c)
    && (forall w: nat :: w < |writes| && w < |progress| ==>
          var c := writes[w].chain;
          && c.generation <= generation
          && (c.generation == generation ==> if c in chains then w <= chains[c] else progress[w].stage.Done?))
  }

  ghost predicate PendingExact(writes: seq<Write>, progress: seq<Progress>, pending: set<nat>) {
    forall w: nat :: w in pending <==> w < |writes| && w < |progress| && writes[w].barrier && !progress[w].stage.Done?
  }

  /** `w` is a barrier write whose settlement is recorded; no later one of its chain is. */
  ghost predicate NewestRecorded(writes: seq<Write>, progress: seq<Progress>, w: nat) {
    && w < |writes| && writes[w].barrier && IsRecorded(progress, w)
    && forall v: nat :: SameChain(writes, w, v) && writes[v].barrier ==> !IsRecorded(progress, v)
  }

  /** The ledger holds the error of the newest recorded barrier write of a chain, if it failed. */
  ghost predicate LedgerExact(writes: seq<Write>, progress: seq<Progress>, errors: map<Chain, nat>, generation: nat) {
    && (forall w: nat :: NewestRecorded(writes, progress, w) && writes[w].chain.generation == generation ==>
          (writes[w].chain in errors <==> !progress[w].ok))
    && (forall c :: c in errors ==>
          var w := errors[c];
          c.generation == generation && NewestRecorded(writes, progress, w) && writes[w].chain == c && !progress[w].ok)
  }

  /** `w` took effect, and nothing issued later on its chain has. */
  ghost predicate NewestLanded(writes: seq<Write>, progress: seq<Progress>, w: nat) {
    && w < |writes| && w < |progress| && progress[w].landed
    && forall v: nat :: SameChain(writes, w, v) && v < |progress| ==> !progress[v].landed
  }

  /** The store holds, for every record, the value of the newest write that took effect. */
  ghost predicate StoreExact(writes: seq<Write>, progress: seq<Progress>, store: map<Chain, Held>) {
    && (forall w: nat :: NewestLanded(writes, progress, w) ==>
          writes[w].chain in store && store[writes[w].chain] == Held(writes[w].value, w))
    && (forall c :: c in store ==> NewestLanded(writes, progress, store[c].writer) && writes[store[c].writer].chain == c)
  }

  /** A write takes effect while it runs, and a success has. */
  ghost predicate EffectsInTime(progress: seq<Progress>) {
    forall w :: 0 <= w < |progress| ==>
      (progress[w].landed ==> !progress[w].stage.Waiting?) && (progress[w].ok ==> progress[w].landed)
  }

  ghost predicate Inv(q: Queue, generation: nat) {
    && |q.progress| == |q.writes|
    && InOrder(q.writes, q.progress)
    && Linked(q.writes, q.progress)
    && ChainsNewest(q.writes, q.progress, q.chains, generation)
    && PendingExact(q.writes, q.progress, q.pending)
    && LedgerExact(q.writes, q.progress, q.errors, generation)
    && StoreExact(q.writes, q.progress, q.store)
    && EffectsInTime(q.progress)
  }

  // ---- every step keeps it ------------------------------------------------------------

  function Rank(s: Stage): nat {
    match s case Waiting => 0 case Running => 1 case Settled => 2 case Recorded => 3 case Done => 4
  }

  /** One write moves on. */
  ghost predicate Advance(p: seq<Progress>, r: seq<Progress>, w: nat) {
    && w < |p| == |r| && Rank(p[w].stage) <= Rank(r[w].stage) && (p[w].landed ==> r[w].landed)
    && forall v :: 0 <= v < |p| && v != w ==> r[v] == p[v]
  }

  lemma AdvanceKeepsLinks(q: Queue, r: seq<Progress>, w: nat, generation: nat)
    requires |q.progress| == |q.writes| && InOrder(q.writes, q.progress) && Linked(q.writes, q.progress)
    requires ChainsNewest(q.writes, q.progress, q.chains, generation) && Advance(q.progress, r, w)
    ensures Linked(q.writes, r) && ChainsNewest(q.writes, r, q.chains, generation)
    ensures !q.progress[w].stage.Waiting? ==> InOrder(q.writes, r)
  {
    forall u: nat, v: nat | SameChain(q.writes, u, v) && v < |r|
      ensures q.writes[v].prior.None? ==> r[u].stage.Done?
    {
      assert q.writes[v].prior.None? ==> q.progress[u].stage.Done?;
    }
    if !q.progress[w].stage.Waiting? {
      forall u: nat, v: nat | SameChain(q.writes, u, v) && v < |r| && !r[v].stage.Waiting? ensures r[u].stage.Done? {
        assert q.progress[u].stage.Done?;
      }
    }
  }

  /** Nothing issued later on the chain of an unfinished write has started. */
  lemma LaterWaits(q: Queue, generation: nat, w: nat, v: nat)
    requires |q.progress| == |q.writes| && InOrder(q.writes, q.progress) && SameChain(q.writes, w, v) && !q.progress[w].stage.Done?
    ensures q.progress[v].stage.Waiting?
  {
  }

  lemma StartKeeps(q: Queue, generation: nat, w: nat)
    requires Inv(q, generation) && CanStart(q, w)
    ensures Inv(Start(q, w), generation)
  {
    var d := Start(q, w);
    AdvanceKeepsLinks(q, d.progress, w, generation);
    forall u: nat, v: nat | SameChain(d.writes, u, v) && v < |d.progress| && !d.progress[v].stage.Waiting?
      ensures d.progress[u].stage.Done?
    {
      var prior := q.writes[w].prior;
      if v == w && prior.Some? && u != prior.value {
        assert SameChain(q.writes, u, prior.value);
      }
      assert q.progress[u].stage.Done?;
    }
    LedgerUntouched(q, d.progress, w, generation);
    StoreUntouched(q, d.progress, w, generation);
  }

  /** A step that records nothing leaves the ledger exact. */
  lemma LedgerUntouched(q: Queue, r: seq<Progress>, w: nat, generation: nat)
    requires |q.progress| == |q.writes| && LedgerExact(q.writes, q.progress, q.errors, generation) && Advance(q.progress, r, w)
    requires IsRecorded(q.progress, w) == IsRecorded(r, w) && (IsRecorded(r, w) ==> q.progress[w].ok == r[w].ok)
    ensures LedgerExact(q.writes, r, q.errors, generation)
  {
    forall v: nat | NewestRecorded(q.writes, r, v) ensures NewestRecorded(q.writes, q.progress, v) {
      forall u: nat | SameChain(q.writes, v, u) && q.writes[u].barrier ensures !IsRecorded(q.progress, u) {
        assert !IsRecorded(r, u);
      }
    }
  }

  /** Steps that land nothing leave the store exact. */
  lemma StoreUntouched(q: Queue, r: seq<Progress>, w: nat, generation: nat)
    requires |q.progress| == |q.writes| && StoreExact(q.writes, q.progress, q.store) && Advance(q.progress, r, w) && r[w].landed == q.progress[w].landed
    ensures StoreExact(q.writes, r, q.store)
  {
    forall v: nat ensures NewestLanded(q.writes, r, v) <==> NewestLanded(q.writes, q.progress, v) {
      forall u: nat | SameChain(q.writes, v, u) ensures r[u].landed == q.progress[u].landed {
      }
    }
  }

  /** The write that lands is the newest of its chain to have done so. */
  lemma LandKeepsStore(q: Queue, generation: nat, w: nat)
    requires |q.progress| == |q.writes| && InOrder(q.writes, q.progress) && StoreExact(q.writes, q.progress, q.store)
    requires EffectsInTime(q.progress)
    requires At(q, w, Running) && !q.progress[w].landed
    ensures var d := Land(q, w); StoreExact(d.writes, d.progress, d.store)
  {
    var d := Land(q, w);
    forall v: nat | SameChain(q.writes, w, v) ensures !d.progress[v].landed {
      LaterWaits(q, generation, w, v);
    }
    assert NewestLanded(d.writes, d.progress, w);
    forall v: nat | v != w ensures NewestLanded(d.writes, d.progress, v) <==>
      NewestLanded(q.writes, q.progress, v) && q.writes[v].chain != q.writes[w].chain
    {
      LandedBefore(q, generation, w, v);
    }
  }

  lemma LandedBefore(q: Queue, generation: nat, w: nat, v: nat)
    requires |q.progress| == |q.writes| && InOrder(q.writes, q.progress) && At(q, w, Running) && !q.progress[w].landed && v != w
    requires EffectsInTime(q.progress)
    ensures NewestLanded(q.writes, Land(q, w).progress, v) <==>
            NewestLanded(q.writes, q.progress, v) && q.writes[v].chain != q.writes[w].chain
  {
    var r := Land(q, w).progress;
    if v < |q.writes| && q.writes[v].chain == q.writes[w].chain {
      if v < w {
        assert SameChain(q.writes, v, w) && r[w].landed;
      } else {
        LaterWaits(q, generation, w, v);
      }
    } else {
      forall u: nat | SameChain(q.writes, v, u) ensures r[u].landed == q.progress[u].landed {
      }
    }
  }

  lemma LandKeeps(q: Queue, generation: nat, w: nat)
    requires Inv(q, generation) && At(q, w, Running) && !q.progress[w].landed
    ensures Inv(Land(q, w), generation)
  {
    var d := Land(q, w);
    AdvanceKeepsLinks(q, d.progress, w, generation);
    LedgerUntouched(q, d.progress, w, generation);
    LandKeepsStore(q, generation, w);
  }

  lemma SettleKeeps(q: Queue, generation: nat, w: nat, ok: bool)
    requires Inv(q, generation) && At(q, w, Running) && (ok ==> q.progress[w].landed)
    ensures Inv(Settle(q, w, ok), generation)
  {
    var d := Settle(q, w, ok);
    AdvanceKeepsLinks(q, d.progress, w, generation);
    LedgerUntouched(q, d.progress, w, generation);
    StoreUntouched(q, d.progress, w, generation);
  }

  lemma RecordKeeps(q: Queue, generation: nat, w: nat)
    requires Inv(q, generation) && At(q, w, Settled)
    ensures Inv(Record(q, generation, w), generation)
  {
    AdvanceKeepsLinks(q, Record(q, generation, w).progress, w, generation);
    RecordKeepsLedger(q, generation, w);
    StoreUntouched(q, Record(q, generation, w).progress, w, generation);
  }

  /** Recording makes a barrier write the newest recorded one of its chain, and no other. */
  lemma RecordedIsNewest(q: Queue, generation: nat, w: nat)
    requires |q.progress| == |q.writes| && InOrder(q.writes, q.progress) && At(q, w, Settled)
    ensures var r := Record(q, generation, w).progress;
            && (q.writes[w].barrier ==> NewestRecorded(q.writes, r, w))
            && (forall v: nat :: v != w && NewestRecorded(q.writes, r, v) ==>
                  NewestRecorded(q.writes, q.progress, v) && !(q.writes[w].barrier && q.writes[v].chain == q.writes[w].chain))
  {
    var r := Record(q, generation, w).progress;
    forall v: nat | SameChain(q.writes, w, v) ensures !IsRecorded(r, v) {
      LaterWaits(q, generation, w, v);
    }
    forall v: nat | v != w && NewestRecorded(q.writes, r, v)
      ensures NewestRecorded(q.writes, q.progress, v)
      ensures !(q.writes[w].barrier && q.writes[v].chain == q.writes[w].chain)
    {
      assert IsRecorded(r, w) && IsRecorded(q.progress, v);
      forall u: nat | SameChain(q.writes, v, u) && q.writes[u].barrier ensures !IsRecorded(q.progress, u) {
        assert !IsRecorded(r, u);
      }
    }
  }

  lemma StaysNewest(q: Queue, generation: nat, w: nat, v: nat)
    requires |q.progress| == |q.writes| && At(q, w, Settled) && NewestRecorded(q.writes, q.progress, v)
    requires !(q.writes[w].barrier && q.writes[v].chain == q.writes[w].chain)
    ensures NewestRecorded(q.writes, Record(q, generation, w).progress, v)
  {
    var r := Record(q, generation, w).progress;
    forall u: nat | SameChain(q.writes, v, u) && q.writes[u].barrier ensures !IsRecorded(r, u) {
      assert !IsRecorded(q.progress, u);
    }
  }

  lemma RecordKeepsLedger(q: Queue, generation: nat, w: nat)
    requires |q.progress| == |q.writes| && InOrder(q.writes, q.progress) && LedgerExact(q.writes, q.progress, q.errors, generation)
    requires At(q, w, Settled)
    ensures var d := Record(q, generation, w); LedgerExact(d.writes, d.progress, d.errors, generation)
  {
    var d := Record(q, generation, w);
    RecordedIsNewest(q, generation, w);
    forall c | c in q.errors && !(q.writes[w].barrier && c == q.writes[w].chain)
      ensures NewestRecorded(q.writes, d.progress, q.errors[c])
    {
      StaysNewest(q, generation, w, q.errors[c]);
    }
  }

  lemma FinishKeeps(q: Queue, generation: nat, w: nat)
    requires Inv(q, generation) && At(q, w, Recorded)
    ensures Inv(Finish(q, w), generation)
  {
    var d := Finish(q, w);
    AdvanceKeepsLinks(q, d.progress, w, generation);
    LedgerUntouched(q, d.progress, w, generation);
    StoreUntouched(q, d.progress, w, generation);
    if d.chains != q.chains {
      FinishedChainDone(q, generation, w);
    }
  }

  /** A chain is dropped when its newest write is done; the others were done before it. */
  lemma FinishedChainDone(q: Queue, generation: nat, w: nat)
    requires |q.progress| == |q.writes| && InOrder(q.writes, q.progress)
    requires ChainsNewest(q.writes, q.progress, q.chains, generation) && At(q, w, Recorded)
    requires q.writes[w].chain in q.chains && q.chains[q.writes[w].chain] == w
    ensures ChainsNewest(q.writes, Finish(q, w).progress, q.chains - {q.writes[w].chain}, generation)
  {
  }

  lemma ReplaceKeeps(q: Queue, generation: nat)
    requires Inv(q, generation)
    ensures Inv(Replace(q), generation + 1)
  {
  }

  lemma IssueKeeps(q: Queue, generation: nat, key: Key, value: Option<string>, barrier: bool)
    requires Inv(q, generation)
    ensures Inv(Issue(q, Chain(generation, key), value, barrier), generation)
  {
    IssueKeepsLinks(q, generation, key, value, barrier);
    IssueKeepsLedger(q, generation, key, value, barrier);
    IssueKeepsStore(q, generation, key, value, barrier);
    IssueKeepsChains(q, generation, key, value, barrier);
  }

  lemma IssueKeepsChains(q: Queue, generation: nat, key: Key, value: Option<string>, barrier: bool)
    requires |q.progress| == |q.writes| && ChainsNewest(q.writes, q.progress, q.chains, generation)
    requires PendingExact(q.writes, q.progress, q.pending)
    ensures var d := Issue(q, Chain(generation, key), value, barrier);
            ChainsNewest(d.writes, d.progress, d.chains, generation) && PendingExact(d.writes, d.progress, d.pending)
  {
  }

  lemma IssueKeepsLedger(q: Queue, generation: nat, key: Key, value: Option<string>, barrier: bool)
    requires |q.progress| == |q.writes| && LedgerExact(q.writes, q.progress, q.errors, generation)
    ensures var d := Issue(q, Chain(generation, key), value, barrier);
            LedgerExact(d.writes, d.progress, d.errors, generation)
  {
    var d := Issue(q, Chain(generation, key), value, barrier);
    forall w: nat | NewestRecorded(d.writes, d.progress, w) ensures NewestRecorded(q.writes, q.progress, w) {
      forall v: nat | SameChain(q.writes, w, v) && q.writes[v].barrier ensures !IsRecorded(q.progress, v) {
        assert SameChain(d.writes, w, v) && !IsRecorded(d.progress, v);
      }
    }
  }

  lemma IssueKeepsStore(q: Queue, generation: nat, key: Key, value: Option<string>, barrier: bool)
    requires |q.progress| == |q.writes| && StoreExact(q.writes, q.progress, q.store)
    ensures var d := Issue(q, Chain(generation, key), value, barrier); StoreExact(d.writes, d.progress, d.store)
  {
    var d := Issue(q, Chain(generation, key), value, barrier);
    forall w: nat ensures NewestLanded(d.writes, d.progress, w) <==> NewestLanded(q.writes, q.progress, w) {
      if NewestLanded(d.writes, d.progress, w) {
        forall v: nat | SameChain(q.writes, w, v) ensures !q.progress[v].landed {
          assert SameChain(d.writes, w, v) && !d.progress[v].landed;
        }
      }
      if NewestLanded(q.writes, q.progress, w) {
        forall v: nat | SameChain(d.writes, w, v) ensures !d.progress[v].landed {
          assert v < |q.writes| ==> SameChain(q.writes, w, v);
        }
      }
    }
  }

  lemma LinkedAt(writes: seq<Write>, progress: seq<Progress>, v: nat, w: nat)
    requires Linked(writes, progress) && SameChain(writes, v, w) && w < |progress| && writes[w].prior.Some?
    ensures var p := writes[w].prior.value; p < w && (v == p || SameChain(writes, v, p))
  {
    var (before, after) := (progress[v], progress[w]);
  }

  lemma IssueKeepsLinks(q: Queue, generation: nat, key: Key, value: Option<string>, barrier: bool)
    requires |q.progress| == |q.writes| && InOrder(q.writes, q.progress) && Linked(q.writes, q.progress)
    requires ChainsNewest(q.writes, q.progress, q.chains, generation)
    ensures var d := Issue(q, Chain(generation, key), value, barrier);
            InOrder(d.writes, d.progress) && Linked(d.writes, d.progress)
  {
    var d := Issue(q, Chain(generation, key), value, barrier);
    forall v: nat, w: nat | SameChain(d.writes, v, w) && w < |q.writes| ensures SameChain(q.writes, v, w) {
    }
    var n := |q.writes|;
    forall v: nat | SameChain(d.writes, v, n)
      ensures if d.writes[n].prior.None? then d.progress[v].stage.Done?
              else v == d.writes[n].prior.value || SameChain(d.writes, v, d.writes[n].prior.value)
    {
      assert q.writes[v].chain == Chain(generation, key);
    }
    forall v: nat, w: nat | SameChain(d.writes, v, w) && w < n && d.writes[w].prior.Some? && v != d.writes[w].prior.value
      ensures SameChain(d.writes, v, d.writes[w].prior.value)
    {
      LinkedAt(q.writes, q.progress, v, w);
    }
  }

  // ---- what the chains promise -------------------------------------------------------------

  /** A failed operation left its record alone. */
  ghost predicate FailuresDoNotLand(q: Queue) {
    forall w :: 0 <= w < |q.progress| && Rank(q.progress[w].stage) >= Rank(Settled) && !q.progress[w].ok ==> !q.progress[w].landed
  }

  ghost predicate NothingRuns(q: Queue, chain: Chain) {
    forall w: nat :: At(q, w, Running) ==> q.writes[w].chain != chain
  }

  /** `n` is the last successful operation of the chain, in issue order. */
  ghost predicate LastSuccess(q: Queue, chain: Chain, n: nat) {
    && |q.progress| == |q.writes| && n < |q.writes| && q.writes[n].chain == chain && q.progress[n].ok
    && forall w: nat :: n < w < |q.writes| && q.writes[w].chain == chain ==> !q.progress[w].ok
  }

  /** The store holds the value of the last successful operation of a record, in issue order,
      exactly while no later one took effect without success: none that failed in spite of its
      effect, and none still running. */
  lemma StoreHoldsLastSuccess(q: Queue, generation: nat, chain: Chain, n: nat)
    requires Inv(q, generation) && LastSuccess(q, chain, n)
    ensures chain in q.store && q.store[chain].writer >= n
    ensures q.store[chain] == Held(q.writes[n].value, n) <==>
            forall w: nat :: n < w < |q.writes| && q.writes[w].chain == chain ==> !q.progress[w].landed
    ensures FailuresDoNotLand(q) && NothingRuns(q, chain) ==> q.store[chain] == Held(q.writes[n].value, n)
  {
    ChainLanded(q, generation, n);
    var m := q.store[chain].writer;
    assert NewestLanded(q.writes, q.progress, m);
    if m < n {
      assert SameChain(q.writes, m, n);
    }
    assert q.store[chain] == Held(q.writes[m].value, m);
    if FailuresDoNotLand(q) && NothingRuns(q, chain) {
      assert !At(q, m, Running);
      assert q.progress[m].ok;
    }
    if m == n {
      forall w: nat | n < w < |q.writes| && q.writes[w].chain == chain ensures !q.progress[w].landed {
        assert SameChain(q.writes, n, w);
      }
    }
  }

  /** Once some write of a chain has landed, the store holds something of that chain. */
  lemma {:induction false} ChainLanded(q: Queue, generation: nat, n: nat)
    requires Inv(q, generation) && n < |q.writes| && q.progress[n].landed
    ensures q.writes[n].chain in q.store
    decreases |q.writes| - n
  {
    if !NewestLanded(q.writes, q.progress, n) {
      var v: nat :| SameChain(q.writes, n, v) && v < |q.progress| && q.progress[v].landed;
      ChainLanded(q, generation, v);
    }
  }

  /** Without a success the store holds what it held before, unless a write failed in spite of its
      effect or is still running. */
  lemma NoSuccessNoChange(q: Queue, generation: nat, chain: Chain)
    requires Inv(q, generation) && FailuresDoNotLand(q) && NothingRuns(q, chain)
    ensures chain in q.store <==> exists n: nat :: n < |q.writes| && q.writes[n].chain == chain && q.progress[n].ok
  {
    if chain in q.store {
      var m := q.store[chain].writer;
      assert NewestLanded(q.writes, q.progress, m);
      assert !At(q, m, Running);
      assert q.progress[m].ok;
    }
    forall n: nat | n < |q.writes| && q.writes[n].chain == chain && q.progress[n].ok ensures chain in q.store {
      ChainLanded(q, generation, n);
    }
  }

  /** flushClientPersistence returns normally when nothing is pending and no error stands. */
  predicate FlushReturns(q: Queue) {
    q.pending == {} && q.errors == map[]
  }

  ghost predicate LastBarrier(writes: seq<Write>, w: nat) {
    w < |writes| && writes[w].barrier && forall v: nat :: SameChain(writes, w, v) ==> !writes[v].barrier
  }

  /** It returns normally exactly when every barrier write has settled and the last one of
      each record of the current generation succeeded, whatever the preference writes did. */
  lemma FlushMeansDurable(q: Queue, generation: nat)
    requires Inv(q, generation)
    ensures FlushReturns(q) <==>
            && (forall w: nat :: w < |q.writes| && q.writes[w].barrier ==> q.progress[w].stage.Done?)
            && (forall w: nat :: LastBarrier(q.writes, w) && q.writes[w].chain.generation == generation ==> q.progress[w].ok)
  {
    if FlushReturns(q) {
      forall w: nat | w < |q.writes| && q.writes[w].barrier ensures q.progress[w].stage.Done? {
        assert w !in q.pending;
      }
      forall w: nat | LastBarrier(q.writes, w) && q.writes[w].chain.generation == generation ensures q.progress[w].ok {
        assert NewestRecorded(q.writes, q.progress, w);
      }
    } else if forall w: nat :: w < |q.writes| && q.writes[w].barrier ==> q.progress[w].stage.Done? {
      assert q.pending == {};
      assert q.errors.Keys != {};
      var c :| c in q.errors;
      assert LastBarrier(q.writes, q.errors[c]) by {
        forall v: nat | SameChain(q.writes, q.errors[c], v) ensures !q.writes[v].barrier {
          assert q.writes[v].barrier ==> IsRecorded(q.progress, v);
        }
      }
    }
  }

  /** Replacing the backend forgets failures: afterwards a flush needs every earlier barrier write
      to have settled, but none of them to have succeeded. */
  lemma ReplacementForgets(q: Queue, generation: nat)
    requires Inv(q, generation)
    ensures FlushReturns(Replace(q)) <==> forall w: nat :: w < |q.writes| && q.writes[w].barrier ==> q.progress[w].stage.Done?
  {
    if q.pending == {} {
      forall w: nat | w < |q.writes| && q.writes[w].barrier ensures q.progress[w].stage.Done? {
        assert w !in q.pending;
      }
    }
  }
}
