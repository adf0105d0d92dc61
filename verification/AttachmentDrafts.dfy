/**
  What the attachment operations do to the stored drafts, whatever is cached: a plain list of
  references for each scope, changed in the order of the calls.
 */
module AttachmentDrafts {
  import opened Prelude
  import opened AttachmentCache

  // ---- removing ------------------------------------------------------------------------------

  /** The places of the references that stay. */
  function Staying(refs: seq<Ref>, id: string): (r: seq<nat>)
    ensures forall k :: 0 <= k < |r| ==> r[k] < |refs|
  {
    if refs == [] then []
    else
      var n := |refs| - 1;
      if refs[n].id == id then Staying(refs[..n], id) else Staying(refs[..n], id) + [n]
  }

  /** Exactly the references with another id stay, each once and in their order. */
  lemma {:induction false} StayingExact(refs: seq<Ref>, id: string)
    ensures forall i :: 0 <= i < |refs| ==> (i in Staying(refs, id) <==> refs[i].id != id)
    ensures forall j, k :: 0 <= j < k < |Staying(refs, id)| ==> Staying(refs, id)[j] < Staying(refs, id)[k]
  {
    if refs != [] {
      StayingExact(refs[..|refs| - 1], id);
    }
  }

  lemma {:induction false} WithoutLast(refs: seq<Ref>, last: Ref, id: string)
    ensures WithoutRef(refs + [last], id) == WithoutRef(refs, id) + (if last.id == id then [] else [last])
  {
    if refs == [] {
      assert [last][1..] == [];
    } else {
      assert (refs + [last])[1..] == refs[1..] + [last];
      WithoutLast(refs[1..], last, id);
    }
  }

  lemma {:induction false} WithoutIsStaying(refs: seq<Ref>, id: string)
    ensures |WithoutRef(refs, id)| == |Staying(refs, id)|
    ensures forall k :: 0 <= k < |Staying(refs, id)| ==> WithoutRef(refs, id)[k] == refs[Staying(refs, id)[k]]
  {
    if refs != [] {
      var n := |refs| - 1;
      assert refs == refs[..n] + [refs[n]];
      WithoutIsStaying(refs[..n], id);
      WithoutLast(refs[..n], refs[n], id);
    }
  }

  /** Removing takes away exactly the references with that id: the others keep their order and
      number, and no other draft changes. */
  lemma RemoveExact(s: State, key: Key, id: string)
    requires Inv(s)
    ensures var before, after := Draft(s.drafts, key), Draft(Step(s, Removing(key, id)).drafts, key);
            var stay := Staying(before, id);
            && |after| == |stay| && (forall k :: 0 <= k < |stay| ==> after[k] == before[stay[k]])
            && (forall i :: 0 <= i < |before| ==> (i in stay <==> before[i].id != id))
            && (forall j, k :: 0 <= j < k < |stay| ==> stay[j] < stay[k])
    ensures forall k :: k != key ==> Draft(Step(s, Removing(key, id)).drafts, k) == Draft(s.drafts, k)
  {
    TouchFacts(s, key);
    StayingExact(Draft(s.drafts, key), id);
    WithoutIsStaying(Draft(s.drafts, key), id);
  }

  // ---- duplicates -----------------------------------------------------------------------------

  /** Two references are the same by id; otherwise a browser context is like no other, a link is
      like what has its address, and files are alike by repository, path and range. */
  lemma SameExact(r: Ref, ref: Ref)
    ensures r.id == ref.id ==> Same(r, ref)
    ensures r.id != ref.id && (r.kind.BrowserContext? || ref.kind.BrowserContext?) ==> !Same(r, ref)
    ensures r.id != ref.id && r.kind.Url? && ref.kind.Url? ==> (Same(r, ref) <==> r.url == ref.url)
    ensures r.id != ref.id && (r.kind.Url? != ref.kind.Url?) && !r.kind.BrowserContext? && !ref.kind.BrowserContext? ==>
              (Same(r, ref) <==> r.url == ref.url)
    ensures r.id != ref.id && r.kind.File? && ref.kind.File? ==>
              (Same(r, ref) <==> r.path == ref.path && r.range == ref.range && SameRepository(r, ref))
    ensures Same(r, ref) == Same(ref, r)
  {
  }

  /** No repository stands for the primary one. */
  predicate SameRepository(r: Ref, ref: Ref) {
    || r.repository == ref.repository
    || (r.repository.None? && ref.repository == Some("primary"))
    || (ref.repository.None? && r.repository == Some("primary"))
  }

  /** One like any of the draft's is not added again; one like none of them is, while there is room. */
  lemma AddExact(s: State, key: Key, ref: Ref, i: nat)
    requires Inv(s) && i < |Draft(s.drafts, key)|
    ensures var before, after := Draft(s.drafts, key), Draft(Step(s, Adding(key, ref)).drafts, key);
            && (Same(before[i], ref) ==> after == before)
            && ((forall k :: 0 <= k < |before| ==> !Same(before[k], ref)) && |before| < MAX_PENDING_ATTACHMENTS ==> after == before + [ref])
  {
    TouchFacts(s, key);
  }

  // ---- a plain list ------------------------------------------------------------------------------

  /** One scope's draft as a list that is kept nowhere else. */
  function Listed(refs: seq<Ref>, e: Event, key: Key): seq<Ref> {
    match e
    case Writes(k, next) => if k == key then next else refs
    case Adding(k, ref) => if k == key && Adds(refs, ref) then refs + [ref] else refs
    case Removing(k, id) => if k == key then WithoutRef(refs, id) else refs
    case Takes(k) => if k == key then [] else refs
    case _ => refs
  }

  ghost function ListedOver(refs: seq<Ref>, events: seq<Event>, key: Key): seq<Ref>
    decreases |events|
  {
    if events == [] then refs else ListedOver(Listed(refs, events[0], key), events[1..], key)
  }

  lemma StepLists(s: State, e: Event, key: Key)
    requires Inv(s) && Enabled(s, e)
    ensures Draft(Step(s, e).drafts, key) == Listed(Draft(s.drafts, key), e, key)
  {
    match e
    case Reads(k) => TouchFacts(s, k);
    case Adding(k, _) => TouchFacts(s, k);
    case Removing(k, _) => TouchFacts(s, k);
    case Takes(k) => TouchFacts(s, k);
    case _ =>
  }

  /** The cached store does to every draft what that list does, over every run. */
  lemma {:induction false} DraftsArePlain(s: State, events: seq<Event>, key: Key)
    requires Inv(s) && Possible(s, events)
    ensures Draft(After(s, events).drafts, key) == ListedOver(Draft(s.drafts, key), events, key)
    decreases |events|
  {
    if events != [] {
      StepLists(s, events[0], key);
      StepKeeps(s, events[0]);
      DraftsArePlain(Step(s, events[0]), events[1..], key);
    }
  }

  /** Subscriptions come and go by themselves: nobody else's is touched. */
  lemma SubscriptionsExact(s: State, e: Event, listener: nat)
    requires Inv(s) && Enabled(s, e)
    ensures listener in Step(s, e).subscriptions <==>
            (listener in s.subscriptions || (e.Subscribes? && e.listener == listener)) && !(e.Unsubscribes? && e.listener == listener)
    ensures listener in s.subscriptions && listener in Step(s, e).subscriptions ==>
              Step(s, e).subscriptions[listener] == s.subscriptions[listener]
    ensures e.Subscribes? && e.listener == listener ==> Step(s, e).subscriptions[listener].key == e.key
  {
    match e
    case Subscribes(k, _) => TouchFacts(s, k);
    case _ =>
  }

  // ---- who listens ----------------------------------------------------------------------------------

  /** An entry's listeners are exactly those subscribed to it. */
  ghost predicate ListenersOf(subs: map<nat, Subscription>, e: Entry) {
    forall l :: l in e.listeners <==> l in subs && subs[l].id == e.id
  }

  ghost predicate AllListen(entries: seq<Entry>, subs: map<nat, Subscription>) {
    forall e :: e in entries ==> ListenersOf(subs, e)
  }

  ghost predicate SubscribedBelow(subs: map<nat, Subscription>, next: nat) {
    forall l :: l in subs ==> subs[l].id < next
  }

  ghost predicate Listening(s: State) {
    AllListen(s.entries, s.subscriptions) && SubscribedBelow(s.subscriptions, s.next)
  }

  lemma {:induction false} WithoutMembers(entries: seq<Entry>, key: Key)
    ensures forall e :: e in Without(entries, key) ==> e in entries && e.key != key
  {
    if entries != [] {
      WithoutMembers(entries[1..], key);
    }
  }

  lemma TouchedFull(s: State, key: Key)
    requires Inv(s)
    ensures Distinct(Without(s.entries, key) + [Found(s, key)])
  {
    var e, rest := Found(s, key), Without(s.entries, key);
    WithoutDistinct(s.entries, key);
    WithoutMembers(s.entries, key);
    forall i | 0 <= i < |rest| ensures rest[i].key != key && rest[i].id != e.id {
      assert rest[i] in s.entries && rest[i].key != key;
      if Lookup(s.entries, key).Some? {
        OtherEntry(s.entries, rest[i], e);
      }
    }
  }

  lemma TouchListens(s: State, key: Key)
    requires Inv(s) && Listening(s)
    ensures Listening(Touch(s, key)) && ListenersOf(s.subscriptions, Found(s, key))
    ensures Found(s, key).id < Touch(s, key).next
  {
    var e := Found(s, key);
    var full := Without(s.entries, key) + [e];
    WithoutMembers(s.entries, key);
    TouchedFull(s, key);
    TrimFacts(full, Some(key));
    assert e in full && ListenersOf(s.subscriptions, e);
    TouchFacts(s, key);
    assert AllListen(full, s.subscriptions);
  }

  lemma {:induction false} ReplaceListens(entries: seq<Entry>, e: Entry, subs: map<nat, Subscription>)
    requires AllListen(entries, subs) && ListenersOf(subs, e)
    ensures AllListen(Replace(entries, e), subs)
  {
    if entries != [] {
      ReplaceListens(entries[1..], e, subs);
    }
  }

  lemma PutListens(s: State, key: Key, refs: seq<Ref>)
    requires Inv(s) && Listening(s)
    ensures Listening(Put(s, key, refs)) && Listening(Write(s, key, refs))
  {
    TouchListens(s, key);
    ReplaceListens(Touch(s, key).entries, Found(s, key).(refs := refs), s.subscriptions);
  }

  lemma JoinListens(entries: seq<Entry>, e: Entry, subs: map<nat, Subscription>, listener: nat)
    requires Distinct(entries) && e in entries && AllListen(entries, subs) && listener !in subs
    ensures AllListen(Replace(entries, e.(listeners := e.listeners + {listener})), subs[listener := Subscription(e.key, e.id)])
  {
    var joined, more := e.(listeners := e.listeners + {listener}), subs[listener := Subscription(e.key, e.id)];
    assert ListenersOf(subs, e);
    ReplaceMembers(entries, e, joined);
    forall d | d in Replace(entries, joined) ensures ListenersOf(more, d) {
      if d != joined {
        assert ListenersOf(subs, d);
        if d.id == e.id {
          SameEntry(entries, d, e);
        }
      }
    }
  }

  lemma LeaveListens(entries: seq<Entry>, subs: map<nat, Subscription>, listener: nat)
    requires Distinct(entries) && AllListen(entries, subs) && listener in subs
    ensures AllListen(Leave(entries, subs[listener].id, listener), subs - {listener})
  {
    var id := subs[listener].id;
    LeaveMembers(entries, id, listener);
    forall e | e in Leave(entries, id, listener) ensures ListenersOf(subs - {listener}, e) {
      var d :| d in entries && e == Left(d, id, listener);
      LeftListens(d, subs, listener);
    }
  }

  lemma LeftListens(d: Entry, subs: map<nat, Subscription>, listener: nat)
    requires ListenersOf(subs, d) && listener in subs
    ensures ListenersOf(subs - {listener}, Left(d, subs[listener].id, listener))
  {
  }

  lemma SubscribeListens(s: State, key: Key, listener: nat)
    requires Inv(s) && Listening(s) && listener !in s.subscriptions
    ensures Listening(Subscribe(s, key, listener))
  {
    TouchListens(s, key);
    TouchFacts(s, key);
    JoinListens(Touch(s, key).entries, Found(s, key), s.subscriptions, listener);
  }

  lemma UnsubscribeListens(s: State, listener: nat)
    requires Inv(s) && Listening(s) && listener in s.subscriptions
    ensures Listening(Unsubscribe(s, listener))
  {
    var id := s.subscriptions[listener].id;
    LeaveListens(s.entries, s.subscriptions, listener);
    LeaveMembers(s.entries, id, listener);
    TrimFacts(Leave(s.entries, id, listener), None);
  }

  lemma TouchPutListens(s: State, key: Key, refs: seq<Ref>)
    requires Inv(s) && Listening(s)
    ensures Listening(Touch(s, key)) && Listening(Write(Touch(s, key), key, refs))
  {
    TouchListens(s, key);
    TouchFacts(s, key);
    PutListens(Touch(s, key), key, refs);
  }

  lemma StepListens(s: State, e: Event)
    requires Inv(s) && Listening(s) && Enabled(s, e)
    ensures Listening(Step(s, e))
  {
    match e
    case Reads(key) => TouchListens(s, key);
    case Writes(key, refs) => PutListens(s, key, refs);
    case Adding(key, ref) => TouchPutListens(s, key, Found(s, key).refs + [ref]);
    case Removing(key, id) => TouchPutListens(s, key, WithoutRef(Found(s, key).refs, id));
    case Takes(key) => TouchPutListens(s, key, []);
    case Hydrates(key, refs) => PutListens(s, key, refs);
    case Subscribes(key, listener) => SubscribeListens(s, key, listener);
    case Unsubscribes(listener) => UnsubscribeListens(s, listener);
  }

  /** After any run a cached entry is listened to by exactly those who subscribed to it and have
      not left. */
  lemma {:induction false} ListenersExact(s: State, events: seq<Event>)
    requires Inv(s) && Listening(s) && Possible(s, events)
    ensures Listening(After(s, events))
    decreases |events|
  {
    if events != [] {
      StepListens(s, events[0]);
      StepKeeps(s, events[0]);
      ListenersExact(Step(s, events[0]), events[1..]);
    }
  }

  // ---- what a trim drops -----------------------------------------------------------------------------

  /** `t` holds entries of `entries`, in the same order. */
  ghost predicate SameOrder(t: seq<Entry>, entries: seq<Entry>) {
    forall i, j, p, q :: 0 <= i < j < |t| && 0 <= p < |entries| && 0 <= q < |entries| && entries[p] == t[i] && entries[q] == t[j] ==> p < q
  }

  /** An entry that may go stays only when every younger one does. */
  ghost predicate OldestFirst(t: seq<Entry>, entries: seq<Entry>, kept: Option<Key>) {
    forall i, j :: 0 <= i < j < |entries| && Evictable(entries[i], kept) && entries[i] in t ==> entries[j] in t
  }

  /** One round of a trim. */
  function Cut(entries: seq<Entry>, k: nat): seq<Entry>
    requires k < |entries|
  {
    entries[..k] + entries[k + 1..]
  }

  lemma CutDistinct(entries: seq<Entry>, k: nat)
    requires Distinct(entries) && k < |entries|
    ensures Distinct(Cut(entries, k)) && entries[k] !in Cut(entries, k) && |Cut(entries, k)| == |entries| - 1
  {
  }

  lemma CutAt(entries: seq<Entry>, k: nat, i: nat)
    requires k < |entries| && i < |entries| && i != k
    ensures Cut(entries, k)[if i < k then i else i - 1] == entries[i]
  {
  }

  lemma CutOrder(t: seq<Entry>, entries: seq<Entry>, k: nat)
    requires k < |entries| && Distinct(entries)
    requires SameOrder(t, Cut(entries, k)) && forall e :: e in t ==> e in Cut(entries, k)
    ensures SameOrder(t, entries)
  {
    forall i, j, p, q | 0 <= i < j < |t| && 0 <= p < |entries| && 0 <= q < |entries| && entries[p] == t[i] && entries[q] == t[j]
      ensures p < q
    {
      CutDistinct(entries, k);
      assert t[i] in Cut(entries, k) && t[j] in Cut(entries, k);
      CutAt(entries, k, p);
      CutAt(entries, k, q);
    }
  }

  lemma CutOldest(t: seq<Entry>, entries: seq<Entry>, kept: Option<Key>, k: nat)
    requires Distinct(entries) && k == Stale(entries, kept) && k < |entries|
    requires OldestFirst(t, Cut(entries, k), kept) && forall e :: e in t ==> e in Cut(entries, k)
    ensures OldestFirst(t, entries, kept)
  {
    CutDistinct(entries, k);
    forall i, j | 0 <= i < j < |entries| && Evictable(entries[i], kept) && entries[i] in t ensures entries[j] in t {
      assert k <= i;
      assert i != k;
      CutAt(entries, k, i);
      CutAt(entries, k, j);
    }
  }

  lemma TrimOnlyDrops(entries: seq<Entry>, kept: Option<Key>)
    requires Distinct(entries)
    ensures forall e :: e in Trim(entries, kept) ==> e in entries
  {
    TrimFacts(entries, kept);
  }

  lemma NothingDropped(entries: seq<Entry>, kept: Option<Key>)
    requires Distinct(entries)
    ensures SameOrder(entries, entries) && OldestFirst(entries, entries, kept)
  {
  }

  /** A trim drops the oldest that may go before any younger one, and leaves the order of the rest. */
  lemma {:induction false} TrimExact(entries: seq<Entry>, kept: Option<Key>)
    requires Distinct(entries)
    ensures SameOrder(Trim(entries, kept), entries) && OldestFirst(Trim(entries, kept), entries, kept)
    decreases |entries|
  {
    var k := Stale(entries, kept);
    if |entries| > MAX_ATTACHMENT_ENTRIES && k < |entries| {
      CutDistinct(entries, k);
      TrimCuts(entries, kept);
      TrimExact(Cut(entries, k), kept);
      TrimOnlyDrops(Cut(entries, k), kept);
      CutOrder(Trim(entries, kept), entries, k);
      CutOldest(Trim(entries, kept), entries, kept, k);
    } else {
      NothingDropped(entries, kept);
    }
  }

  lemma TrimCuts(entries: seq<Entry>, kept: Option<Key>)
    requires |entries| > MAX_ATTACHMENT_ENTRIES && Stale(entries, kept) < |entries|
    ensures Trim(entries, kept) == Trim(Cut(entries, Stale(entries, kept)), kept)
  {
  }

  /** A trim drops no more than the bound asks for. */
  lemma {:induction false} TrimSize(entries: seq<Entry>, kept: Option<Key>)
    ensures Trim(entries, kept) == entries || |Trim(entries, kept)| >= MAX_ATTACHMENT_ENTRIES
    decreases |entries|
  {
    var k := Stale(entries, kept);
    if |entries| > MAX_ATTACHMENT_ENTRIES && k < |entries| {
      TrimCuts(entries, kept);
      assert |Cut(entries, k)| == |entries| - 1;
      TrimSize(Cut(entries, k), kept);
    }
  }

  /** A scope just used is the youngest; the others keep their order. */
  lemma TouchedIsYoungest(s: State, key: Key)
    requires Inv(s)
    ensures var t := Touch(s, key).entries;
            t != [] && t[|t| - 1] == Found(s, key) && SameOrder(t, Without(s.entries, key) + [Found(s, key)])
  {
    var full, t := Without(s.entries, key) + [Found(s, key)], Touch(s, key).entries;
    TouchedFull(s, key);
    TouchFacts(s, key);
    TrimFacts(full, Some(key));
    TrimExact(full, Some(key));
    LastStaysLast(t, full);
  }

  lemma LastStaysLast(t: seq<Entry>, full: seq<Entry>)
    requires SameOrder(t, full) && full != [] && full[|full| - 1] in t && forall e :: e in t ==> e in full
    ensures t[|t| - 1] == full[|full| - 1]
  {
    var i :| 0 <= i < |t| && t[i] == full[|full| - 1];
    assert t[|t| - 1] in full;
    var q :| 0 <= q < |full| && full[q] == t[|t| - 1];
  }
}
