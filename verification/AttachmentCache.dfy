/**
  Pending attachments (apps/web/src/attachments.ts): an LRU cache over the stored drafts whose
  subscribed entries are pinned.
 */
module AttachmentCache {
  import opened Prelude

  type Key = string

  datatype RefKind = BrowserContext | Url | File

  /** `url`, `path` and `range` are absent, or a token for the value. */
  datatype Ref = Ref(id: string, kind: RefKind, url: Option<string>, path: Option<string>, repository: Option<string>, range: Option<int>)

  const MAX_PENDING_ATTACHMENTS: nat := 16
  const MAX_ATTACHMENT_ENTRIES: nat := 64

  /** `id` is the identity of the entry object; `listeners` its subscribers. */
  datatype Entry = Entry(key: Key, id: nat, refs: seq<Ref>, listeners: set<nat>)

  /** What unsubscribing will do: the entry object the subscriber joined. */
  datatype Subscription = Subscription(key: Key, id: nat)

  datatype State = State(entries: seq<Entry>, drafts: map<Key, seq<Ref>>, next: nat, subscriptions: map<nat, Subscription>)

  const INITIAL := State([], map[], 0, map[])

  // ---- reading ----------------------------------------------------------------------------

  function Draft(drafts: map<Key, seq<Ref>>, key: Key): seq<Ref> {
    if key in drafts then drafts[key] else []
  }

  function Lookup(entries: seq<Entry>, key: Key): (r: Option<Entry>)
    ensures r.Some? ==> r.value in entries && r.value.key == key
    ensures r.None? ==> forall e :: e in entries ==> e.key != key
  {
    if entries == [] then None
    else if entries[0].key == key then Some(entries[0])
    else Lookup(entries[1..], key)
  }

  function Without(entries: seq<Entry>, key: Key): (r: seq<Entry>)
    ensures forall e :: e in r <==> e in entries && e.key != key
  {
    if entries == [] then []
    else if entries[0].key == key then Without(entries[1..], key)
    else [entries[0]] + Without(entries[1..], key)
  }

  // ---- trimming ---------------------------------------------------------------------------------

  predicate Evictable(e: Entry, kept: Option<Key>) {
    kept != Some(e.key) && e.listeners == {}
  }

  /** The oldest entry that may go, or the length. */
  function Stale(entries: seq<Entry>, kept: Option<Key>): (k: nat)
    ensures k <= |entries|
    ensures k < |entries| ==> Evictable(entries[k], kept)
    ensures forall i :: 0 <= i < k ==> !Evictable(entries[i], kept)
  {
    if entries == [] || Evictable(entries[0], kept) then 0 else 1 + Stale(entries[1..], kept)
  }

  function Trim(entries: seq<Entry>, kept: Option<Key>): seq<Entry>
    decreases |entries|
  {
    var k := Stale(entries, kept);
    if |entries| <= MAX_ATTACHMENT_ENTRIES || k == |entries| then entries
    else Trim(entries[..k] + entries[k + 1..], kept)
  }

  // ---- steps ----------------------------------------------------------------------------------------

  /** The entry of `key`, fresh from the draft when it is not cached. */
  function Found(s: State, key: Key): Entry {
    match Lookup(s.entries, key)
    case Some(e) => e
    case None => Entry(key, s.next, Draft(s.drafts, key), {})
  }

  /** entry(): the entry moves to the young end, and the rest is trimmed around it. */
  function Touch(s: State, key: Key): State {
    State(Trim(Without(s.entries, key) + [Found(s, key)], Some(key)), s.drafts,
          if Lookup(s.entries, key).None? then s.next + 1 else s.next, s.subscriptions)
  }

  /** Change the cached entry of `key`. */
  function Replace(entries: seq<Entry>, e: Entry): seq<Entry> {
    if entries == [] then []
    else [if entries[0].key == e.key then e else entries[0]] + Replace(entries[1..], e)
  }

  function Put(s: State, key: Key, refs: seq<Ref>): State {
    var t := Touch(s, key);
    t.(entries := Replace(t.entries, Found(s, key).(refs := refs)))
  }

  /** set(): cache and draft change together. */
  function Write(s: State, key: Key, refs: seq<Ref>): State {
    Put(s, key, refs).(drafts := s.drafts[key := refs])
  }

  predicate Same(r: Ref, ref: Ref) {
    if r.id == ref.id then true
    else if r.kind.BrowserContext? || ref.kind.BrowserContext? then false
    else if r.kind.Url? || ref.kind.Url? then r.url == ref.url
    else r.path == ref.path && Repository(r) == Repository(ref) && r.range == ref.range
  }

  function Repository(r: Ref): Option<string> {
    if r.repository.None? then Some("primary") else r.repository
  }

  predicate Duplicate(refs: seq<Ref>, ref: Ref) {
    exists i :: 0 <= i < |refs| && Same(refs[i], ref)
  }

  predicate Adds(refs: seq<Ref>, ref: Ref) {
    |refs| < MAX_PENDING_ATTACHMENTS && !Duplicate(refs, ref)
  }

  function Subscribe(s: State, key: Key, listener: nat): State {
    var t, e := Touch(s, key), Found(s, key);
    t.(entries := Replace(t.entries, e.(listeners := e.listeners + {listener})),
       subscriptions := s.subscriptions[listener := Subscription(key, e.id)])
  }

  function Left(e: Entry, id: nat, listener: nat): Entry {
    if e.id == id then e.(listeners := e.listeners - {listener}) else e
  }

  /** The entry object loses the listener wherever it is. */
  function Leave(entries: seq<Entry>, id: nat, listener: nat): seq<Entry> {
    if entries == [] then [] else [Left(entries[0], id, listener)] + Leave(entries[1..], id, listener)
  }

  function Unsubscribe(s: State, listener: nat): State
    requires listener in s.subscriptions
  {
    s.(entries := Trim(Leave(s.entries, s.subscriptions[listener].id, listener), None),
       subscriptions := s.subscriptions - {listener})
  }

  datatype Event =
    | Reads(key: Key)
    | Writes(key: Key, refs: seq<Ref>)
    | Adding(key: Key, ref: Ref)
    | Removing(key: Key, id: string)
    | Takes(key: Key)
    | Hydrates(key: Key, refs: seq<Ref>)
    | Subscribes(key: Key, listener: nat)
    | Unsubscribes(listener: nat)

  predicate Enabled(s: State, e: Event) {
    match e
    case Subscribes(_, listener) => listener !in s.subscriptions
    case Unsubscribes(listener) => listener in s.subscriptions
    // A hydration answers with the stored draft.
    case Hydrates(key, refs) => refs == Draft(s.drafts, key)
    case Reads(_) => true
    case Writes(_, _) => true
    case Adding(_, _) => true
    case Removing(_, _) => true
    case Takes(_) => true
  }

  function WithoutRef(refs: seq<Ref>, id: string): seq<Ref> {
    if refs == [] then []
    else if refs[0].id == id then WithoutRef(refs[1..], id)
    else [refs[0]] + WithoutRef(refs[1..], id)
  }

  function Step(s: State, e: Event): State
    requires Enabled(s, e)
  {
    match e
    case Reads(key) => Touch(s, key)
    case Writes(key, refs) => Write(s, key, refs)
    case Adding(key, ref) =>
      if Adds(Found(s, key).refs, ref) then Write(Touch(s, key), key, Found(s, key).refs + [ref]) else Touch(s, key)
    case Removing(key, id) => Write(Touch(s, key), key, WithoutRef(Found(s, key).refs, id))
    case Takes(key) => if Found(s, key).refs != [] then Write(Touch(s, key), key, []) else Touch(s, key)
    case Hydrates(key, refs) => Put(s, key, refs)
    case Subscribes(key, listener) => Subscribe(s, key, listener)
    case Unsubscribes(listener) => Unsubscribe(s, listener)
  }

  // ---- the invariant ---------------------------------------------------------------------------------

  /** One entry a key, and one key an entry object. */
  ghost predicate Distinct(entries: seq<Entry>) {
    forall i, j :: 0 <= i < j < |entries| ==> entries[i].key != entries[j].key && entries[i].id != entries[j].id
  }

  /** Every cached entry equals the stored draft. */
  ghost predicate Coherent(entries: seq<Entry>, drafts: map<Key, seq<Ref>>) {
    forall e :: e in entries ==> e.refs == Draft(drafts, e.key)
  }

  ghost predicate Numbered(entries: seq<Entry>, next: nat) {
    forall e :: e in entries ==> e.id < next
  }

  /** A subscriber's entry object is the one cached under its key, and knows its subscriber. */
  ghost predicate PinnedAt(entries: seq<Entry>, listener: nat, sub: Subscription) {
    exists e :: e in entries && e.key == sub.key && e.id == sub.id && listener in e.listeners
  }

  ghost predicate Pinned(entries: seq<Entry>, subscriptions: map<nat, Subscription>) {
    forall l :: l in subscriptions ==> PinnedAt(entries, l, subscriptions[l])
  }

  /** Within the bound, or nothing but `kept` could be evicted. */
  ghost predicate Trimmed(entries: seq<Entry>, kept: Option<Key>) {
    |entries| <= MAX_ATTACHMENT_ENTRIES || forall e :: e in entries ==> !Evictable(e, kept)
  }

  ghost predicate Inv(s: State) {
    Distinct(s.entries) && Coherent(s.entries, s.drafts) && Numbered(s.entries, s.next) && Pinned(s.entries, s.subscriptions)
  }

  // ---- lists of entries -----------------------------------------------------------------------------

  lemma SameEntry(entries: seq<Entry>, a: Entry, b: Entry)
    requires Distinct(entries) && a in entries && b in entries && (a.key == b.key || a.id == b.id)
    ensures a == b
  {
    var i :| 0 <= i < |entries| && entries[i] == a;
    var j :| 0 <= j < |entries| && entries[j] == b;
  }

  lemma OtherEntry(entries: seq<Entry>, a: Entry, b: Entry)
    requires Distinct(entries) && a in entries && b in entries && a.key != b.key
    ensures a.id != b.id
  {
    var i :| 0 <= i < |entries| && entries[i] == a;
    var j :| 0 <= j < |entries| && entries[j] == b;
  }

  lemma {:induction false} WithoutDistinct(entries: seq<Entry>, key: Key)
    requires Distinct(entries)
    ensures Distinct(Without(entries, key))
  {
    if entries != [] {
      WithoutDistinct(entries[1..], key);
      var r := Without(entries[1..], key);
      forall i | 0 <= i < |r| ensures r[i].key != entries[0].key && r[i].id != entries[0].id {
        assert r[i] in entries[1..];
      }
    }
  }

  lemma RemovedMembers(entries: seq<Entry>, k: nat, e: Entry)
    requires k < |entries|
    ensures e in entries[..k] + entries[k + 1..] ==> e in entries
    ensures e in entries && e != entries[k] ==> e in entries[..k] + entries[k + 1..]
  {
    assert entries == entries[..k] + [entries[k]] + entries[k + 1..];
  }

  /** Trimming keeps order and identity, drops only what may go, and stops within the bound or
      when nothing more may go. */
  lemma {:induction false} TrimFacts(entries: seq<Entry>, kept: Option<Key>)
    requires Distinct(entries)
    ensures Distinct(Trim(entries, kept)) && Trimmed(Trim(entries, kept), kept)
    ensures forall e :: e in Trim(entries, kept) ==> e in entries
    ensures forall e :: e in entries && !Evictable(e, kept) ==> e in Trim(entries, kept)
    decreases |entries|
  {
    var k := Stale(entries, kept);
    if |entries| > MAX_ATTACHMENT_ENTRIES && k < |entries| {
      var rest := entries[..k] + entries[k + 1..];
      forall e ensures (e in rest ==> e in entries) && (e in entries && !Evictable(e, kept) ==> e in rest) {
        RemovedMembers(entries, k, e);
      }
      TrimFacts(rest, kept);
    }
  }

  lemma {:induction false} ReplaceFacts(entries: seq<Entry>, e: Entry)
    requires Distinct(entries)
    ensures |Replace(entries, e)| == |entries|
    ensures forall i :: 0 <= i < |entries| ==> Replace(entries, e)[i] == if entries[i].key == e.key then e else entries[i]
  {
    if entries != [] {
      ReplaceFacts(entries[1..], e);
    }
  }

  lemma ReplaceMembers(entries: seq<Entry>, was: Entry, e: Entry)
    requires Distinct(entries) && was in entries && was.key == e.key && was.id == e.id
    ensures Distinct(Replace(entries, e)) && |Replace(entries, e)| == |entries|
    ensures forall d :: d in Replace(entries, e) <==> d == e || (d in entries && d != was)
  {
    ReplaceFacts(entries, e);
    var r := Replace(entries, e);
    var k :| 0 <= k < |entries| && entries[k] == was;
    forall d ensures d in r <==> d == e || (d in entries && d != was) {
      if d in r {
        var i :| 0 <= i < |r| && r[i] == d;
        assert entries[i] in entries;
      }
      if d == e {
        assert r[k] == e;
      } else if d in entries && d != was {
        var i :| 0 <= i < |entries| && entries[i] == d;
        assert r[i] == d;
      }
    }
  }

  lemma {:induction false} LeaveFacts(entries: seq<Entry>, id: nat, listener: nat)
    ensures |Leave(entries, id, listener)| == |entries|
    ensures forall i :: 0 <= i < |entries| ==> Leave(entries, id, listener)[i] == Left(entries[i], id, listener)
  {
    if entries != [] {
      LeaveFacts(entries[1..], id, listener);
    }
  }

  // ---- what each operation keeps ----------------------------------------------------------------------

  /** The entry of `key` is now cached exactly as found, and every subscribed entry is still there. */
  lemma TouchFacts(s: State, key: Key)
    requires Inv(s)
    ensures var t := Touch(s, key);
            && Inv(t) && Found(s, key) in t.entries && Trimmed(t.entries, Some(key))
            && Found(s, key).key == key && Found(s, key).refs == Draft(s.drafts, key)
  {
    var e, rest := Found(s, key), Without(s.entries, key);
    var full := rest + [e];
    WithoutDistinct(s.entries, key);
    forall i | 0 <= i < |rest| ensures rest[i].key != key && rest[i].id != e.id {
      assert rest[i] in s.entries && rest[i].key != key;
      if Lookup(s.entries, key).Some? {
        OtherEntry(s.entries, rest[i], e);
      }
    }
    TrimFacts(full, Some(key));
    var t := Touch(s, key);
    assert full[|rest|] == e;
    forall d | d in t.entries ensures d == e || d in s.entries {
      assert d in full;
    }
    forall l | l in s.subscriptions ensures PinnedAt(t.entries, l, s.subscriptions[l]) {
      assert PinnedAt(s.entries, l, s.subscriptions[l]);
      var d :| d in s.entries && d.key == s.subscriptions[l].key && d.id == s.subscriptions[l].id && l in d.listeners;
      if d.key == key {
        SameEntry(s.entries, d, e);
      }
      assert d in full;
    }
  }

  /** Replacing an entry object's fields keeps it pinned and the cache trimmed. */
  lemma ReplaceKeeps(s: State, was: Entry, e: Entry, kept: Option<Key>)
    requires Inv(s) && was in s.entries && was.key == e.key && was.id == e.id && was.listeners <= e.listeners
    requires Trimmed(s.entries, kept)
    ensures var r := Replace(s.entries, e);
            && Distinct(r) && Numbered(r, s.next) && Pinned(r, s.subscriptions) && Trimmed(r, kept) && e in r
            && (forall d :: d in r && d != e ==> d in s.entries && d.key != e.key)
  {
    ReplaceMembers(s.entries, was, e);
    var r := Replace(s.entries, e);
    forall l | l in s.subscriptions ensures PinnedAt(r, l, s.subscriptions[l]) {
      assert PinnedAt(s.entries, l, s.subscriptions[l]);
      var d :| d in s.entries && d.key == s.subscriptions[l].key && d.id == s.subscriptions[l].id && l in d.listeners;
      assert (if d == was then e else d) in r;
    }
    forall d | d in r && d != e ensures d in s.entries && d.key != e.key {
      if d.key == e.key {
        SameEntry(s.entries, d, was);
      }
    }
  }

  lemma WriteFacts(s: State, key: Key, refs: seq<Ref>)
    requires Inv(s)
    ensures Inv(Write(s, key, refs)) && Trimmed(Write(s, key, refs).entries, Some(key))
    ensures Draft(Write(s, key, refs).drafts, key) == refs
  {
    TouchFacts(s, key);
    ReplaceKeeps(Touch(s, key), Found(s, key), Found(s, key).(refs := refs), Some(key));
  }

  lemma HydrateFacts(s: State, key: Key)
    requires Inv(s)
    ensures Inv(Put(s, key, Draft(s.drafts, key))) && Trimmed(Put(s, key, Draft(s.drafts, key)).entries, Some(key))
  {
    TouchFacts(s, key);
    ReplaceKeeps(Touch(s, key), Found(s, key), Found(s, key), Some(key));
  }

  lemma SubscribeFacts(s: State, key: Key, listener: nat)
    requires Inv(s) && listener !in s.subscriptions
    ensures Inv(Subscribe(s, key, listener)) && Trimmed(Subscribe(s, key, listener).entries, Some(key))
  {
    TouchFacts(s, key);
    var e := Found(s, key);
    var e' := e.(listeners := e.listeners + {listener});
    ReplaceKeeps(Touch(s, key), e, e', Some(key));
    var t := Subscribe(s, key, listener);
    assert PinnedAt(t.entries, listener, Subscription(key, e.id)) by {
      assert e' in t.entries;
    }
    forall l | l in t.subscriptions ensures PinnedAt(t.entries, l, t.subscriptions[l]) {
      assert l != listener ==> l in s.subscriptions;
    }
  }

  lemma LeaveMembers(entries: seq<Entry>, id: nat, listener: nat)
    requires Distinct(entries)
    ensures Distinct(Leave(entries, id, listener))
    ensures forall d :: d in entries ==> Left(d, id, listener) in Leave(entries, id, listener)
    ensures forall e :: e in Leave(entries, id, listener) ==> exists d :: d in entries && e == Left(d, id, listener)
  {
    var left := Leave(entries, id, listener);
    LeaveFacts(entries, id, listener);
    forall e | e in left ensures exists d :: d in entries && e == Left(d, id, listener) {
      var i :| 0 <= i < |left| && left[i] == e;
      assert entries[i] in entries;
    }
    forall d | d in entries ensures Left(d, id, listener) in left {
      var i :| 0 <= i < |entries| && entries[i] == d;
      assert left[i] in left;
    }
  }

  lemma LeaveKeeps(s: State, listener: nat)
    requires Inv(s) && listener in s.subscriptions
    ensures var left := Leave(s.entries, s.subscriptions[listener].id, listener);
            Distinct(left) && Coherent(left, s.drafts) && Numbered(left, s.next) && Pinned(left, s.subscriptions - {listener})
  {
    var id := s.subscriptions[listener].id;
    var left := Leave(s.entries, id, listener);
    LeaveMembers(s.entries, id, listener);
    forall l | l in s.subscriptions - {listener} ensures PinnedAt(left, l, s.subscriptions[l]) {
      assert PinnedAt(s.entries, l, s.subscriptions[l]);
      var d :| d in s.entries && d.key == s.subscriptions[l].key && d.id == s.subscriptions[l].id && l in d.listeners;
      assert Left(d, id, listener) in left;
    }
  }

  lemma UnsubscribeFacts(s: State, listener: nat)
    requires Inv(s) && listener in s.subscriptions
    ensures Inv(Unsubscribe(s, listener)) && Trimmed(Unsubscribe(s, listener).entries, None)
  {
    var left := Leave(s.entries, s.subscriptions[listener].id, listener);
    LeaveKeeps(s, listener);
    TrimFacts(left, None);
    var t := Unsubscribe(s, listener);
    forall l | l in t.subscriptions ensures PinnedAt(t.entries, l, t.subscriptions[l]) {
      assert PinnedAt(left, l, t.subscriptions[l]);
      var d :| d in left && d.key == t.subscriptions[l].key && d.id == t.subscriptions[l].id && l in d.listeners;
      assert d in t.entries;
    }
  }

  /** The entry an operation protects from its own trim. */
  function Protected(e: Event): Option<Key> {
    match e
    case Reads(key) => Some(key)
    case Writes(key, _) => Some(key)
    case Adding(key, _) => Some(key)
    case Removing(key, _) => Some(key)
    case Takes(key) => Some(key)
    case Hydrates(key, _) => Some(key)
    case Subscribes(key, _) => Some(key)
    case Unsubscribes(_) => None
  }

  /** Every operation keeps the cache equal to the stored drafts and every subscriber on its own
      entry, and leaves at most 64 entries or nothing but the entry just used to evict. */
  lemma StepKeeps(s: State, e: Event)
    requires Inv(s) && Enabled(s, e)
    ensures Inv(Step(s, e)) && Trimmed(Step(s, e).entries, Protected(e))
  {
    match e
    case Reads(key) => TouchFacts(s, key);
    case Writes(key, refs) => WriteFacts(s, key, refs);
    case Adding(key, ref) =>
      TouchFacts(s, key);
      WriteFacts(Touch(s, key), key, Found(s, key).refs + [ref]);
    case Removing(key, id) =>
      TouchFacts(s, key);
      WriteFacts(Touch(s, key), key, WithoutRef(Found(s, key).refs, id));
    case Takes(key) =>
      TouchFacts(s, key);
      WriteFacts(Touch(s, key), key, []);
    case Hydrates(key, _) => HydrateFacts(s, key);
    case Subscribes(key, listener) => SubscribeFacts(s, key, listener);
    case Unsubscribes(listener) => UnsubscribeFacts(s, listener);
  }

  // ---- over whole runs -----------------------------------------------------------------------------------

  ghost predicate Possible(s: State, events: seq<Event>)
    decreases |events|
  {
    events == [] || (Enabled(s, events[0]) && Possible(Step(s, events[0]), events[1..]))
  }

  ghost function After(s: State, events: seq<Event>): State
    requires Possible(s, events)
    decreases |events|
  {
    if events == [] then s else After(Step(s, events[0]), events[1..])
  }

  lemma {:induction false} Always(s: State, events: seq<Event>)
    requires Inv(s) && Possible(s, events)
    ensures Inv(After(s, events))
    decreases |events|
  {
    if events != [] {
      StepKeeps(s, events[0]);
      Always(Step(s, events[0]), events[1..]);
    }
  }

  /** The cache is invisible: after any run, what a read or a send finds is the stored draft. */
  lemma CacheIsInvisible(events: seq<Event>, key: Key)
    requires Possible(INITIAL, events)
    ensures Found(After(INITIAL, events), key).refs == Draft(After(INITIAL, events).drafts, key)
  {
    Always(INITIAL, events);
    TouchFacts(After(INITIAL, events), key);
  }

  /** A mounted composer keeps its entry object through any further run in which it stays subscribed. */
  lemma SubscriberStaysPinned(events: seq<Event>, listener: nat)
    requires Possible(INITIAL, events) && listener in After(INITIAL, events).subscriptions
    ensures var s := After(INITIAL, events);
            var sub := s.subscriptions[listener];
            Lookup(s.entries, sub.key).Some? && Lookup(s.entries, sub.key).value.id == sub.id
            && listener in Lookup(s.entries, sub.key).value.listeners
  {
    Always(INITIAL, events);
    var s := After(INITIAL, events);
    var sub := s.subscriptions[listener];
    assert PinnedAt(s.entries, listener, sub);
    var e :| e in s.entries && e.key == sub.key && e.id == sub.id && listener in e.listeners;
    SameEntry(s.entries, e, Lookup(s.entries, sub.key).value);
  }

  /** Taking for a send returns exactly the stored draft and leaves it empty. */
  lemma TakeEmpties(s: State, key: Key)
    requires Inv(s)
    ensures Found(s, key).refs == Draft(s.drafts, key)
    ensures Draft(Step(s, Takes(key)).drafts, key) == []
    ensures forall k :: k != key ==> Draft(Step(s, Takes(key)).drafts, k) == Draft(s.drafts, k)
  {
    TouchFacts(s, key);
  }

  /** Adding never takes a draft past 16, and is refused only when it is full. */
  lemma AddBounded(s: State, key: Key, ref: Ref)
    requires Inv(s)
    ensures var before, after := Draft(s.drafts, key), Draft(Step(s, Adding(key, ref)).drafts, key);
            && (after == before || after == before + [ref])
            && (after != before <==> |before| < MAX_PENDING_ATTACHMENTS && !Duplicate(before, ref))
            && (|before| <= MAX_PENDING_ATTACHMENTS ==> |after| <= MAX_PENDING_ATTACHMENTS)
  {
    TouchFacts(s, key);
  }

  /** A draft written behind the cache's back (another module updating the same record) is seen
      exactly when its entry is not cached, or held the same attachments anyway. */
  lemma ForeignWriteExact(s: State, key: Key, refs: seq<Ref>)
    requires Inv(s)
    ensures var t := s.(drafts := s.drafts[key := refs]);
            Found(t, key).refs == refs <==> Lookup(s.entries, key).None? || Draft(s.drafts, key) == refs
  {
    if Lookup(s.entries, key).Some? {
      assert Lookup(s.entries, key).value in s.entries;
    }
  }
}
