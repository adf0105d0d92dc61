/**
  The attachment module as it runs: the `entries` map reordered and trimmed in place. Each
  public method is one step of AttachmentCache, whose invariant `Valid` every call keeps.
 */
module AttachmentCacheObject {
  import opened Prelude
  import opened AttachmentCache

  class Attachments {
    /** The map in insertion order, oldest first. */
    var entries: seq<Entry>
    /** The draft records behind the cache. */
    var drafts: map<Key, seq<Ref>>
    var next: nat
    var subscriptions: map<nat, Subscription>

    function Model(): State
      reads this
    {
      State(entries, drafts, next, subscriptions)
    }

    /** Every cached entry equals the stored draft. */
    ghost predicate Valid()
      reads this
      ensures Valid() ==> forall e :: e in entries ==> e.refs == Draft(drafts, e.key)
    {
      Inv(Model())
    }

    twostate predicate Took(e: Event)
      reads this
    {
      Enabled(old(Model()), e) && Model() == Step(old(Model()), e)
    }

    twostate lemma StaysValid(e: Event)
      requires old(Valid()) && Took(e)
      ensures Valid()
    {
      StepKeeps(old(Model()), e);
    }

    constructor ()
      ensures Model() == INITIAL
    {
      entries, drafts, next, subscriptions := [], map[], 0, map[];
    }

    method TrimEntries(kept: Option<Key>)
      modifies this`entries
      ensures entries == Trim(old(entries), kept)
    {
      while |entries| > MAX_ATTACHMENT_ENTRIES
        invariant Trim(entries, kept) == Trim(old(entries), kept)
        decreases |entries|
      {
        var k := Stale(entries, kept);
        if k == |entries| {
          return;
        }
        entries := entries[..k] + entries[k + 1..];
      }
    }

    method EntryOf(key: Key) returns (e: Entry)
      modifies this
      ensures Model() == Touch(old(Model()), key) && e == Found(old(Model()), key)
    {
      var cached := Lookup(entries, key);
      match cached {
        case Some(found) => e := found;
        case None =>
          e := Entry(key, next, Draft(drafts, key), {});
          next := next + 1;
      }
      entries := Without(entries, key) + [e];
      TrimEntries(Some(key));
    }

    method Set(key: Key, refs: seq<Ref>)
      modifies this
      ensures Took(Writes(key, refs))
    {
      var e := EntryOf(key);
      entries := Replace(entries, e.(refs := refs));
      drafts := drafts[key := refs];
    }

    method PendingAttachments(key: Key) returns (refs: seq<Ref>)
      modifies this
      ensures Took(Reads(key)) && refs == Found(old(Model()), key).refs
    {
      var e := EntryOf(key);
      refs := e.refs;
    }

    /** False when the draft is full; a duplicate is accepted without being added. */
    method AddAttachment(key: Key, ref: Ref) returns (ok: bool)
      modifies this
      ensures Took(Adding(key, ref))
      ensures ok <==> |Found(old(Model()), key).refs| < MAX_PENDING_ATTACHMENTS
    {
      var e := EntryOf(key);
      if |e.refs| >= MAX_PENDING_ATTACHMENTS {
        return false;
      }
      if Duplicate(e.refs, ref) {
        return true;
      }
      Set(key, e.refs + [ref]);
      return true;
    }

    method RemoveAttachment(key: Key, id: string)
      modifies this
      ensures Took(Removing(key, id))
    {
      var e := EntryOf(key);
      Set(key, WithoutRef(e.refs, id));
    }

    method TakeAttachments(key: Key) returns (refs: seq<Ref>)
      modifies this
      ensures Took(Takes(key)) && refs == Found(old(Model()), key).refs
    {
      var e := EntryOf(key);
      refs := e.refs;
      if |refs| > 0 {
        Set(key, []);
      }
    }

    /** hydratePendingAttachments after its await. */
    method OnHydrated(key: Key, refs: seq<Ref>)
      requires Enabled(Model(), Hydrates(key, refs))
      modifies this
      ensures Took(Hydrates(key, refs))
    {
      var e := EntryOf(key);
      entries := Replace(entries, e.(refs := refs));
    }

    method SubscribeTo(key: Key, listener: nat)
      requires Enabled(Model(), Subscribes(key, listener))
      modifies this
      ensures Took(Subscribes(key, listener))
    {
      var e := EntryOf(key);
      entries := Replace(entries, e.(listeners := e.listeners + {listener}));
      subscriptions := subscriptions[listener := Subscription(key, e.id)];
    }

    /** The function a subscription returned. */
    method End(listener: nat)
      requires Enabled(Model(), Unsubscribes(listener))
      modifies this
      ensures Took(Unsubscribes(listener))
    {
      entries := Leave(entries, subscriptions[listener].id, listener);
      subscriptions := subscriptions - {listener};
      TrimEntries(None);
    }
  }
}
