/** The registry under persistence: lookups by type go to the in-memory registry, lookups by topic have
    no answer, and acknowledgements go to the store. */
module PersistentRegistries {
  import opened Events
  import opened Seqs
  import opened TopicTries
  import opened Registries
  import opened Subscriptions
  import opened OutboxTables
  import opened Retry

  class RedbRegistry {
    const inner: DashMapRegistry
    // The channel to the acknowledgement worker.
    var acks: seq<AckMessage>

    constructor (inner: DashMapRegistry)
      ensures this.inner == inner && acks == []
    {
      this.inner, acks := inner, [];
    }

    method GetSubscriptions(typeId: TypeId) returns (subs: seq<SubscriptionEntry>)
      requires inner.Valid()
      ensures subs == Filter(OfType(inner.log, typeId), IsActive())
    {
      subs := inner.GetSubscriptions(typeId);
    }

    /** Not forwarded: the default of the interface answers with nothing. */
    method GetTopicSubscriptions(topic: string) returns (subs: seq<SubscriptionEntry>)
      ensures subs == []
    {
      subs := [];
    }

    method SubscriptionCount(typeId: TypeId) returns (count: nat)
      requires inner.Valid()
      ensures count == |OfType(inner.log, typeId)|
    {
      count := inner.SubscriptionCount(typeId);
    }

    /** What the outbox asks of the registry. */
    function AsDirectory(): Directory
      reads inner
    {
      Directory(inner.nameToType, map t | t in inner.subscriptions :: |inner.subscriptions[t]|)
    }

    lemma CountIsListed(typeId: TypeId)
      requires inner.Valid()
      ensures AsDirectory().names == inner.nameToType
      ensures Count(AsDirectory(), typeId) == |OfType(inner.log, typeId)|
    {
      assert ListOf(inner.subscriptions, inner.log, typeId);
    }

    method AckEvent(id: EventId)
      modifies this
      ensures acks == old(acks) + [AckMessage(id, true)]
    {
      acks := acks + [AckMessage(id, true)];
    }

    method MarkFailed(id: EventId)
      modifies this
      ensures acks == old(acks) + [AckMessage(id, false)]
    {
      acks := acks + [AckMessage(id, false)];
    }

    /** A handler's task with one copy: it sends exactly one acknowledgement, a success or a failure by the
        verdict of the retry loop, unless computing a backoff panics. Then it sends none. */
    method HandleCopy(id: EventId, succeeds: nat -> bool, maxRetries: U32, base: Nanos, mode: Overflow)
      returns (verdict: Verdict)
      requires mode.Wrapping? ==> maxRetries < U32_LIMIT - 1
      modifies this
      ensures var f := Failures(succeeds, maxRetries + 1);
        if Fits(base, Min(f, maxRetries), mode) then acks == old(acks) + [AckMessage(id, f <= maxRetries)]
        else verdict == Panicked && acks == old(acks)
    {
      var runs, slept;
      verdict, runs, slept := HandleEnvelope(succeeds, maxRetries, base, mode);
      match verdict {
        case Acked => AckEvent(id);
        case MarkedFailed => MarkFailed(id);
        case Panicked =>
      }
    }
  }

  function Topicless(): Registration -> bool { (r: Registration) => r.entry.topic.None? }

  /** Registrations the lookups of this registry can lead to. */
  ghost function ByTypeOnly(log: seq<Registration>): seq<Registration> { Filter(log, Topicless()) }

  /** The recipients of an event under persistence: by type only, whatever topic it has. */
  ghost predicate TypeRecipient(log: seq<Registration>, live: set<SubId>, passes: (FilterId, Envelope) -> bool,
      e: Envelope, id: SubId)
  {
    id in live && exists i :: 0 <= i < |log| && TypeMatch(log[i], e, id) && Accepts(log[i].entry, e, passes)
  }

  ghost predicate TypeMatch(r: Registration, e: Envelope, id: SubId) {
    r.entry.id == id && r.typeId == e.typeId && r.entry.active && r.entry.topic.None?
  }

  /** The dispatch targets computed over this registry. There are never more than the type lists,
      so the count that an event row is given covers all acknowledgements. */
  method Targets(manager: SubscriptionManager, registry: RedbRegistry, e: Envelope) returns (targets: seq<SubId>)
    requires registry.inner == manager.registry && manager.registry.Valid()
    ensures forall j, k :: 0 <= j < k < |targets| ==> targets[j] != targets[k]
    ensures forall id :: id in targets <==>
      TypeRecipient(manager.registry.log, manager.subscriptions.Keys, manager.passes, e, id)
    ensures forall id :: id in targets <==> id in manager.subscriptions && exists i ::
      && 0 <= i < |manager.registry.log| && manager.registry.log[i].typeId == e.typeId
      && manager.registry.log[i].entry.id == id && manager.registry.log[i].entry.active
      && manager.registry.log[i].entry.topic.None?
      && (manager.registry.log[i].entry.filter.None? || manager.passes(manager.registry.log[i].entry.filter.value, e))
    ensures |targets| <= |OfType(manager.registry.log, e.typeId)| == Count(registry.AsDirectory(), e.typeId)
  {
    hide DashMapRegistry.Valid;
    DistinctLog(manager.registry);
    var active := registry.GetSubscriptions(e.typeId);
    var byType := Select(active, HasNoTopic());
    var byTopic := registry.GetTopicSubscriptions(TargetTopic(e));
    var candidates := Merge(byType, byTopic);
    ghost var log := manager.registry.log;
    assert candidates == byType by {
      assert Filter(byTopic, NewTo(byType)) == [];
    }
    TopiclessShare(log, e);
    OnlyByType(log, e, byType);
    targets := manager.Screen(candidates, e, ByTypeOnly(log));
    forall id ensures Recipient(ByTypeOnly(log), manager.subscriptions.Keys, manager.passes, e, id)
        <==> TypeRecipient(log, manager.subscriptions.Keys, manager.passes, e, id) {
      SameRecipient(log, manager.subscriptions.Keys, manager.passes, e, id);
    }
    forall k | 0 <= k < |targets| ensures InType(log, e, targets[k]) {
      assert targets[k] in targets;
    }
    RecipientsCounted(log, e, targets);
    registry.CountIsListed(e.typeId);
  }

  lemma DistinctLog(registry: DashMapRegistry)
    requires registry.Valid()
    ensures DistinctIds(registry.log)
  {
  }

  lemma OnlyByType(log: seq<Registration>, e: Envelope, byType: seq<SubscriptionEntry>)
    requires DistinctIds(log) && Share(byType, log, e, false)
    ensures DistinctIds(ByTypeOnly(log)) && Candidates(byType, ByTypeOnly(log), e)
  {
    var only := ByTypeOnly(log);
    FilterDistinct(log, Topicless());
    forall k | 0 <= k < |byType| ensures Wanted(byType[k], only, e) {
      assert FromShare(byType[k], log, e, false);
      var i :| 0 <= i < |log| && log[i].entry == byType[k] && InShare(log[i], e, false);
      var j := FilterComplete(log, Topicless(), i);
      assert Wants(only[j], e);
    }
    forall j | 0 <= j < |only| && Wants(only[j], e) ensures only[j].entry in byType {
      var i := FilterFrom(log, Topicless(), j);
      assert InShare(log[i], e, false);
    }
  }

  lemma SameRecipient(log: seq<Registration>, live: set<SubId>, passes: (FilterId, Envelope) -> bool, e: Envelope,
      id: SubId)
    ensures Recipient(ByTypeOnly(log), live, passes, e, id) <==> TypeRecipient(log, live, passes, e, id)
  {
    var only := ByTypeOnly(log);
    if Recipient(only, live, passes, e, id) {
      var j :| 0 <= j < |only| && only[j].entry.id == id && Wants(only[j], e) && Accepts(only[j].entry, e, passes);
      var i := FilterFrom(log, Topicless(), j);
      assert TypeMatch(log[i], e, id);
    }
    if TypeRecipient(log, live, passes, e, id) {
      var i :| 0 <= i < |log| && TypeMatch(log[i], e, id) && Accepts(log[i].entry, e, passes);
      var j := FilterComplete(log, Topicless(), i);
      assert Wants(only[j], e);
    }
  }

  ghost predicate InType(log: seq<Registration>, e: Envelope, id: SubId) {
    exists i :: 0 <= i < |log| && TypeMatch(log[i], e, id)
  }

  function Ids(entries: seq<SubscriptionEntry>): seq<SubId> {
    seq(|entries|, i requires 0 <= i < |entries| => entries[i].id)
  }

  lemma RecipientsCounted(log: seq<Registration>, e: Envelope, targets: seq<SubId>)
    requires forall j, k :: 0 <= j < k < |targets| ==> targets[j] != targets[k]
    requires forall k :: 0 <= k < |targets| ==> InType(log, e, targets[k])
    ensures |targets| <= |OfType(log, e.typeId)|
  {
    var ids := Ids(OfType(log, e.typeId));
    forall k | 0 <= k < |targets| ensures targets[k] in ids {
      var i :| 0 <= i < |log| && TypeMatch(log[i], e, targets[k]);
      var l := OfTypeComplete(log, i);
      assert ids[l] == targets[k];
    }
    Pigeonhole(targets, ids);
  }

  lemma {:induction false} Pigeonhole(pigeons: seq<SubId>, holes: seq<SubId>)
    requires forall j, k :: 0 <= j < k < |pigeons| ==> pigeons[j] != pigeons[k]
    requires forall k :: 0 <= k < |pigeons| ==> pigeons[k] in holes
    ensures |pigeons| <= |holes|
  {
    if pigeons != [] {
      var n := |pigeons| - 1;
      var p :| 0 <= p < |holes| && holes[p] == pigeons[n];
      var others := holes[..p] + holes[p + 1..];
      forall k | 0 <= k < n ensures pigeons[k] in others {
        var q :| 0 <= q < |holes| && holes[q] == pigeons[k];
        assert others[if q < p then q else q - 1] == pigeons[k];
      }
      Pigeonhole(pigeons[..n], others);
    }
  }
}
