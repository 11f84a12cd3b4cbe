/** Live subscriptions: who receives an event, and when a subscription ends. */
module Subscriptions {
  import opened Events
  import opened Seqs
  import opened Topics
  import opened TopicTries
  import opened Registries

  /** The registration wants the event: by type when it has no topic, by topic alone when it has one. */
  ghost predicate Wants(r: Registration, e: Envelope) {
    r.entry.active
    && match r.entry.topic
       case None => r.typeId == e.typeId
       case Some(pattern) => Selects(pattern, TargetTopic(e))
  }

  predicate Accepts(entry: SubscriptionEntry, e: Envelope, passes: (FilterId, Envelope) -> bool) {
    entry.filter.None? || passes(entry.filter.value, e)
  }

  /** The recipients of an event, by a scan of the registrations. */
  ghost predicate Recipient(log: seq<Registration>, live: set<SubId>, passes: (FilterId, Envelope) -> bool,
      e: Envelope, id: SubId)
  {
    id in live
    && exists i :: 0 <= i < |log| && log[i].entry.id == id && Wants(log[i], e) && Accepts(log[i].entry, e, passes)
  }

  /** The topic that decides for registrations with a pattern. */
  lemma TopicOf(e: Envelope)
    ensures TargetTopic(e) == if e.metadata.topic.Some? then e.metadata.topic.value else e.typeName
  {
  }

  /** Who receives an event, in full: live, active, let through by its filter, and either without a
      pattern and of the event's type, or with a pattern that selects the explicit topic of the event, or
      the name of its type when it has none. */
  lemma RecipientMeans(log: seq<Registration>, live: set<SubId>, passes: (FilterId, Envelope) -> bool, e: Envelope,
      id: SubId)
    ensures Recipient(log, live, passes, e, id) <==>
      && id in live
      && (exists i ::
            && 0 <= i < |log| && log[i].entry.id == id && log[i].entry.active
            && (log[i].entry.filter.Some? ==> passes(log[i].entry.filter.value, e))
            && (log[i].entry.topic.None? ==> log[i].typeId == e.typeId)
            && (log[i].entry.topic.Some? ==>
                  Selects(log[i].entry.topic.value,
                    if e.metadata.topic.Some? then e.metadata.topic.value else e.typeName)))
  {
    TopicOf(e);
  }

  /** A paused subscription receives nothing. */
  lemma PausedReceivesNothing(log: seq<Registration>, live: set<SubId>, passes: (FilterId, Envelope) -> bool,
      e: Envelope, id: SubId)
    ensures !Recipient(Paused(log, id), live, passes, e, id)
  {
  }

  /** A candidate list holds each wanted entry once, and no other. */
  ghost predicate Candidates(subs: seq<SubscriptionEntry>, log: seq<Registration>, e: Envelope) {
    && DistinctEntries(subs)
    && (forall k :: 0 <= k < |subs| ==> Wanted(subs[k], log, e))
    && (forall i :: 0 <= i < |log| && Wants(log[i], e) ==> log[i].entry in subs)
  }

  ghost predicate Wanted(entry: SubscriptionEntry, log: seq<Registration>, e: Envelope) {
    exists i :: 0 <= i < |log| && log[i].entry == entry && Wants(log[i], e)
  }

  function HasNoTopic(): SubscriptionEntry -> bool { (s: SubscriptionEntry) => s.topic.None? }

  function NewTo(subs: seq<SubscriptionEntry>): SubscriptionEntry -> bool {
    (s: SubscriptionEntry) => forall j :: 0 <= j < |subs| ==> subs[j].id != s.id
  }

  /** Appends the entries of `more` whose ids are not there yet. */
  method Merge(subs: seq<SubscriptionEntry>, more: seq<SubscriptionEntry>) returns (merged: seq<SubscriptionEntry>)
    requires DistinctEntries(more)
    ensures merged == subs + Filter(more, NewTo(subs))
  {
    merged := subs;
    for k := 0 to |more|
      invariant merged == subs + Filter(more[..k], NewTo(subs))
    {
      ghost var added := Filter(more[..k], NewTo(subs));
      forall j | 0 <= j < |added| ensures added[j].id != more[k].id {
        var i := FilterFrom(more[..k], NewTo(subs), j);
      }
      assert more[..k + 1] == more[..k] + [more[k]];
      FilterPush(more[..k], more[k], NewTo(subs));
      assert forall j :: 0 <= j < |subs| ==> merged[j] == subs[j];
      if forall j :: 0 <= j < |merged| ==> merged[j].id != more[k].id {
        merged := merged + [more[k]];
      }
    }
    assert more[..|more|] == more;
  }

  /** What the two lookups return: the entries without a topic, and the entries with one. */
  ghost predicate Share(subs: seq<SubscriptionEntry>, log: seq<Registration>, e: Envelope, withTopic: bool) {
    && DistinctEntries(subs)
    && (forall k :: 0 <= k < |subs| ==> FromShare(subs[k], log, e, withTopic))
    && (forall i :: 0 <= i < |log| && InShare(log[i], e, withTopic) ==> log[i].entry in subs)
  }

  ghost predicate FromShare(entry: SubscriptionEntry, log: seq<Registration>, e: Envelope, withTopic: bool) {
    exists i :: 0 <= i < |log| && log[i].entry == entry && InShare(log[i], e, withTopic)
  }

  ghost predicate InShare(r: Registration, e: Envelope, withTopic: bool) {
    Wants(r, e) && r.entry.topic.Some? == withTopic
  }

  lemma TopiclessShare(log: seq<Registration>, e: Envelope)
    requires DistinctIds(log)
    ensures Share(Filter(Filter(OfType(log, e.typeId), IsActive()), HasNoTopic()), log, e, false)
  {
    var listed := OfType(log, e.typeId);
    var active := Filter(listed, IsActive());
    var subs := Filter(active, HasNoTopic());
    FilterDistinct(log, HasType(e.typeId));
    FilterDistinctEntries(listed, IsActive());
    FilterDistinctEntries(active, HasNoTopic());
    forall k | 0 <= k < |subs| ensures FromShare(subs[k], log, e, false) {
      var a := FilterFrom(active, HasNoTopic(), k);
      var l := FilterFrom(listed, IsActive(), a);
      var i := Position(log, e.typeId, l);
      assert InShare(log[i], e, false);
    }
    forall i | 0 <= i < |log| && InShare(log[i], e, false) ensures log[i].entry in subs {
      var l := OfTypeComplete(log, i);
      var a := FilterComplete(listed, IsActive(), l);
      var k := FilterComplete(active, HasNoTopic(), a);
    }
  }

  lemma TopicShare(log: seq<Registration>, e: Envelope, subs: seq<SubscriptionEntry>)
    requires DistinctEntries(subs)
    requires forall k :: 0 <= k < |subs| ==> TopicTarget(log, TargetTopic(e), subs[k])
    requires forall i :: 0 <= i < |log| && TopicTarget(log, TargetTopic(e), log[i].entry) ==> log[i].entry in subs
    ensures Share(subs, log, e, true)
  {
    forall k | 0 <= k < |subs| ensures FromShare(subs[k], log, e, true) {
      assert TopicTarget(log, TargetTopic(e), subs[k]);
      var i :| 0 <= i < |log| && log[i].entry == subs[k];
      assert InShare(log[i], e, true);
    }
    forall i | 0 <= i < |log| && InShare(log[i], e, true) ensures log[i].entry in subs {
      assert TopicTarget(log, TargetTopic(e), log[i].entry);
    }
  }

  /** The shares have no id in common, so nothing is lost in the merge. */
  lemma SharesDisjoint(log: seq<Registration>, e: Envelope, byType: seq<SubscriptionEntry>,
      byTopic: seq<SubscriptionEntry>)
    requires DistinctIds(log) && Share(byType, log, e, false) && Share(byTopic, log, e, true)
    ensures DistinctEntries(byType + byTopic)
    ensures Filter(byTopic, NewTo(byType)) == byTopic
  {
    forall j, k | 0 <= j < |byType| && 0 <= k < |byTopic| ensures byType[j].id != byTopic[k].id {
      var i :| 0 <= i < |log| && log[i].entry == byType[j] && InShare(log[i], e, false);
      var i' :| 0 <= i' < |log| && log[i'].entry == byTopic[k] && InShare(log[i'], e, true);
    }
    FilterAll(byTopic, NewTo(byType));
  }

  lemma CompleteCandidates(log: seq<Registration>, e: Envelope, byType: seq<SubscriptionEntry>,
      byTopic: seq<SubscriptionEntry>)
    requires DistinctIds(log) && Share(byType, log, e, false) && Share(byTopic, log, e, true)
    ensures Candidates(byType + Filter(byTopic, NewTo(byType)), log, e)
  {
    SharesDisjoint(log, e, byType, byTopic);
    var all := byType + byTopic;
    forall k | 0 <= k < |all| ensures Wanted(all[k], log, e) {
      assert FromShare(all[k], log, e, k >= |byType|);
    }
    forall i | 0 <= i < |log| && Wants(log[i], e) ensures log[i].entry in all {
      assert InShare(log[i], e, log[i].entry.topic.Some?);
    }
  }

  /** A live subscription: what its handler task has taken, and its bounded inbox. */
  datatype SubscriptionData = SubscriptionData(handled: seq<Envelope>, inbox: seq<Envelope>)

  /** All a subscription has got, in order. */
  function Got(data: SubscriptionData): seq<Envelope> { data.handled + data.inbox }

  /** A subscription whose task has handled all it got. */
  function WorkedOff(data: SubscriptionData): SubscriptionData { SubscriptionData(Got(data), []) }

  /** A channel holds at least one message. */
  type Capacity = n: nat | n > 0 witness 1

  class SubscriptionManager {
    const registry: DashMapRegistry
    const passes: (FilterId, Envelope) -> bool
    const channelSize: Capacity
    var subscriptions: map<SubId, SubscriptionData>

    constructor (registry: DashMapRegistry, passes: (FilterId, Envelope) -> bool, channelSize: Capacity)
      ensures this.registry == registry && this.passes == passes && this.channelSize == channelSize
      ensures subscriptions == map[]
    {
      this.registry, this.passes, this.channelSize := registry, passes, channelSize;
      subscriptions := map[];
    }

    /** The subscriptions an event goes to: the type's entries without a topic, merged with the
        topic's entries, less those whose filter refuses the event or whose task is gone. */
    method Targets(e: Envelope) returns (targets: seq<SubId>)
      requires registry.Valid()
      ensures forall j, k :: 0 <= j < k < |targets| ==> targets[j] != targets[k]
      ensures forall id :: id in targets <==> Recipient(registry.log, subscriptions.Keys, passes, e, id)
      ensures forall id :: id in targets <==>
        && id in subscriptions
        && (exists i ::
              && 0 <= i < |registry.log| && registry.log[i].entry.id == id && registry.log[i].entry.active
              && (registry.log[i].entry.filter.Some? ==> passes(registry.log[i].entry.filter.value, e))
              && (registry.log[i].entry.topic.None? ==> registry.log[i].typeId == e.typeId)
              && (registry.log[i].entry.topic.Some? ==>
                    Selects(registry.log[i].entry.topic.value,
                      if e.metadata.topic.Some? then e.metadata.topic.value else e.typeName)))
    {
      var active := registry.GetSubscriptions(e.typeId);
      var byType := Select(active, HasNoTopic());
      var byTopic := registry.GetTopicSubscriptions(TargetTopic(e));
      var candidates := Merge(byType, byTopic);
      TopiclessShare(registry.log, e);
      TopicShare(registry.log, e, byTopic);
      CompleteCandidates(registry.log, e, byType, byTopic);
      targets := Screen(candidates, e, registry.log);
      forall id ensures id in targets <==> Recipient(registry.log, subscriptions.Keys, passes, e, id) {
        RecipientMeans(registry.log, subscriptions.Keys, passes, e, id);
      }
    }

    ghost predicate Passed(entry: SubscriptionEntry, e: Envelope, id: SubId)
      reads this
    {
      entry.id == id && Accepts(entry, e, passes) && id in subscriptions
    }

    method Screen(candidates: seq<SubscriptionEntry>, e: Envelope, ghost log: seq<Registration>)
      returns (targets: seq<SubId>)
      requires DistinctIds(log) && Candidates(candidates, log, e)
      ensures forall j, k :: 0 <= j < k < |targets| ==> targets[j] != targets[k]
      ensures forall id :: id in targets <==> Recipient(log, subscriptions.Keys, passes, e, id)
    {
      targets := [];
      for k := 0 to |candidates|
        invariant forall i, j :: 0 <= i < j < |targets| ==> targets[i] != targets[j]
        invariant forall id :: id in targets <==> exists j :: 0 <= j < k && Passed(candidates[j], e, id)
      {
        assert candidates[k].id !in targets;
        if Accepts(candidates[k], e, passes) && candidates[k].id in subscriptions {
          targets := targets + [candidates[k].id];
        }
      }
      forall id ensures id in targets <==> Recipient(log, subscriptions.Keys, passes, e, id) {
        if id in targets {
          var j :| 0 <= j < |candidates| && Passed(candidates[j], e, id);
          assert Wanted(candidates[j], log, e);
        }
        if Recipient(log, subscriptions.Keys, passes, e, id) {
          var i :| 0 <= i < |log| && log[i].entry.id == id && Wants(log[i], e) && Accepts(log[i].entry, e, passes);
          assert log[i].entry in candidates;
        }
      }
    }

    /** Sends an event to every recipient whose inbox has room. The sends to full inboxes stay
        pending, and with them the whole dispatch. */
    method Dispatch(e: Envelope) returns (pending: seq<SubId>)
      requires registry.Valid()
      modifies this
      ensures subscriptions.Keys == old(subscriptions.Keys)
      ensures forall id :: id in subscriptions ==>
        var before := old(subscriptions[id]);
        subscriptions[id] == before.(inbox := before.inbox +
          (if old(Recipient(registry.log, subscriptions.Keys, passes, e, id)) && |before.inbox| < channelSize
           then [e] else []))
      ensures forall j, k :: 0 <= j < k < |pending| ==> pending[j] != pending[k]
      ensures forall id :: id in pending <==>
        old(Recipient(registry.log, subscriptions.Keys, passes, e, id) && |subscriptions[id].inbox| >= channelSize)
    {
      var targets := Targets(e);
      pending := SendAll(targets, e);
    }

    method SendAll(targets: seq<SubId>, e: Envelope) returns (pending: seq<SubId>)
      requires forall j, k :: 0 <= j < k < |targets| ==> targets[j] != targets[k]
      requires forall id :: id in targets ==> id in subscriptions
      modifies this
      ensures subscriptions.Keys == old(subscriptions.Keys)
      ensures forall id :: id in subscriptions ==>
        var before := old(subscriptions[id]);
        subscriptions[id] == before.(inbox := before.inbox +
          (if id in targets && |before.inbox| < channelSize then [e] else []))
      ensures forall j, k :: 0 <= j < k < |pending| ==> pending[j] != pending[k]
      ensures forall id :: id in pending <==> id in targets && old(|subscriptions[id].inbox|) >= channelSize
    {
      pending := [];
      for k := 0 to |targets|
        invariant subscriptions.Keys == old(subscriptions.Keys)
        invariant forall id :: id in subscriptions ==>
          var before := old(subscriptions[id]);
          subscriptions[id] == before.(inbox := before.inbox +
            (if id in targets[..k] && |before.inbox| < channelSize then [e] else []))
        invariant forall i, j :: 0 <= i < j < |pending| ==> pending[i] != pending[j]
        invariant forall id :: id in pending <==>
          id in targets[..k] && id in old(subscriptions) && old(|subscriptions[id].inbox|) >= channelSize
      {
        var id := targets[k];
        assert id !in targets[..k];
        assert targets[..k + 1] == targets[..k] + [id];
        if |subscriptions[id].inbox| < channelSize {
          subscriptions := subscriptions[id := subscriptions[id].(inbox := subscriptions[id].inbox + [e])];
        } else {
          pending := pending + [id];
        }
      }
      assert targets[..|targets|] == targets;
    }

    /** A send that found the inbox full goes through once the handler has taken its next event. When
        the subscription has ended in the meantime, the send fails and is only logged. */
    method Deliver(id: SubId, e: Envelope)
      modifies this
      ensures subscriptions.Keys == old(subscriptions.Keys)
      ensures id in subscriptions ==> Got(subscriptions[id]) == old(Got(subscriptions[id])) + [e]
      ensures forall other :: other in subscriptions && other != id ==>
        subscriptions[other] == old(subscriptions[other])
    {
      if id in subscriptions {
        var data := subscriptions[id];
        if |data.inbox| >= channelSize {
          data := SubscriptionData(data.handled + [data.inbox[0]], data.inbox[1..]);
        }
        assert Got(data) == Got(subscriptions[id]);
        data := data.(inbox := data.inbox + [e]);
        assert Got(data) == Got(subscriptions[id]) + [e];
        subscriptions := subscriptions[id := data];
      }
    }

    /** Ends a subscription at once. What its inbox still holds is discarded with its task. */
    method Unsubscribe(id: SubId) returns (result: RegistryResult)
      requires registry.Valid()
      modifies this, registry.Repr()
      ensures registry.Valid()
      ensures registry.log == Dropped(old(registry.log), id)
      ensures var known := old(Registered(registry.log, id));
        && subscriptions == (if known then old(subscriptions) - {id} else old(subscriptions))
        && result == (if known && id in old(subscriptions) then Done else SubscriptionNotFound(id))
      ensures forall e :: !Recipient(registry.log, subscriptions.Keys, passes, e, id)
    {
      result := registry.Unregister(id);
      NoLongerRegistered(old(registry.log), id);
      if result == SubscriptionNotFound(id) {
        return;
      }
      if id in subscriptions {
        subscriptions := subscriptions - {id};
      } else {
        result := SubscriptionNotFound(id);
      }
    }

    lemma NoLongerRegistered(log: seq<Registration>, id: SubId)
      ensures !Registered(Dropped(log, id), id)
    {
      forall k | 0 <= k < |Dropped(log, id)| ensures Dropped(log, id)[k].entry.id != id {
        var i := FilterFrom(log, Without(id), k);
      }
    }

    /** Closes every inbox and takes every live subscription out of the registry, then waits for each task
        to work off what its inbox still holds. */
    method ShutdownGracefully() returns (finished: map<SubId, SubscriptionData>)
      requires registry.Valid()
      modifies this, registry.Repr()
      ensures registry.Valid() && subscriptions == map[]
      ensures finished == map id | id in old(subscriptions) :: WorkedOff(old(subscriptions[id]))
      ensures forall id :: id in finished ==>
        finished[id].handled == old(subscriptions[id].handled + subscriptions[id].inbox) && finished[id].inbox == []
      ensures forall id :: Registered(registry.log, id) <==> old(Registered(registry.log, id)) && id !in finished
    {
      var handles := ReleaseAll();
      finished := AwaitAll(handles);
    }

    static method AwaitAll(handles: map<SubId, SubscriptionData>) returns (finished: map<SubId, SubscriptionData>)
      ensures finished == map id | id in handles :: WorkedOff(handles[id])
    {
      finished := map[];
      var left := handles.Keys;
      while left != {}
        invariant left <= handles.Keys
        invariant finished == map id | id in handles && id !in left :: WorkedOff(handles[id])
        decreases left
      {
        var id :| id in left;
        var data := AwaitTask(handles[id]);
        finished := finished[id := data];
        left := left - {id};
      }
    }

    /** A handler task whose channel is closed ends when it has taken every event out of its inbox. */
    static method AwaitTask(data: SubscriptionData) returns (done: SubscriptionData)
      ensures done == WorkedOff(data)
    {
      done := data;
      while done.inbox != []
        invariant Got(done) == Got(data)
        decreases |done.inbox|
      {
        done := SubscriptionData(done.handled + [done.inbox[0]], done.inbox[1..]);
      }
    }

    method ReleaseAll() returns (handles: map<SubId, SubscriptionData>)
      requires registry.Valid()
      modifies this, registry.Repr()
      ensures registry.Valid()
      ensures subscriptions == map[] && handles == old(subscriptions)
      ensures forall id :: Registered(registry.log, id) <==> old(Registered(registry.log, id)) && id !in handles
    {
      hide DashMapRegistry.Valid;
      handles := map[];
      var ids := subscriptions.Keys;
      while ids != {}
        invariant registry.Valid() && registry.Repr() == old(registry.Repr())
        invariant subscriptions.Keys == ids && ids <= old(subscriptions.Keys)
        invariant forall id :: id in ids ==> subscriptions[id] == old(subscriptions[id])
        invariant handles == map id | id in old(subscriptions) && id !in ids :: old(subscriptions[id])
        invariant forall id :: Registered(registry.log, id) <==> old(Registered(registry.log, id)) && id !in handles
        decreases ids
      {
        var id :| id in ids;
        var data := Release(id);
        handles := handles[id := data];
        ids := ids - {id};
      }
    }

    /** Ends everything at once: the registry is cleared, and every inbox discarded with its task. */
    method Shutdown()
      requires registry.Valid()
      modifies this, registry
      ensures registry.Valid() && registry.log == [] && subscriptions == map[]
      ensures forall e, id :: !Recipient(registry.log, subscriptions.Keys, passes, e, id)
    {
      registry.Clear();
      subscriptions := map[];
    }

    method Release(id: SubId) returns (data: SubscriptionData)
      requires registry.Valid() && id in subscriptions
      modifies this, registry.Repr()
      ensures registry.Valid() && registry.Repr() == old(registry.Repr())
      ensures data == old(subscriptions[id]) && subscriptions == old(subscriptions) - {id}
      ensures forall j :: Registered(registry.log, j) <==> old(Registered(registry.log, j)) && j != id
    {
      hide DashMapRegistry.Valid, Dropped;
      data := subscriptions[id];
      subscriptions := subscriptions - {id};
      OthersStayRegistered(registry.log, id);
      var _ := registry.Unregister(id);
    }

    lemma OthersStayRegistered(log: seq<Registration>, id: SubId)
      ensures forall j :: Registered(Dropped(log, id), j) <==> Registered(log, j) && j != id
    {
      NoLongerRegistered(log, id);
      forall j ensures Registered(Dropped(log, id), j) <==> Registered(log, j) && j != id {
        if Registered(Dropped(log, id), j) {
          var k :| 0 <= k < |Dropped(log, id)| && Dropped(log, id)[k].entry.id == j;
          var i := FilterFrom(log, Without(id), k);
        }
        if Registered(log, j) && j != id {
          var i :| 0 <= i < |log| && log[i].entry.id == j;
          var k := FilterComplete(log, Without(id), i);
        }
      }
    }
  }
}
