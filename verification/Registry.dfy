/** The table of subscriptions: lists by event type, indexes by id, and the topic index. */
module Registries {
  import opened Events
  import opened Seqs
  import opened Topics
  import opened TopicTries

  // A predicate on envelopes supplied by the handler; see Subscriptions for how it is consulted.
  type FilterId = nat

  datatype SubscriptionEntry = SubscriptionEntry(
    id: SubId, name: string, active: bool, topic: Option<string>, filter: Option<FilterId>)

  datatype RegistryResult = Done | SubscriptionNotFound(id: SubId)

  /** One registration: the reference model of the registry is the list of those in force, oldest first. */
  datatype Registration = Registration(typeId: TypeId, entry: SubscriptionEntry)

  function Entries(regs: seq<Registration>): seq<SubscriptionEntry> {
    seq(|regs|, i requires 0 <= i < |regs| => regs[i].entry)
  }

  function HasType(typeId: TypeId): Registration -> bool { (r: Registration) => r.typeId == typeId }
  function Without(id: SubId): Registration -> bool { (r: Registration) => r.entry.id != id }
  function EntryWithout(id: SubId): SubscriptionEntry -> bool { (e: SubscriptionEntry) => e.id != id }
  function IsActive(): SubscriptionEntry -> bool { (e: SubscriptionEntry) => e.active }
  function IsHit(ids: set<SubId>): SubscriptionEntry -> bool { (e: SubscriptionEntry) => e.active && e.id in ids }

  ghost function OfType(log: seq<Registration>, typeId: TypeId): seq<SubscriptionEntry> {
    Entries(Filter(log, HasType(typeId)))
  }

  ghost function Dropped(log: seq<Registration>, id: SubId): seq<Registration> {
    Filter(log, Without(id))
  }

  function PausedEntry(e: SubscriptionEntry, id: SubId): SubscriptionEntry {
    if e.id == id then e.(active := false) else e
  }

  ghost function Paused(log: seq<Registration>, id: SubId): seq<Registration> {
    seq(|log|, i requires 0 <= i < |log| => log[i].(entry := PausedEntry(log[i].entry, id)))
  }

  ghost predicate Registered(log: seq<Registration>, id: SubId) {
    exists i :: 0 <= i < |log| && log[i].entry.id == id
  }

  ghost predicate DistinctIds(log: seq<Registration>) {
    forall i, j :: 0 <= i < j < |log| ==> log[i].entry.id != log[j].entry.id
  }

  ghost predicate DistinctEntries(subs: seq<SubscriptionEntry>) {
    forall j, k :: 0 <= j < k < |subs| ==> subs[j].id != subs[k].id
  }

  lemma FilterDistinct(log: seq<Registration>, keep: Registration -> bool)
    requires DistinctIds(log)
    ensures DistinctIds(Filter(log, keep))
  {
    forall j, k | 0 <= j < k < |Filter(log, keep)|
      ensures Filter(log, keep)[j].entry.id != Filter(log, keep)[k].entry.id
    {
      FilterOrdered(log, keep, j, k);
    }
  }

  lemma FilterDistinctEntries(subs: seq<SubscriptionEntry>, keep: SubscriptionEntry -> bool)
    requires DistinctEntries(subs)
    ensures DistinctEntries(Filter(subs, keep))
  {
    forall j, k | 0 <= j < k < |Filter(subs, keep)| ensures Filter(subs, keep)[j].id != Filter(subs, keep)[k].id {
      FilterOrdered(subs, keep, j, k);
    }
  }

  /** Where the k-th entry of a type's list sits in the log. */
  ghost function Position(log: seq<Registration>, typeId: TypeId, k: nat): (i: nat)
    requires k < |OfType(log, typeId)|
    ensures i < |log| && log[i] == Registration(typeId, OfType(log, typeId)[k])
  {
    FilterFrom(log, HasType(typeId), k)
  }

  lemma OfTypeComplete(log: seq<Registration>, i: nat) returns (k: nat)
    requires i < |log|
    ensures k < |OfType(log, log[i].typeId)| && OfType(log, log[i].typeId)[k] == log[i].entry
  {
    k := FilterComplete(log, HasType(log[i].typeId), i);
  }

  lemma {:induction false} EntriesWithout(regs: seq<Registration>, id: SubId)
    ensures Entries(Filter(regs, Without(id))) == Filter(Entries(regs), EntryWithout(id))
  {
    if regs != [] {
      var n := |regs| - 1;
      EntriesWithout(regs[..n], id);
      assert Entries(regs) == Entries(regs[..n]) + [regs[n].entry];
      FilterPush(Entries(regs[..n]), regs[n].entry, EntryWithout(id));
    }
  }

  lemma DroppedOfType(log: seq<Registration>, id: SubId, typeId: TypeId)
    ensures OfType(Dropped(log, id), typeId) == Filter(OfType(log, typeId), EntryWithout(id))
  {
    FilterCommutes(log, Without(id), HasType(typeId));
    EntriesWithout(Filter(log, HasType(typeId)), id);
  }

  lemma {:induction false} DroppedSize(log: seq<Registration>, id: SubId)
    requires DistinctIds(log)
    ensures |Dropped(log, id)| == |log| - (if Registered(log, id) then 1 else 0)
    ensures !Registered(log, id) ==> Dropped(log, id) == log
  {
    if log != [] {
      var n := |log| - 1;
      assert forall k :: 0 <= k < n ==> log[..n][k] == log[k];
      DroppedSize(log[..n], id);
      if Registered(log[..n], id) {
        var i :| 0 <= i < n && log[..n][i].entry.id == id;
        assert log[i].entry.id == id;
      } else if Registered(log, id) {
        var i :| 0 <= i < |log| && log[i].entry.id == id;
        assert i == n;
      }
    }
  }

  lemma {:induction false} PausedFilter(log: seq<Registration>, id: SubId, typeId: TypeId)
    ensures Filter(Paused(log, id), HasType(typeId)) == Paused(Filter(log, HasType(typeId)), id)
  {
    if log != [] {
      var n := |log| - 1;
      PausedFilter(log[..n], id, typeId);
      assert Paused(log, id)[..n] == Paused(log[..n], id);
      var listed := Filter(log[..n], HasType(typeId));
      assert Paused(listed + [log[n]], id) == Paused(listed, id) + [Paused(log, id)[n]];
    }
  }

  lemma PausedMeans(log: seq<Registration>, id: SubId)
    ensures |Paused(log, id)| == |log| && forall i :: 0 <= i < |log| ==>
      Paused(log, id)[i] == if log[i].entry.id == id then log[i].(entry := log[i].entry.(active := false)) else log[i]
  {
  }

  lemma PausedUnknown(log: seq<Registration>, id: SubId)
    requires !Registered(log, id)
    ensures Paused(log, id) == log
  {
  }

  /** Pausing changes nothing but the flag. */
  lemma PausedSame(log: seq<Registration>, id: SubId)
    ensures |Paused(log, id)| == |log|
    ensures forall i :: 0 <= i < |log| ==>
      var r := Paused(log, id)[i];
      r.typeId == log[i].typeId && r.entry.id == log[i].entry.id && r.entry.topic == log[i].entry.topic
  {
  }

  lemma PausedOfType(log: seq<Registration>, id: SubId, typeId: TypeId)
    ensures OfType(Paused(log, id), typeId) == PausedList(OfType(log, typeId), id)
  {
    PausedFilter(log, id, typeId);
  }

  /** What a topic lookup must return, by a scan of the registrations. */
  ghost predicate TopicTarget(log: seq<Registration>, topic: string, e: SubscriptionEntry) {
    (exists i :: 0 <= i < |log| && log[i].entry == e)
    && e.active && e.topic.Some? && Selects(e.topic.value, topic)
  }

  ghost predicate Hit(r: Registration, types: set<TypeId>, ids: set<SubId>) {
    r.typeId in types && r.entry.active && r.entry.id in ids
  }

  /** The results collected from the lists of some types. */
  ghost predicate Gathered(log: seq<Registration>, types: set<TypeId>, ids: set<SubId>,
      results: seq<SubscriptionEntry>)
  {
    && DistinctEntries(results)
    && (forall k :: 0 <= k < |results| ==>
          exists i :: 0 <= i < |log| && log[i].entry == results[k] && Hit(log[i], types, ids))
    && (forall i :: 0 <= i < |log| && Hit(log[i], types, ids) ==> log[i].entry in results)
  }

  lemma GatherMore(log: seq<Registration>, types: set<TypeId>, ids: set<SubId>,
      results: seq<SubscriptionEntry>, typeId: TypeId)
    requires DistinctIds(log) && Gathered(log, types, ids, results) && typeId !in types
    ensures Gathered(log, types + {typeId}, ids, results + Filter(OfType(log, typeId), IsHit(ids)))
  {
    var list := OfType(log, typeId);
    var hits := Filter(list, IsHit(ids));
    FilterDistinct(log, HasType(typeId));
    FilterDistinctEntries(list, IsHit(ids));
    forall k | 0 <= k < |hits|
      ensures exists i :: 0 <= i < |log| && log[i].entry == hits[k] && Hit(log[i], {typeId}, ids)
    {
      var j := FilterFrom(list, IsHit(ids), k);
      var i := Position(log, typeId, j);
      assert Hit(log[i], {typeId}, ids);
    }
    forall j, k | 0 <= j < |results| && 0 <= k < |hits| ensures results[j].id != hits[k].id {
      var i :| 0 <= i < |log| && log[i].entry == results[j] && Hit(log[i], types, ids);
      var i' :| 0 <= i' < |log| && log[i'].entry == hits[k] && Hit(log[i'], {typeId}, ids);
    }
    forall j, k | 0 <= j < k < |results + hits| ensures (results + hits)[j].id != (results + hits)[k].id {
      if j < |results| <= k {
        assert results[j].id != hits[k - |results|].id;
      } else if |results| <= j {
        assert hits[j - |results|].id != hits[k - |results|].id;
      }
    }
    forall i | 0 <= i < |log| && Hit(log[i], types + {typeId}, ids) ensures log[i].entry in results + hits {
      if log[i].typeId == typeId {
        var j := OfTypeComplete(log, i);
        var k := FilterComplete(list, IsHit(ids), j);
      } else {
        assert Hit(log[i], types, ids);
      }
    }
    forall k | 0 <= k < |results + hits|
      ensures exists i :: 0 <= i < |log| && log[i].entry == (results + hits)[k] && Hit(log[i], types + {typeId}, ids)
    {
      if k < |results| {
        var i :| 0 <= i < |log| && log[i].entry == results[k] && Hit(log[i], types, ids);
        assert Hit(log[i], types + {typeId}, ids);
      } else {
        var i :| 0 <= i < |log| && log[i].entry == hits[k - |results|] && Hit(log[i], {typeId}, ids);
        assert Hit(log[i], types + {typeId}, ids);
      }
    }
    var all := results + hits;
    assert DistinctEntries(all);
    assert forall i :: 0 <= i < |log| && Hit(log[i], types + {typeId}, ids) ==> log[i].entry in all;
  }

  /** Among the registered ids, the index finds exactly those whose pattern selects the topic. */
  lemma MatchedIds(subscriptionToTopic: map<SubId, string>, filed: Pairs, log: seq<Registration>,
      topic: string, ids: set<SubId>)
    requires Patterns(subscriptionToTopic, filed, log)
    requires forall id :: id in ids <==> exists p :: (p, id) in filed && Matches(p, Split(topic))
    ensures forall i :: 0 <= i < |log| ==>
      (log[i].entry.id in ids <==> log[i].entry.topic.Some? && Selects(log[i].entry.topic.value, topic))
  {
    forall i | 0 <= i < |log|
      ensures log[i].entry.id in ids <==> log[i].entry.topic.Some? && Selects(log[i].entry.topic.value, topic)
    {
      assert FiledAs(subscriptionToTopic, filed, log[i].entry);
      if log[i].entry.topic.Some? {
        assert (Truncate(Split(log[i].entry.topic.value)), log[i].entry.id) in filed;
      }
    }
  }

  lemma GatheredTargets(log: seq<Registration>, types: set<TypeId>, ids: set<SubId>, topic: string,
      results: seq<SubscriptionEntry>)
    requires Gathered(log, types, ids, results)
    requires forall i :: 0 <= i < |log| ==> log[i].typeId in types
    requires forall i :: 0 <= i < |log| ==>
      (log[i].entry.id in ids <==> log[i].entry.topic.Some? && Selects(log[i].entry.topic.value, topic))
    ensures DistinctEntries(results)
    ensures forall k :: 0 <= k < |results| ==> TopicTarget(log, topic, results[k])
    ensures forall i :: 0 <= i < |log| && TopicTarget(log, topic, log[i].entry) ==> log[i].entry in results
  {
    hide Selects;
    forall k | 0 <= k < |results| ensures TopicTarget(log, topic, results[k]) {
      var i :| 0 <= i < |log| && log[i].entry == results[k] && Hit(log[i], types, ids);
    }
    forall i | 0 <= i < |log| && TopicTarget(log, topic, log[i].entry) ensures log[i].entry in results {
      assert Hit(log[i], types, ids);
    }
  }

  class DashMapRegistry {
    var subscriptions: map<TypeId, seq<SubscriptionEntry>>
    var subscriptionToType: map<SubId, TypeId>
    var nameToType: map<string, TypeId>
    var subscriptionToTopic: map<SubId, string>
    var topicTrie: TopicTrie
    // The registrations in force, oldest first.
    ghost var log: seq<Registration>

    ghost function Repr(): set<object>
      reads this, topicTrie
    {
      {this, topicTrie} + topicTrie.nodes
    }

    ghost predicate Valid()
      reads this, topicTrie, topicTrie.nodes
    {
      && topicTrie.Valid()
      && DistinctIds(log)
      && Lists(subscriptions, log)
      && Types(subscriptionToType, log)
      && Patterns(subscriptionToTopic, topicTrie.Filed(), log)
    }

    constructor ()
      ensures Valid() && log == [] && fresh(Repr())
    {
      subscriptions, subscriptionToType, nameToType, subscriptionToTopic := map[], map[], map[], map[];
      topicTrie := new TopicTrie();
      log := [];
    }

    /** Nothing in the registry mentions this id, as is the case for a newly drawn UUID. */
    ghost predicate Unknown(id: SubId)
      reads this, topicTrie, topicTrie.nodes
    {
      id !in subscriptionToType && id !in subscriptionToTopic && forall p :: (p, id) !in topicTrie.Filed()
    }

    method Register(typeId: TypeId, typeName: string, entry: SubscriptionEntry)
      requires Valid() && Unknown(entry.id)
      modifies Repr()
      ensures Valid() && topicTrie == old(topicTrie) && fresh(topicTrie.nodes - old(topicTrie.nodes))
      ensures log == old(log) + [Registration(typeId, entry)]
      ensures nameToType == old(nameToType)[typeName := typeId]
    {
      hide DistinctIds, Lists, Types, Patterns;
      RegisterLists(subscriptions, log, typeId, entry);
      RegisterIndexes(subscriptionToType, subscriptionToTopic, topicTrie.Filed(), log, typeId, entry);
      Record(typeId, typeName, entry);
      FileTopic(entry);
    }

    method FileTopic(entry: SubscriptionEntry)
      requires topicTrie.Valid()
      modifies topicTrie, topicTrie.nodes
      ensures topicTrie.Valid() && fresh(topicTrie.nodes - old(topicTrie.nodes))
      ensures topicTrie.Filed() == FiledWith(old(topicTrie.Filed()), entry)
    {
      if entry.topic.Some? {
        topicTrie.Insert(entry.topic.value, entry.id);
      }
    }

    method Record(typeId: TypeId, typeName: string, entry: SubscriptionEntry)
      modifies this`subscriptionToType, this`nameToType, this`subscriptionToTopic, this`subscriptions, this`log
      ensures subscriptionToType == old(subscriptionToType)[entry.id := typeId]
      ensures nameToType == old(nameToType)[typeName := typeId]
      ensures subscriptionToTopic ==
        if entry.topic.Some? then old(subscriptionToTopic)[entry.id := entry.topic.value] else old(subscriptionToTopic)
      ensures subscriptions == Listed(old(subscriptions), typeId, entry)
      ensures log == old(log) + [Registration(typeId, entry)]
    {
      subscriptionToType := subscriptionToType[entry.id := typeId];
      nameToType := nameToType[typeName := typeId];
      if entry.topic.Some? {
        subscriptionToTopic := subscriptionToTopic[entry.id := entry.topic.value];
      }
      var list := if typeId in subscriptions then subscriptions[typeId] else [];
      subscriptions := subscriptions[typeId := list + [entry]];
      log := log + [Registration(typeId, entry)];
    }

    method Unregister(id: SubId) returns (result: RegistryResult)
      requires Valid()
      modifies Repr()
      ensures Valid() && topicTrie == old(topicTrie) && topicTrie.nodes == old(topicTrie.nodes)
      ensures nameToType == old(nameToType)
      ensures result == if Registered(old(log), id) then Done else SubscriptionNotFound(id)
      ensures log == Dropped(old(log), id)
    {
      hide DistinctIds, Lists, Types, Patterns, Registered;
      TypedIsRegistered(subscriptionToType, log, id);
      if id !in subscriptionToType {
        DroppedSize(log, id);
        return SubscriptionNotFound(id);
      }
      UnregisterLists(subscriptions, subscriptionToType, log, id);
      UnregisterIndexes(subscriptionToType, subscriptionToTopic, topicTrie.Filed(), log, id);
      var typeId := subscriptionToType[id];
      UnfileTopic(id);
      Forget(typeId, id);
      return Done;
    }

    /** Takes the id out of the topic index: along its own pattern when it has one, by a full scan otherwise. */
    method UnfileTopic(id: SubId)
      requires topicTrie.Valid()
      modifies topicTrie.nodes`subscriptions
      ensures topicTrie.Valid()
      ensures forall p, j :: j != id ==> ((p, j) in topicTrie.Filed() <==> (p, j) in old(topicTrie.Filed()))
    {
      if id in subscriptionToTopic {
        var _ := topicTrie.RemoveTopic(subscriptionToTopic[id], id);
      } else {
        var _ := topicTrie.Remove(id);
      }
    }

    method Forget(typeId: TypeId, id: SubId)
      requires typeId in subscriptions
      modifies this`subscriptionToType, this`subscriptionToTopic, this`subscriptions, this`log
      ensures subscriptionToType == old(subscriptionToType) - {id}
      ensures subscriptionToTopic == old(subscriptionToTopic) - {id}
      ensures subscriptions == Unlisted(old(subscriptions), typeId, id)
      ensures log == Dropped(old(log), id)
    {
      subscriptionToType := subscriptionToType - {id};
      subscriptionToTopic := subscriptionToTopic - {id};
      var subs := subscriptions[typeId];
      var kept := Select(subs, EntryWithout(id));
      subscriptions := if |kept| == 0 then subscriptions - {typeId} else subscriptions[typeId := kept];
      log := Dropped(log, id);
    }

    method Deactivate(id: SubId) returns (result: RegistryResult)
      requires Valid()
      modifies this`subscriptions, this`log
      ensures Valid()
      ensures result == if Registered(old(log), id) then Done else SubscriptionNotFound(id)
      ensures log == Paused(old(log), id)
      ensures |log| == |old(log)| && forall i :: 0 <= i < |log| ==>
        var was := old(log)[i];
        log[i] == if was.entry.id == id then was.(entry := was.entry.(active := false)) else was
    {
      PausedMeans(log, id);
      hide DistinctIds, Lists, Types, Patterns, Registered, Paused;
      TypedIsRegistered(subscriptionToType, log, id);
      if id !in subscriptionToType {
        PausedUnknown(log, id);
        return SubscriptionNotFound(id);
      }
      var typeId := subscriptionToType[id];
      DeactivateLists(subscriptions, subscriptionToType, log, id);
      DeactivateIndexes(subscriptionToType, subscriptionToTopic, topicTrie.Filed(), log, id);
      var i := Find(subscriptions[typeId], id);
      Pause(typeId, i, id);
      return Done;
    }

    method Pause(typeId: TypeId, i: nat, ghost id: SubId)
      requires typeId in subscriptions && i < |subscriptions[typeId]|
      modifies this`subscriptions, this`log
      ensures subscriptions == old(subscriptions)[typeId := PausedAt(old(subscriptions[typeId]), i)]
      ensures log == Paused(old(log), id)
    {
      subscriptions := subscriptions[typeId := PausedAt(subscriptions[typeId], i)];
      log := Paused(log, id);
    }

    /** The first entry with an id, in a list known to hold it. */
    static method Find(subs: seq<SubscriptionEntry>, id: SubId) returns (i: nat)
      requires exists k :: 0 <= k < |subs| && subs[k].id == id
      ensures i < |subs| && subs[i].id == id
    {
      i := 0;
      while subs[i].id != id
        invariant i < |subs| && forall k :: 0 <= k < i ==> subs[k].id != id
        decreases |subs| - i
      {
        i := i + 1;
      }
    }

    /** Forgets everything except the patterns by id, which stay behind. */
    method Clear()
      requires Valid()
      modifies this
      ensures Valid() && log == [] && fresh(topicTrie) && fresh(topicTrie.nodes) && topicTrie.Filed() == {}
      ensures subscriptions == map[] && subscriptionToType == map[] && nameToType == map[]
      ensures subscriptionToTopic == old(subscriptionToTopic)
    {
      subscriptions, subscriptionToType, nameToType := map[], map[], map[];
      topicTrie := new TopicTrie();
      log := [];
    }

    method GetSubscriptions(typeId: TypeId) returns (subs: seq<SubscriptionEntry>)
      requires Valid()
      ensures subs == Filter(OfType(log, typeId), IsActive())
    {
      assert ListOf(subscriptions, log, typeId);
      subs := [];
      if typeId in subscriptions {
        subs := Select(subscriptions[typeId], IsActive());
      }
    }

    /** All active subscriptions whose pattern selects a literal topic, whatever their event type. */
    method GetTopicSubscriptions(topic: string) returns (results: seq<SubscriptionEntry>)
      requires Valid()
      ensures DistinctEntries(results)
      ensures forall k :: 0 <= k < |results| ==> TopicTarget(log, topic, results[k])
      ensures forall i :: 0 <= i < |log| && TopicTarget(log, topic, log[i].entry) ==> log[i].entry in results
    {
      hide Lists, Patterns, Gathered, Selects;
      var ids := topicTrie.MatchTopic(topic);
      MatchedIds(subscriptionToTopic, topicTrie.Filed(), log, topic, ids);
      if |ids| == 0 {
        return [];
      }
      results := Gather(subscriptions, ids, log);
      GatheredTargets(log, subscriptions.Keys, ids, topic, results);
    }

    static method Gather(subscriptions: map<TypeId, seq<SubscriptionEntry>>, ids: set<SubId>,
        ghost log: seq<Registration>)
      returns (results: seq<SubscriptionEntry>)
      requires DistinctIds(log) && Lists(subscriptions, log)
      ensures Gathered(log, subscriptions.Keys, ids, results)
      ensures forall i :: 0 <= i < |log| ==> log[i].typeId in subscriptions
    {
      results := [];
      var todo := subscriptions.Keys;
      ghost var done := {};
      while todo != {}
        invariant done + todo == subscriptions.Keys && done !! todo
        invariant Gathered(log, done, ids, results)
        decreases todo
      {
        var typeId :| typeId in todo;
        assert ListOf(subscriptions, log, typeId);
        GatherMore(log, done, ids, results, typeId);
        var hits := Select(subscriptions[typeId], IsHit(ids));
        results := results + hits;
        todo, done := todo - {typeId}, done + {typeId};
      }
      assert done == subscriptions.Keys;
      forall i | 0 <= i < |log| ensures log[i].typeId in subscriptions {
        assert ListOf(subscriptions, log, log[i].typeId);
        var k := OfTypeComplete(log, i);
      }
    }

    /** The number of subscriptions of a type, paused ones included. */
    method SubscriptionCount(typeId: TypeId) returns (count: nat)
      requires Valid()
      ensures count == |OfType(log, typeId)|
    {
      assert ListOf(subscriptions, log, typeId);
      count := if typeId in subscriptions then |subscriptions[typeId]| else 0;
    }

    method TotalSubscriptions() returns (total: nat)
      requires Valid()
      ensures total == |log|
    {
      TypesSize(subscriptionToType, log);
      total := |subscriptionToType|;
    }
  }

  ghost function Unlisted(subscriptions: map<TypeId, seq<SubscriptionEntry>>, typeId: TypeId, id: SubId)
    : map<TypeId, seq<SubscriptionEntry>>
    requires typeId in subscriptions
  {
    var kept := Filter(subscriptions[typeId], EntryWithout(id));
    if kept == [] then subscriptions - {typeId} else subscriptions[typeId := kept]
  }

  function PausedAt(subs: seq<SubscriptionEntry>, i: nat): seq<SubscriptionEntry>
    requires i < |subs|
  {
    subs[i := subs[i].(active := false)]
  }

  ghost function PausedList(subs: seq<SubscriptionEntry>, id: SubId): seq<SubscriptionEntry> {
    seq(|subs|, i requires 0 <= i < |subs| => PausedEntry(subs[i], id))
  }

  ghost function FiledWith(filed: Pairs, entry: SubscriptionEntry): Pairs {
    if entry.topic.Some? then Apply(filed, InsertOp(entry.topic.value, entry.id)) else filed
  }

  ghost function Listed(subscriptions: map<TypeId, seq<SubscriptionEntry>>, typeId: TypeId, entry: SubscriptionEntry)
    : map<TypeId, seq<SubscriptionEntry>>
  {
    subscriptions[typeId := (if typeId in subscriptions then subscriptions[typeId] else []) + [entry]]
  }

  lemma RegisterLists(subscriptions: map<TypeId, seq<SubscriptionEntry>>, log: seq<Registration>,
      typeId: TypeId, entry: SubscriptionEntry)
    requires Lists(subscriptions, log)
    ensures Lists(Listed(subscriptions, typeId, entry), log + [Registration(typeId, entry)])
  {
    var after := log + [Registration(typeId, entry)];
    assert after[..|after| - 1] == log;
    forall t: TypeId ensures ListOf(Listed(subscriptions, typeId, entry), after, t) {
      assert ListOf(subscriptions, log, t);
      assert OfType(log, t) + [] == OfType(log, t);
    }
  }

  lemma RegisterIndexes(subscriptionToType: map<SubId, TypeId>, subscriptionToTopic: map<SubId, string>,
      filed: Pairs, log: seq<Registration>, typeId: TypeId, entry: SubscriptionEntry)
    requires DistinctIds(log) && Types(subscriptionToType, log) && Patterns(subscriptionToTopic, filed, log)
    requires entry.id !in subscriptionToType && entry.id !in subscriptionToTopic
    requires forall p :: (p, entry.id) !in filed
    ensures var after := log + [Registration(typeId, entry)];
      && DistinctIds(after)
      && Types(subscriptionToType[entry.id := typeId], after)
      && Patterns(
           if entry.topic.Some? then subscriptionToTopic[entry.id := entry.topic.value] else subscriptionToTopic,
           FiledWith(filed, entry), after)
  {
    var after := log + [Registration(typeId, entry)];
    forall id | id in subscriptionToType ensures Registered(after, id) {
      var i :| 0 <= i < |log| && log[i].entry.id == id;
      assert after[i] == log[i];
    }
    assert after[|log|].entry.id == entry.id;
    hide FiledAs, FiledWith;
    var topics := if entry.topic.Some? then subscriptionToTopic[entry.id := entry.topic.value] else subscriptionToTopic;
    forall i | 0 <= i < |after| ensures FiledAs(topics, FiledWith(filed, entry), after[i].entry) {
      if i < |log| {
        assert FiledAs(subscriptionToTopic, filed, log[i].entry);
        FiledStays(subscriptionToTopic, filed, log[i].entry, entry);
      } else {
        FiledNew(subscriptionToTopic, filed, entry);
      }
    }
  }

  lemma FiledStays(subscriptionToTopic: map<SubId, string>, filed: Pairs, entry: SubscriptionEntry,
      other: SubscriptionEntry)
    requires FiledAs(subscriptionToTopic, filed, entry) && other.id != entry.id
    ensures FiledAs(
      if other.topic.Some? then subscriptionToTopic[other.id := other.topic.value] else subscriptionToTopic,
      FiledWith(filed, other), entry)
  {
  }

  lemma FiledNew(subscriptionToTopic: map<SubId, string>, filed: Pairs, entry: SubscriptionEntry)
    requires entry.id !in subscriptionToTopic && forall p :: (p, entry.id) !in filed
    ensures FiledAs(
      if entry.topic.Some? then subscriptionToTopic[entry.id := entry.topic.value] else subscriptionToTopic,
      FiledWith(filed, entry), entry)
  {
  }

  /** Each list holds exactly the registrations of its type in registration order, and no list is empty. */
  ghost predicate Lists(subscriptions: map<TypeId, seq<SubscriptionEntry>>, log: seq<Registration>) {
    forall t: TypeId :: ListOf(subscriptions, log, t)
  }

  ghost predicate ListOf(subscriptions: map<TypeId, seq<SubscriptionEntry>>, log: seq<Registration>, t: TypeId) {
    && OfType(log, t) == (if t in subscriptions then subscriptions[t] else [])
    && (t in subscriptions ==> subscriptions[t] != [])
  }

  ghost predicate Types(subscriptionToType: map<SubId, TypeId>, log: seq<Registration>) {
    && (forall i :: 0 <= i < |log| ==>
          log[i].entry.id in subscriptionToType && subscriptionToType[log[i].entry.id] == log[i].typeId)
    && (forall id :: id in subscriptionToType ==> Registered(log, id))
  }

  lemma TypedIsRegistered(subscriptionToType: map<SubId, TypeId>, log: seq<Registration>, id: SubId)
    requires Types(subscriptionToType, log)
    ensures id in subscriptionToType <==> Registered(log, id)
  {
  }

  /** The pattern of every registration in force is the one under which its id is filed. Ids that
      are no longer registered may linger in both indexes. */
  ghost predicate Patterns(subscriptionToTopic: map<SubId, string>, filed: Pairs, log: seq<Registration>) {
    forall i :: 0 <= i < |log| ==> FiledAs(subscriptionToTopic, filed, log[i].entry)
  }

  ghost predicate FiledAs(subscriptionToTopic: map<SubId, string>, filed: Pairs, entry: SubscriptionEntry) {
    && (match entry.topic
        case Some(t) => entry.id in subscriptionToTopic && subscriptionToTopic[entry.id] == t
        case None => entry.id !in subscriptionToTopic)
    && (forall p :: (p, entry.id) in filed <==> entry.topic.Some? && p == Truncate(Split(entry.topic.value)))
  }

  lemma FiledSame(subscriptionToTopic: map<SubId, string>, filed: Pairs, entry: SubscriptionEntry,
      other: SubscriptionEntry)
    requires FiledAs(subscriptionToTopic, filed, entry) && other.id == entry.id && other.topic == entry.topic
    ensures FiledAs(subscriptionToTopic, filed, other)
  {
  }

  lemma UnregisterLists(subscriptions: map<TypeId, seq<SubscriptionEntry>>, subscriptionToType: map<SubId, TypeId>,
      log: seq<Registration>, id: SubId)
    requires Lists(subscriptions, log) && Types(subscriptionToType, log) && id in subscriptionToType
    ensures subscriptionToType[id] in subscriptions
    ensures Lists(Unlisted(subscriptions, subscriptionToType[id], id), Dropped(log, id))
  {
    var typeId := subscriptionToType[id];
    var i :| 0 <= i < |log| && log[i].entry.id == id;
    var k := OfTypeComplete(log, i);
    assert ListOf(subscriptions, log, typeId);
    forall t: TypeId ensures ListOf(Unlisted(subscriptions, typeId, id), Dropped(log, id), t) {
      UnregisterList(subscriptions, subscriptionToType, log, id, t);
    }
  }

  lemma UnregisterList(subscriptions: map<TypeId, seq<SubscriptionEntry>>, subscriptionToType: map<SubId, TypeId>,
      log: seq<Registration>, id: SubId, t: TypeId)
    requires ListOf(subscriptions, log, t) && Types(subscriptionToType, log) && id in subscriptionToType
    requires subscriptionToType[id] in subscriptions
    ensures ListOf(Unlisted(subscriptions, subscriptionToType[id], id), Dropped(log, id), t)
  {
    hide OfType, Dropped, Filter, Types, Registered;
    DroppedOfType(log, id, t);
    if t != subscriptionToType[id] {
      OtherTypesLack(subscriptionToType, log, id, t);
      FilterAll(OfType(log, t), EntryWithout(id));
    }
  }

  lemma OtherTypesLack(subscriptionToType: map<SubId, TypeId>, log: seq<Registration>, id: SubId, t: TypeId)
    requires Types(subscriptionToType, log) && id in subscriptionToType && t != subscriptionToType[id]
    ensures forall j :: 0 <= j < |OfType(log, t)| ==> OfType(log, t)[j].id != id
  {
    forall j | 0 <= j < |OfType(log, t)| ensures OfType(log, t)[j].id != id {
      var at := Position(log, t, j);
    }
  }

  lemma UnregisterIndexes(subscriptionToType: map<SubId, TypeId>, subscriptionToTopic: map<SubId, string>,
      filed: Pairs, log: seq<Registration>, id: SubId)
    requires DistinctIds(log) && Types(subscriptionToType, log) && Patterns(subscriptionToTopic, filed, log)
    ensures DistinctIds(Dropped(log, id)) && Types(subscriptionToType - {id}, Dropped(log, id))
    ensures forall after: Pairs :: (forall p, j :: j != id ==> ((p, j) in after <==> (p, j) in filed)) ==>
      Patterns(subscriptionToTopic - {id}, after, Dropped(log, id))
  {
    var kept := Dropped(log, id);
    FilterDistinct(log, Without(id));
    forall k | 0 <= k < |kept|
      ensures kept[k].entry.id != id && FiledAs(subscriptionToTopic, filed, kept[k].entry)
      ensures kept[k].entry.id in subscriptionToType && subscriptionToType[kept[k].entry.id] == kept[k].typeId
    {
      var i := FilterFrom(log, Without(id), k);
    }
    forall j | j in subscriptionToType && j != id ensures Registered(kept, j) {
      var i :| 0 <= i < |log| && log[i].entry.id == j;
      var k := FilterComplete(log, Without(id), i);
    }
  }

  lemma DeactivateLists(subscriptions: map<TypeId, seq<SubscriptionEntry>>, subscriptionToType: map<SubId, TypeId>,
      log: seq<Registration>, id: SubId)
    requires DistinctIds(log) && Lists(subscriptions, log) && Types(subscriptionToType, log)
    requires id in subscriptionToType
    ensures subscriptionToType[id] in subscriptions
    ensures var list := subscriptions[subscriptionToType[id]]; exists k :: 0 <= k < |list| && list[k].id == id
    ensures var list := subscriptions[subscriptionToType[id]];
      forall i :: 0 <= i < |list| && list[i].id == id ==>
        Lists(subscriptions[subscriptionToType[id] := PausedAt(list, i)], Paused(log, id))
  {
    var typeId := subscriptionToType[id];
    var at :| 0 <= at < |log| && log[at].entry.id == id;
    var k := OfTypeComplete(log, at);
    FilterDistinct(log, HasType(typeId));
    assert ListOf(subscriptions, log, typeId);
    var list := subscriptions[typeId];
    assert list[k].id == id;
    forall i | 0 <= i < |list| && list[i].id == id
      ensures Lists(subscriptions[typeId := PausedAt(list, i)], Paused(log, id))
    {
      assert PausedAt(list, i) == PausedList(list, id);
      PausedLists(subscriptions, subscriptionToType, log, id);
    }
  }

  lemma PausedLists(subscriptions: map<TypeId, seq<SubscriptionEntry>>, subscriptionToType: map<SubId, TypeId>,
      log: seq<Registration>, id: SubId)
    requires Lists(subscriptions, log) && Types(subscriptionToType, log)
    requires id in subscriptionToType && subscriptionToType[id] in subscriptions
    ensures var typeId := subscriptionToType[id];
      Lists(subscriptions[typeId := PausedList(subscriptions[typeId], id)], Paused(log, id))
  {
    var typeId := subscriptionToType[id];
    var after := Paused(log, id);
    var next := subscriptions[typeId := PausedList(subscriptions[typeId], id)];
    forall t: TypeId ensures ListOf(next, after, t) {
      assert ListOf(subscriptions, log, t);
      PausedOfType(log, id, t);
      if t != typeId {
        OtherTypesLack(subscriptionToType, log, id, t);
        assert PausedList(OfType(log, t), id) == OfType(log, t);
      }
    }
  }

  lemma DeactivateIndexes(subscriptionToType: map<SubId, TypeId>, subscriptionToTopic: map<SubId, string>,
      filed: Pairs, log: seq<Registration>, id: SubId)
    requires DistinctIds(log) && Types(subscriptionToType, log) && Patterns(subscriptionToTopic, filed, log)
    ensures var after := Paused(log, id);
      DistinctIds(after) && Types(subscriptionToType, after) && Patterns(subscriptionToTopic, filed, after)
  {
    hide Paused, FiledAs;
    var after := Paused(log, id);
    PausedSame(log, id);
    forall j | j in subscriptionToType ensures Registered(after, j) {
      var at :| 0 <= at < |log| && log[at].entry.id == j;
      assert after[at].entry.id == j;
    }
    forall j | 0 <= j < |after| ensures FiledAs(subscriptionToTopic, filed, after[j].entry) {
      assert FiledAs(subscriptionToTopic, filed, log[j].entry);
      FiledSame(subscriptionToTopic, filed, log[j].entry, after[j].entry);
    }
  }

  lemma {:induction false} TypesSize(subscriptionToType: map<SubId, TypeId>, log: seq<Registration>)
    requires DistinctIds(log) && Types(subscriptionToType, log)
    ensures |subscriptionToType| == |log|
  {
    if log == [] {
      assert subscriptionToType == map[];
    } else {
      var n := |log| - 1;
      var id := log[n].entry.id;
      var fewer := subscriptionToType - {id};
      TypesFewer(subscriptionToType, log);
      hide Types, DistinctIds;
      TypesSize(fewer, log[..n]);
      assert subscriptionToType.Keys == fewer.Keys + {id};
      assert |subscriptionToType.Keys| == |fewer.Keys| + 1;
    }
  }

  lemma TypesFewer(subscriptionToType: map<SubId, TypeId>, log: seq<Registration>)
    requires log != [] && DistinctIds(log) && Types(subscriptionToType, log)
    ensures var id := log[|log| - 1].entry.id;
      id in subscriptionToType && DistinctIds(log[..|log| - 1])
      && Types(subscriptionToType - {id}, log[..|log| - 1])
  {
    var n := |log| - 1;
    forall j | j in subscriptionToType && j != log[n].entry.id ensures Registered(log[..n], j) {
      var i :| 0 <= i < |log| && log[i].entry.id == j;
      assert log[..n][i].entry.id == j;
    }
  }
}
