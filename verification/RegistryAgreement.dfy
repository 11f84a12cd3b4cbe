/** What the indexes of the registry say about each other, in every state that keeps its invariant. */
module RegistryAgreement {
  import opened Events
  import opened Seqs
  import opened TopicTries
  import opened Registries

  type TypeLists = map<TypeId, seq<SubscriptionEntry>>

  /** An id is known to the registry exactly when it stands in the list of its type. It stands
      there once, and in no other list. */
  lemma OneList(subscriptions: TypeLists, subscriptionToType: map<SubId, TypeId>, log: seq<Registration>)
    requires DistinctIds(log) && Lists(subscriptions, log) && Types(subscriptionToType, log)
    ensures forall id :: id in subscriptionToType ==>
      subscriptionToType[id] in subscriptions
      && (exists k :: 0 <= k < |subscriptions[subscriptionToType[id]]|
                   && subscriptions[subscriptionToType[id]][k].id == id)
    ensures forall t, k :: t in subscriptions && 0 <= k < |subscriptions[t]| ==>
      subscriptions[t][k].id in subscriptionToType && subscriptionToType[subscriptions[t][k].id] == t
    ensures forall t :: t in subscriptions ==> subscriptions[t] != [] && DistinctEntries(subscriptions[t])
  {
    forall id | id in subscriptionToType
      ensures subscriptionToType[id] in subscriptions
        && (exists k :: 0 <= k < |subscriptions[subscriptionToType[id]]|
                     && subscriptions[subscriptionToType[id]][k].id == id)
    {
      var i :| 0 <= i < |log| && log[i].entry.id == id;
      assert ListOf(subscriptions, log, log[i].typeId);
      var k := OfTypeComplete(log, i);
      assert subscriptions[subscriptionToType[id]][k].id == id;
    }
    forall t | t in subscriptions
      ensures subscriptions[t] != [] && DistinctEntries(subscriptions[t])
      ensures forall k :: 0 <= k < |subscriptions[t]| ==>
        subscriptions[t][k].id in subscriptionToType && subscriptionToType[subscriptions[t][k].id] == t
    {
      assert ListOf(subscriptions, log, t);
      FilterDistinct(log, HasType(t));
      forall k | 0 <= k < |subscriptions[t]|
        ensures subscriptions[t][k].id in subscriptionToType && subscriptionToType[subscriptions[t][k].id] == t
      {
        var i := Position(log, t, k);
      }
    }
  }

  ghost function TotalListed(subscriptions: TypeLists): nat {
    if subscriptions == map[] then 0
    else
      var t :| t in subscriptions;
      |subscriptions[t]| + TotalListed(subscriptions - {t})
  }

  lemma {:induction false} TotalListedWithout(subscriptions: TypeLists, t: TypeId)
    requires t in subscriptions
    ensures TotalListed(subscriptions) == |subscriptions[t]| + TotalListed(subscriptions - {t})
    decreases |subscriptions|
  {
    var u :| u in subscriptions && TotalListed(subscriptions) == |subscriptions[u]| + TotalListed(subscriptions - {u});
    if u != t {
      TotalListedWithout(subscriptions - {u}, t);
      assert subscriptions - {u} - {t} == subscriptions - {t} - {u};
      TotalListedWithout(subscriptions - {t}, u);
    }
  }

  /** The count by id and the lengths of the lists by type agree. */
  lemma {:induction false} TotalIsSum(subscriptions: TypeLists, subscriptionToType: map<SubId, TypeId>,
      log: seq<Registration>)
    requires DistinctIds(log) && Lists(subscriptions, log) && Types(subscriptionToType, log)
    ensures |subscriptionToType| == TotalListed(subscriptions)
  {
    TypesSize(subscriptionToType, log);
    ListedSize(subscriptions, log);
  }

  lemma {:induction false} ListedSize(subscriptions: TypeLists, log: seq<Registration>)
    requires Lists(subscriptions, log)
    ensures TotalListed(subscriptions) == |log|
  {
    if log == [] {
      forall t ensures t !in subscriptions {
        assert ListOf(subscriptions, log, t);
      }
      assert subscriptions == map[];
    } else {
      var n := |log| - 1;
      var t := log[n].typeId;
      assert ListOf(subscriptions, log, t);
      var fewer := OfType(log[..n], t);
      assert subscriptions[t] == fewer + [log[n].entry];
      var before := if fewer == [] then subscriptions - {t} else subscriptions[t := fewer];
      forall u: TypeId ensures ListOf(before, log[..n], u) {
        assert ListOf(subscriptions, log, u);
        assert Filter(log[..n], HasType(u)) + [] == Filter(log[..n], HasType(u));
      }
      ListedSize(before, log[..n]);
      TotalListedWithout(subscriptions, t);
      if fewer != [] {
        TotalListedWithout(before, t);
        assert before - {t} == subscriptions - {t};
      }
    }
  }
}
