/** The way of an event from acceptance to its handlers: a bounded queue, one worker that sends each
    event to the bounded inboxes of its recipients and waits for all of them, and one task per inbox
    that handles one event at a time. An event is named by its place in the order of acceptance. */
module Pipelines {
  import opened Events
  import opened Seqs
  import opened TopicTries
  import opened Registries
  import opened Subscriptions

  /** The registrations, live subscriptions and filters that decide who receives what. */
  datatype Net = Net(log: seq<Registration>, live: set<SubId>, passes: (FilterId, Envelope) -> bool)

  datatype Worker = Waiting | Sending(tag: nat, pending: set<SubId>) | Dead

  datatype Inbox = Inbox(channel: seq<nat>, busy: Option<nat>, done: seq<nat>, closed: bool)

  datatype Tally = Tally(accepted: nat, rejected: nat, dispatched: nat, errors: nat)

  datatype Pipe = Pipe(
    net: Net,
    queueSize: nat,
    channelSize: nat,
    accepted: seq<Envelope>,
    queue: seq<nat>,
    worker: Worker,
    inboxes: map<SubId, Inbox>,
    lost: set<(SubId, nat)>,
    tally: Tally)

  datatype Move =
    | Accept(e: Envelope)
    | DropFull
    | RejectFull
    | Refuse
    | Take
    | Die
    | Send(id: SubId)
    | Complete
    | Timeout
    | Receive(id: SubId)
    | Finish(id: SubId)
    | Halt
    | Abort(id: SubId)

  function Start(net: Net, queueSize: nat, channelSize: nat): Pipe {
    Pipe(net, queueSize, channelSize, [], [], Waiting, map id | id in net.live :: Inbox([], None, [], false), {},
      Tally(0, 0, 0, 0))
  }

  /** The event with that tag goes to the subscription. */
  ghost predicate Routed(net: Net, accepted: seq<Envelope>, id: SubId, tag: nat) {
    tag < |accepted| && Recipient(net.log, net.live, net.passes, accepted[tag], id)
  }

  ghost function Owes(net: Net, accepted: seq<Envelope>, lost: set<(SubId, nat)>, id: SubId): nat -> bool {
    (tag: nat) => Routed(net, accepted, id, tag) && (id, tag) !in lost
  }

  ghost function Mine(p: Pipe, id: SubId): nat -> bool { Owes(p.net, p.accepted, p.lost, id) }

  ghost predicate CanMove(p: Pipe, m: Move) {
    match m
    case Accept(_) => |p.queue| < p.queueSize && !p.worker.Dead?
    case DropFull => |p.queue| == p.queueSize && !p.worker.Dead?
    case RejectFull => |p.queue| == p.queueSize && !p.worker.Dead?
    case Refuse => p.worker.Dead?
    case Take => p.worker.Waiting? && p.queue != []
    case Die => p.worker.Waiting? && p.queue != []
    case Send(id) =>
      && p.worker.Sending? && id in p.worker.pending && id in p.inboxes
      && (p.inboxes[id].closed || |p.inboxes[id].channel| < p.channelSize)
    case Complete => p.worker.Sending? && p.worker.pending == {}
    case Timeout => p.worker.Sending?
    case Receive(id) => id in p.inboxes && p.inboxes[id].channel != [] && p.inboxes[id].busy.None?
    case Finish(id) => id in p.inboxes && p.inboxes[id].busy.Some?
    case Halt => true
    case Abort(id) => id in p.inboxes
  }

  /** One move. `Timeout` gives up on the recipients that have not got the event yet, `Halt` drops the
      queue of a worker told to stop, and `Abort` drops what a cancelled task still holds and closes its
      inbox: a later send to it fails, and the event is lost to it. `Die` is the worker's death by a
      filter that panics on the event taken: the queue goes with it, and later submissions are refused. */
  ghost function Moved(p: Pipe, m: Move): Pipe
    requires CanMove(p, m)
  {
    match m
    case Accept(e) => Accepted(p, e)
    case DropFull => p.(tally := p.tally.(accepted := p.tally.accepted + 1, errors := p.tally.errors + 1))
    case RejectFull => p.(tally := p.tally.(rejected := p.tally.rejected + 1, errors := p.tally.errors + 1))
    case Refuse => p
    case Take => Taken(p)
    case Die => Halted(p).(worker := Dead)
    case Send(id) => Sent(p, id)
    case Complete => p.(worker := Waiting, tally := p.tally.(dispatched := p.tally.dispatched + 1))
    case Timeout =>
      p.(worker := Waiting, tally := p.tally.(errors := p.tally.errors + 1),
         lost := p.lost + (set id | id in p.worker.pending :: (id, p.worker.tag)))
    case Receive(id) =>
      var inbox := p.inboxes[id];
      p.(inboxes := p.inboxes[id := inbox.(channel := inbox.channel[1..], busy := Some(inbox.channel[0]))])
    case Finish(id) =>
      var inbox := p.inboxes[id];
      p.(inboxes := p.inboxes[id := inbox.(busy := None, done := inbox.done + [inbox.busy.value])])
    case Halt => Halted(p)
    case Abort(id) =>
      var inbox := p.inboxes[id];
      p.(inboxes := p.inboxes[id := Inbox([], None, inbox.done, true)],
         lost := p.lost + (set tag | tag in InHand(inbox) :: (id, tag)))
  }

  ghost function Halted(p: Pipe): Pipe {
    p.(queue := [], lost := p.lost + (set id, tag | id in p.inboxes && tag in p.queue :: (id, tag)))
  }

  ghost function Accepted(p: Pipe, e: Envelope): Pipe {
    p.(accepted := p.accepted + [e], queue := p.queue + [|p.accepted|],
       tally := p.tally.(accepted := p.tally.accepted + 1))
  }

  ghost function Sent(p: Pipe, id: SubId): Pipe
    requires p.worker.Sending? && id in p.inboxes
  {
    var inbox, tag := p.inboxes[id], p.worker.tag;
    var q := p.(worker := Sending(tag, p.worker.pending - {id}));
    if inbox.closed then q.(lost := p.lost + {(id, tag)})
    else q.(inboxes := p.inboxes[id := inbox.(channel := inbox.channel + [tag])])
  }

  ghost function Taken(p: Pipe): Pipe
    requires p.queue != []
  {
    p.(queue := p.queue[1..], worker := Sending(p.queue[0], set id | id in p.inboxes && Mine(p, id)(p.queue[0])))
  }

  function InHand(inbox: Inbox): seq<nat> {
    (match inbox.busy case Some(tag) => [tag] case None => []) + inbox.channel
  }

  // ---------- The invariant ----------

  function Tags(n: nat): seq<nat> { seq(n, i requires 0 <= i < n => i) }

  /** What is to be handled: the accepted events routed to the subscription, in order, less the lost ones. */
  ghost function Expected(p: Pipe, id: SubId): seq<nat> { Filter(Tags(|p.accepted|), Mine(p, id)) }

  function InFlight(w: Worker, id: SubId): seq<nat> {
    if w.Sending? && id in w.pending then [w.tag] else []
  }

  /** Handled, in hand, in flight and queued make up what is expected, each once and in order. */
  ghost predicate Whole(p: Pipe, id: SubId) {
    id in p.inboxes ==>
      Expected(p, id) ==
        p.inboxes[id].done + InHand(p.inboxes[id]) + InFlight(p.worker, id) + Filter(p.queue, Mine(p, id))
  }

  ghost predicate Bounded(p: Pipe) {
    |p.queue| <= p.queueSize && forall id :: id in p.inboxes ==> |p.inboxes[id].channel| <= p.channelSize
  }

  /** Tags in the system are tags of accepted events. */
  ghost predicate Proper(p: Pipe) {
    && (forall i :: 0 <= i < |p.queue| ==> p.queue[i] < |p.accepted|)
    && (p.worker.Sending? ==> p.worker.tag < |p.accepted| && p.worker.pending <= p.inboxes.Keys)
    && (forall pair :: pair in p.lost ==> pair.1 < |p.accepted|)
  }

  /** A closed inbox is empty and stays so. */
  ghost predicate Shut(p: Pipe) {
    forall id :: id in p.inboxes && p.inboxes[id].closed ==> p.inboxes[id].channel == [] && p.inboxes[id].busy.None?
  }

  ghost predicate Flowing(p: Pipe) {
    Bounded(p) && Proper(p) && Shut(p) && forall id :: Whole(p, id)
  }

  // ---------- Selecting tags ----------

  /** The selected tags ascend, so none comes twice. */
  lemma ExpectedAscends(p: Pipe, id: SubId, i: nat, j: nat)
    requires i < j < |Expected(p, id)|
    ensures Expected(p, id)[i] < Expected(p, id)[j]
  {
    var tags := Tags(|p.accepted|);
    FilterOrdered(tags, Mine(p, id), i, j);
    assert tags[FilterFrom(tags, Mine(p, id), i)] == Expected(p, id)[i];
    assert tags[FilterFrom(tags, Mine(p, id), j)] == Expected(p, id)[j];
  }

  /** An expected tag is among the lost ones exactly when it stands in the lost stretch. */
  lemma InStretch(p: Pipe, id: SubId, before: seq<nat>, gone: seq<nat>, after: seq<nat>, i: nat)
    requires Expected(p, id) == before + gone + after && i < |before + gone + after|
    ensures (before + gone + after)[i] in gone <==> |before| <= i < |before| + |gone|
  {
    var all := before + gone + after;
    if all[i] in gone {
      var g :| 0 <= g < |gone| && gone[g] == all[i];
      assert all[|before| + g] == all[i];
      if i < |before| + g {
        ExpectedAscends(p, id, i, |before| + g);
      } else if i > |before| + g {
        ExpectedAscends(p, id, |before| + g, i);
      }
    }
  }

  lemma CutStretch(before: seq<nat>, gone: seq<nat>, after: seq<nat>, keep: nat -> bool)
    requires forall i :: 0 <= i < |before| ==> keep(before[i])
    requires forall i :: 0 <= i < |gone| ==> !keep(gone[i])
    requires forall i :: 0 <= i < |after| ==> keep(after[i])
    ensures Filter(before + gone + after, keep) == before + after
  {
    FilterConcat(before + gone, after, keep);
    FilterConcat(before, gone, keep);
    FilterAll(before, keep);
    FilterNone(gone, keep);
    FilterAll(after, keep);
    assert before + [] == before;
  }

  /** Every expected tag is owed by the pipe it was expected in. */
  lemma ExpectedMine(p: Pipe, id: SubId, i: nat)
    requires i < |Expected(p, id)|
    ensures Mine(p, id)(Expected(p, id)[i])
  {
    var at := FilterFrom(Tags(|p.accepted|), Mine(p, id), i);
  }

  /** When the tags of one stretch are lost, what is left of the expected is the rest. */
  lemma LoseStretch(p: Pipe, q: Pipe, id: SubId, before: seq<nat>, gone: seq<nat>, after: seq<nat>)
    requires q.accepted == p.accepted && q.net == p.net
    requires forall tag :: (id, tag) in q.lost <==> (id, tag) in p.lost || tag in gone
    requires Expected(p, id) == before + gone + after
    ensures Expected(q, id) == before + after
  {
    hide Expected;
    var all, keep := before + gone + after, Mine(q, id);
    ExpectedNarrows(p, q, id);
    forall i | 0 <= i < |all| ensures keep(all[i]) <==> !(|before| <= i < |before| + |gone|) {
      InStretch(p, id, before, gone, after, i);
      ExpectedMine(p, id, i);
    }
    assert forall i :: 0 <= i < |before| ==> all[i] == before[i];
    assert forall i :: 0 <= i < |gone| ==> all[|before| + i] == gone[i];
    assert forall i :: 0 <= i < |after| ==> all[|before| + |gone| + i] == after[i];
    CutStretch(before, gone, after, keep);
  }

  lemma ExpectedNarrows(p: Pipe, q: Pipe, id: SubId)
    requires q.accepted == p.accepted && q.net == p.net
    requires forall tag :: (id, tag) in p.lost ==> (id, tag) in q.lost
    ensures Expected(q, id) == Filter(Expected(p, id), Mine(q, id))
  {
    FilterNarrow(Tags(|p.accepted|), Mine(p, id), Mine(q, id));
  }

  // ---------- Every move keeps the invariant ----------

  lemma StartFlows(net: Net, queueSize: nat, channelSize: nat)
    ensures Flowing(Start(net, queueSize, channelSize))
  {
  }

  lemma AcceptKeeps(p: Pipe, e: Envelope)
    requires Flowing(p) && |p.queue| < p.queueSize
    ensures Flowing(Accepted(p, e))
  {
    hide Whole;
    forall id ensures Whole(Accepted(p, e), id) {
      AcceptedWhole(p, e, id);
    }
  }

  lemma AcceptedWhole(p: Pipe, e: Envelope, id: SubId)
    requires Whole(p, id) && Proper(p)
    ensures Whole(Accepted(p, e), id)
  {
    hide Filter, Tags, Mine, Owes;
    if id in p.inboxes {
      var q := Accepted(p, e);
      var n: nat := |p.accepted|;
      TagsPush(n);
      FilterPush(Tags(n), n, Mine(q, id));
      FilterPush(p.queue, n, Mine(q, id));
      AcceptedOwes(p, e, id);
      FilterAgree(Tags(n), Mine(p, id), Mine(q, id));
      FilterAgree(p.queue, Mine(p, id), Mine(q, id));
      var last: seq<nat> := if Mine(q, id)(n) then [n] else [];
      var front := p.inboxes[id].done + InHand(p.inboxes[id]) + InFlight(p.worker, id);
      assert front + Filter(p.queue, Mine(p, id)) + last == front + (Filter(p.queue, Mine(p, id)) + last);
    }
  }

  lemma TagsPush(n: nat)
    ensures Tags(n + 1) == Tags(n) + [n]
    ensures forall i :: 0 <= i < |Tags(n)| ==> Tags(n)[i] < n
  {
  }

  /** Who is owed the events accepted before does not change. */
  lemma AcceptedOwes(p: Pipe, e: Envelope, id: SubId)
    ensures forall tag: nat :: tag < |p.accepted| ==> Mine(Accepted(p, e), id)(tag) == Mine(p, id)(tag)
  {
  }

  lemma TakeKeeps(p: Pipe)
    requires Flowing(p) && p.worker.Waiting? && p.queue != []
    ensures Flowing(Taken(p))
  {
    var q := Taken(p);
    forall id ensures Whole(q, id) {
      if id in p.inboxes {
        assert Whole(p, id);
        FilterFirst(p.queue, Mine(p, id));
        assert Mine(q, id) == Mine(p, id);
        var front := p.inboxes[id].done + InHand(p.inboxes[id]);
        assert InFlight(q.worker, id) == if Mine(p, id)(p.queue[0]) then [p.queue[0]] else [];
        assert front + [] + (InFlight(q.worker, id) + Filter(q.queue, Mine(p, id)))
            == front + InFlight(q.worker, id) + Filter(q.queue, Mine(p, id));
      }
    }
  }

  lemma SendKeeps(p: Pipe, to: SubId)
    requires Flowing(p) && CanMove(p, Send(to))
    ensures Flowing(Sent(p, to))
  {
    if p.inboxes[to].closed {
      LoseSend(p, to);
    } else {
      var q := Sent(p, to);
      forall id ensures Whole(q, id) {
        if id in p.inboxes {
          assert Whole(p, id);
          assert Mine(q, id) == Mine(p, id);
          if id == to {
            var inbox, tag := p.inboxes[id], p.worker.tag;
            assert InHand(q.inboxes[id]) == InHand(inbox) + [tag];
            assert inbox.done + (InHand(inbox) + [tag]) + [] == inbox.done + InHand(inbox) + [tag];
          }
        }
      }
    }
  }

  /** A send to a closed inbox loses the event for that subscription, and nothing else. */
  lemma LoseSend(p: Pipe, to: SubId)
    requires Flowing(p) && CanMove(p, Send(to)) && p.inboxes[to].closed
    ensures Flowing(Sent(p, to))
  {
    var q := Sent(p, to);
    forall id ensures Whole(q, id) {
      if id in p.inboxes {
        assert Whole(p, id);
        var front, back := p.inboxes[id].done + InHand(p.inboxes[id]), Filter(p.queue, Mine(p, id));
        if id == to {
          LoseStretch(p, q, id, front, [p.worker.tag], back);
          QueueKept(p, q, id, front + [p.worker.tag]);
          assert front + [] == front;
        } else {
          FilterAgree(Tags(|p.accepted|), Mine(p, id), Mine(q, id));
          FilterAgree(p.queue, Mine(p, id), Mine(q, id));
        }
      }
    }
  }

  lemma LocalKeeps(p: Pipe, at: SubId, m: Move)
    requires Flowing(p) && (m == Receive(at) || m == Finish(at)) && CanMove(p, m)
    ensures Flowing(Moved(p, m))
  {
    var q := Moved(p, m);
    forall id ensures Whole(q, id) {
      if id in p.inboxes {
        assert Whole(p, id);
        assert Mine(q, id) == Mine(p, id);
        if id == at {
          var inbox := p.inboxes[id];
          if m.Receive? {
            assert InHand(q.inboxes[id]) == InHand(inbox);
          } else {
            assert q.inboxes[id].done + InHand(q.inboxes[id]) == inbox.done + InHand(inbox);
          }
        }
      }
    }
  }

  lemma TimeoutKeeps(p: Pipe)
    requires Flowing(p) && p.worker.Sending?
    ensures Flowing(Moved(p, Timeout))
  {
    var q := Moved(p, Timeout);
    forall id ensures Whole(q, id) {
      if id in p.inboxes {
        assert Whole(p, id);
        var front, back := p.inboxes[id].done + InHand(p.inboxes[id]), Filter(p.queue, Mine(p, id));
        LoseStretch(p, q, id, front, InFlight(p.worker, id), back);
        QueueKept(p, q, id, front + InFlight(p.worker, id));
        assert front + [] == front;
      }
    }
  }

  /** What is queued is not among what came before it. */
  lemma QueueKept(p: Pipe, q: Pipe, id: SubId, front: seq<nat>)
    requires q.accepted == p.accepted && q.net == p.net && q.queue == p.queue
    requires Expected(p, id) == front + Filter(p.queue, Mine(p, id))
    requires forall tag :: (id, tag) in q.lost ==> (id, tag) in p.lost || tag in front
    requires p.lost <= q.lost
    ensures Filter(q.queue, Mine(q, id)) == Filter(p.queue, Mine(p, id))
  {
    forall i | 0 <= i < |p.queue| ensures Mine(p, id)(p.queue[i]) <==> Mine(q, id)(p.queue[i]) {
      if Mine(p, id)(p.queue[i]) && p.queue[i] in front {
        var k := FilterComplete(p.queue, Mine(p, id), i);
        var f :| 0 <= f < |front| && front[f] == p.queue[i];
        assert Expected(p, id)[f] == Expected(p, id)[|front| + k];
        ExpectedAscends(p, id, f, |front| + k);
      }
    }
    FilterAgree(p.queue, Mine(p, id), Mine(q, id));
  }

  lemma HaltKeeps(p: Pipe)
    requires Flowing(p)
    ensures Flowing(Halted(p))
  {
    var q := Halted(p);
    forall id ensures Whole(q, id) {
      if id in p.inboxes {
        assert Whole(p, id);
        var front := p.inboxes[id].done + InHand(p.inboxes[id]) + InFlight(p.worker, id);
        var gone := Filter(p.queue, Mine(p, id));
        var r := p.(lost := p.lost + (set tag | tag in gone :: (id, tag)));
        assert front + gone + [] == Expected(p, id);
        LoseStretch(p, r, id, front, gone, []);
        forall tag ensures Mine(q, id)(tag) <==> Mine(r, id)(tag) {
          if tag in p.queue && Mine(p, id)(tag) {
            var i :| 0 <= i < |p.queue| && p.queue[i] == tag;
            var k := FilterComplete(p.queue, Mine(p, id), i);
          }
          if tag in gone {
            var k :| 0 <= k < |gone| && gone[k] == tag;
            var i := FilterFrom(p.queue, Mine(p, id), k);
          }
        }
        FilterAgree(Tags(|p.accepted|), Mine(q, id), Mine(r, id));
        assert front + [] == front;
      }
    }
  }

  lemma HeldProper(p: Pipe, at: SubId)
    requires Whole(p, at) && at in p.inboxes
    ensures forall tag :: tag in InHand(p.inboxes[at]) ==> tag < |p.accepted|
  {
    var done, held := p.inboxes[at].done, InHand(p.inboxes[at]);
    forall i | 0 <= i < |held| ensures held[i] < |p.accepted| {
      assert Expected(p, at)[|done| + i] == held[i];
      ExpectedMine(p, at, |done| + i);
    }
  }

  lemma AbortKeeps(p: Pipe, at: SubId)
    requires Flowing(p) && at in p.inboxes
    ensures Flowing(Moved(p, Abort(at)))
  {
    var q := Moved(p, Abort(at));
    HeldProper(p, at);
    forall id ensures Whole(q, id) {
      if id in p.inboxes {
        assert Whole(p, id);
        if id == at {
          var inbox := p.inboxes[id];
          var flight, back := InFlight(p.worker, id), Filter(p.queue, Mine(p, id));
          assert inbox.done + InHand(inbox) + flight + back == inbox.done + InHand(inbox) + (flight + back);
          LoseStretch(p, q, id, inbox.done, InHand(inbox), flight + back);
          QueueKept(p, q, id, inbox.done + InHand(inbox) + flight);
          assert inbox.done + [] + flight + back == inbox.done + (flight + back);
        } else {
          FilterAgree(Tags(|p.accepted|), Mine(p, id), Mine(q, id));
          FilterAgree(p.queue, Mine(p, id), Mine(q, id));
        }
      }
    }
  }

  lemma SameFlow(p: Pipe, q: Pipe)
    requires Flowing(p) && q == p.(tally := q.tally, worker := q.worker)
    requires q.worker == p.worker || (!q.worker.Sending? && (p.worker.Sending? ==> p.worker.pending == {}))
    ensures Flowing(q)
  {
    forall id ensures Whole(q, id) {
      assert Whole(p, id);
      assert Mine(q, id) == Mine(p, id);
    }
  }

  lemma MoveKeeps(p: Pipe, m: Move)
    requires Flowing(p) && CanMove(p, m)
    ensures Flowing(Moved(p, m))
  {
    match m
    case Accept(e) => AcceptKeeps(p, e);
    case Take => TakeKeeps(p);
    case Send(id) => SendKeeps(p, id);
    case Timeout => TimeoutKeeps(p);
    case Receive(id) => LocalKeeps(p, id, m);
    case Finish(id) => LocalKeeps(p, id, m);
    case Halt => HaltKeeps(p);
    case Die =>
      HaltKeeps(p);
      SameFlow(Halted(p), Moved(p, Die));
    case Abort(id) => AbortKeeps(p, id);
    case _ => SameFlow(p, Moved(p, m));
  }

  // ---------- What a subscriber sees ----------

  /** Each subscription handles its events once and in the order of acceptance. */
  lemma HandledInOrder(p: Pipe, id: SubId)
    requires Flowing(p) && id in p.inboxes
    ensures p.inboxes[id].done <= Expected(p, id)
    ensures forall i, j :: 0 <= i < j < |p.inboxes[id].done| ==> p.inboxes[id].done[i] < p.inboxes[id].done[j]
  {
    assert Whole(p, id);
    var done := p.inboxes[id].done;
    forall i, j | 0 <= i < j < |done| ensures done[i] < done[j] {
      ExpectedAscends(p, id, i, j);
    }
  }

  ghost predicate Quiet(p: Pipe) { p.queue == [] && !p.worker.Sending? }

  ghost predicate Ended(inbox: Inbox) { inbox.channel == [] && inbox.busy.None? }

  /** With nothing left on the way, each subscription has handled exactly what is expected of it. */
  lemma QuietIsDone(p: Pipe, id: SubId)
    requires Flowing(p) && id in p.inboxes && Quiet(p) && Ended(p.inboxes[id])
    ensures p.inboxes[id].done == Expected(p, id)
    ensures p.lost == {} ==> forall tag: nat :: tag in p.inboxes[id].done <==> Routed(p.net, p.accepted, id, tag)
  {
    assert Whole(p, id);
    var done := p.inboxes[id].done;
    if p.lost == {} {
      forall tag: nat ensures tag in done <==> Routed(p.net, p.accepted, id, tag) {
        if tag in done {
          var i :| 0 <= i < |done| && done[i] == tag;
          var at := FilterFrom(Tags(|p.accepted|), Mine(p, id), i);
        }
        if Routed(p.net, p.accepted, id, tag) {
          assert Tags(|p.accepted|)[tag] == tag;
          var k := FilterComplete(Tags(|p.accepted|), Mine(p, id), tag);
        }
      }
    }
  }

  // ---------- Accounting ----------

  /** Calls of `dispatch` that returned and submissions rejected by a full queue are dispatched,
      counted as errors, queued or in flight. */
  ghost predicate Balanced(p: Pipe) {
    p.tally.accepted + p.tally.rejected
      == p.tally.dispatched + p.tally.errors + |p.queue| + if p.worker.Sending? then 1 else 0
  }

  lemma BalanceKept(p: Pipe, m: Move)
    requires Balanced(p) && CanMove(p, m)
    ensures Balanced(Moved(p, m)) <==> (m != Halt && m != Die) || p.queue == []
  {
  }

  /** Over every run of the moves. */
  ghost predicate Flow(pipes: seq<Pipe>, moves: seq<Move>) {
    |pipes| == |moves| + 1 && forall i :: 0 <= i < |moves| ==> MovesTo(pipes[i], moves[i], pipes[i + 1])
  }

  ghost predicate MovesTo(p: Pipe, m: Move, q: Pipe) { CanMove(p, m) && q == Moved(p, m) }

  /** Nothing was lost, no inbox closed, and the worker lives. */
  ghost predicate Lossless(p: Pipe) {
    p.lost == {} && !p.worker.Dead? && forall id :: id in p.inboxes ==> !p.inboxes[id].closed
  }

  predicate Loses(m: Move) { m.Timeout? || m.Halt? || m.Die? || m.Abort? }

  lemma {:induction false} EveryFlow(pipes: seq<Pipe>, moves: seq<Move>, net: Net, queueSize: nat, channelSize: nat,
      n: nat)
    requires Flow(pipes, moves) && pipes[0] == Start(net, queueSize, channelSize) && n < |pipes|
    ensures Flowing(pipes[n])
    ensures (forall i :: 0 <= i < n ==> !moves[i].Halt? && !moves[i].Die?) ==> Balanced(pipes[n])
    ensures (forall i :: 0 <= i < n ==> !Loses(moves[i])) ==> Lossless(pipes[n])
  {
    hide Flowing, CanMove, Moved, Balanced, Lossless;
    if n == 0 {
      StartFlows(net, queueSize, channelSize);
      StartBalanced(net, queueSize, channelSize);
    } else {
      EveryFlow(pipes, moves, net, queueSize, channelSize, n - 1);
      assert MovesTo(pipes[n - 1], moves[n - 1], pipes[n]);
      MoveKeeps(pipes[n - 1], moves[n - 1]);
      if !moves[n - 1].Halt? && !moves[n - 1].Die? && Balanced(pipes[n - 1]) {
        BalanceKept(pipes[n - 1], moves[n - 1]);
      }
      if !Loses(moves[n - 1]) && Lossless(pipes[n - 1]) { LostKept(pipes[n - 1], moves[n - 1]); }
    }
  }

  /** A subscription whose task was cancelled handles nothing more, over any stretch of any run. */
  lemma {:induction false} ClosedForGood(pipes: seq<Pipe>, moves: seq<Move>, i: nat, j: nat, id: SubId)
    requires Flow(pipes, moves) && i <= j < |pipes| && Shut(pipes[i])
    requires id in pipes[i].inboxes && pipes[i].inboxes[id].closed
    ensures Shut(pipes[j]) && id in pipes[j].inboxes && pipes[j].inboxes[id] == pipes[i].inboxes[id]
  {
    hide CanMove, Moved, Shut;
    if i < j {
      ClosedForGood(pipes, moves, i, j - 1, id);
      assert MovesTo(pipes[j - 1], moves[j - 1], pipes[j]);
      ShutKept(pipes[j - 1], moves[j - 1], id);
    }
  }

  lemma ShutKept(p: Pipe, m: Move, id: SubId)
    requires Shut(p) && CanMove(p, m) && id in p.inboxes && p.inboxes[id].closed
    ensures Shut(Moved(p, m)) && id in Moved(p, m).inboxes && Moved(p, m).inboxes[id] == p.inboxes[id]
  {
  }

  predicate Tallies(m: Move, kind: nat) {
    match kind
    case 0 => m.Accept? || m.DropFull?
    case 1 => m.RejectFull?
    case 2 => m.Complete?
    case _ => m.DropFull? || m.RejectFull? || m.Timeout?
  }

  function Tallied(moves: seq<Move>, kind: nat): nat {
    if moves == [] then 0 else Tallied(moves[..|moves| - 1], kind) + if Tallies(moves[|moves| - 1], kind) then 1 else 0
  }

  /** What the counters count: calls answered with success, calls turned away by a full queue, events
      dispatched to all their recipients, and events dropped, turned away or given up. */
  lemma {:induction false} CountersCount(pipes: seq<Pipe>, moves: seq<Move>, net: Net, queueSize: nat,
      channelSize: nat, n: nat)
    requires Flow(pipes, moves) && pipes[0] == Start(net, queueSize, channelSize) && n < |pipes|
    ensures var tally := pipes[n].tally;
      && tally.accepted == Tallied(moves[..n], 0) && tally.rejected == Tallied(moves[..n], 1)
      && tally.dispatched == Tallied(moves[..n], 2) && tally.errors == Tallied(moves[..n], 3)
  {
    if n > 0 {
      CountersCount(pipes, moves, net, queueSize, channelSize, n - 1);
      assert MovesTo(pipes[n - 1], moves[n - 1], pipes[n]);
      assert moves[..n][..n - 1] == moves[..n - 1];
    }
  }

  ghost predicate Died(moves: seq<Move>, i: nat)
    requires i <= |moves|
  {
    exists k :: 0 <= k < i && moves[k].Die?
  }

  /** The worker is dead exactly from its death on. Until then a submission is taken if the queue has room,
      and dropped or turned away only if it has none; from then on every submission is refused. */
  lemma {:induction false} SubmissionsMet(pipes: seq<Pipe>, moves: seq<Move>, i: nat)
    requires Flow(pipes, moves) && !pipes[0].worker.Dead? && i < |pipes|
    ensures pipes[i].worker.Dead? <==> Died(moves, i)
    ensures i < |moves| && Died(moves, i) ==> !moves[i].Accept? && !moves[i].DropFull? && !moves[i].RejectFull?
    ensures i < |moves| && !Died(moves, i) ==>
      && !moves[i].Refuse?
      && (moves[i].Accept? ==> |pipes[i].queue| < pipes[i].queueSize)
      && (moves[i].DropFull? || moves[i].RejectFull? ==> |pipes[i].queue| == pipes[i].queueSize)
  {
    hide CanMove, Moved;
    if i > 0 {
      SubmissionsMet(pipes, moves, i - 1);
      assert MovesTo(pipes[i - 1], moves[i - 1], pipes[i]);
      DeathStep(pipes[i - 1], moves[i - 1]);
    }
    if i < |moves| {
      assert MovesTo(pipes[i], moves[i], pipes[i + 1]);
      SubmissionStep(pipes[i], moves[i]);
    }
  }

  lemma DeathStep(p: Pipe, m: Move)
    requires CanMove(p, m)
    ensures Moved(p, m).worker.Dead? <==> p.worker.Dead? || m.Die?
  {
  }

  lemma SubmissionStep(p: Pipe, m: Move)
    requires CanMove(p, m)
    ensures p.worker.Dead? ==> !m.Accept? && !m.DropFull? && !m.RejectFull?
    ensures !p.worker.Dead? ==>
      && !m.Refuse?
      && (m.Accept? ==> |p.queue| < p.queueSize)
      && (m.DropFull? || m.RejectFull? ==> |p.queue| == p.queueSize)
  {
  }

  /** A task that is cancelled, or dies, handles nothing more from then on. */
  lemma AbortedForGood(pipes: seq<Pipe>, moves: seq<Move>, i: nat, j: nat, id: SubId)
    requires Flow(pipes, moves) && i < j < |pipes| && moves[i] == Abort(id) && Shut(pipes[i])
    ensures id in pipes[i].inboxes && id in pipes[j].inboxes && pipes[j].inboxes[id].done == pipes[i].inboxes[id].done
    ensures pipes[j].inboxes[id].channel == [] && pipes[j].inboxes[id].busy.None?
  {
    assert MovesTo(pipes[i], moves[i], pipes[i + 1]);
    ShutAfterAbort(pipes[i], id);
    ClosedForGood(pipes, moves, i + 1, j, id);
  }

  lemma ShutAfterAbort(p: Pipe, id: SubId)
    requires Shut(p) && id in p.inboxes
    ensures Shut(Moved(p, Abort(id))) && Moved(p, Abort(id)).inboxes[id].closed
  {
  }

  lemma StartBalanced(net: Net, queueSize: nat, channelSize: nat)
    ensures Balanced(Start(net, queueSize, channelSize)) && Lossless(Start(net, queueSize, channelSize))
  {
  }

  lemma LostKept(p: Pipe, m: Move)
    requires CanMove(p, m) && !Loses(m) && Lossless(p)
    ensures Lossless(Moved(p, m))
  {
  }
}
