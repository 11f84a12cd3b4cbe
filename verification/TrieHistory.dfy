/** What the topic index holds after any history of updates, told without replaying it. */
module TrieHistory {
  import opened Topics
  import opened TopicTries

  ghost function After(ops: seq<TrieOp>): Pairs {
    if ops == [] then {} else Apply(After(ops[..|ops| - 1]), ops[|ops| - 1])
  }

  /** The i-th update filed the id under this pattern (as cut off after `>`). */
  ghost predicate Files(ops: seq<TrieOp>, i: nat, pattern: seq<string>, id: SubId) {
    i < |ops| && ops[i].InsertOp? && ops[i].id == id && Truncate(Split(ops[i].pattern)) == pattern
  }

  /** The j-th update takes the pair out again. */
  ghost predicate Unfiles(ops: seq<TrieOp>, j: nat, pattern: seq<string>, id: SubId) {
    j < |ops| && match ops[j]
                 case InsertOp(_, _) => false
                 case RemoveTopicOp(q, x) => x == id && Split(q) == pattern
                 case RemoveOp(x) => x == id
  }

  /** Filed by the i-th update and taken out by none since. */
  ghost predicate FiledSince(ops: seq<TrieOp>, i: nat, pattern: seq<string>, id: SubId) {
    Files(ops, i, pattern, id) && forall j: nat :: i < j ==> !Unfiles(ops, j, pattern, id)
  }

  lemma FiledSinceStep(ops: seq<TrieOp>, i: nat, pattern: seq<string>, id: SubId)
    requires ops != []
    ensures var n := |ops| - 1; FiledSince(ops, i, pattern, id) <==>
      if i == n then Files(ops, n, pattern, id)
      else FiledSince(ops[..n], i, pattern, id) && !Unfiles(ops, n, pattern, id)
  {
    var n := |ops| - 1;
    var before := ops[..n];
    assert forall k: nat :: k < n ==>
      (Files(ops, k, pattern, id) <==> Files(before, k, pattern, id))
      && (Unfiles(ops, k, pattern, id) <==> Unfiles(before, k, pattern, id));
  }

  /** A pair is in the index exactly when some insertion of it was not followed by its removal. */
  lemma {:induction false} FiledAfter(ops: seq<TrieOp>, pattern: seq<string>, id: SubId)
    ensures (pattern, id) in After(ops) <==> exists i: nat :: FiledSince(ops, i, pattern, id)
  {
    if ops != [] {
      var n := |ops| - 1;
      FiledAfter(ops[..n], pattern, id);
      forall i: nat ensures FiledSince(ops, i, pattern, id) <==>
        if i == n then Files(ops, n, pattern, id)
        else FiledSince(ops[..n], i, pattern, id) && !Unfiles(ops, n, pattern, id)
      {
        FiledSinceStep(ops, i, pattern, id);
      }
      assert !FiledSince(ops[..n], n, pattern, id);
      assert FiledSince(ops, n, pattern, id) <==> Files(ops, n, pattern, id);
    }
  }

  /** Matching after any history selects exactly the ids with a live insertion whose pattern
      selects the topic by the wildcard rule. */
  lemma MatchedAfter(ops: seq<TrieOp>, topic: string, id: SubId)
    ensures (exists p :: (p, id) in After(ops) && Matches(p, Split(topic))) <==>
      exists i: nat :: i < |ops| && ops[i].InsertOp? && Selects(ops[i].pattern, topic)
        && FiledSince(ops, i, Truncate(Split(ops[i].pattern)), id)
  {
    if p :| (p, id) in After(ops) && Matches(p, Split(topic)) {
      FiledAfter(ops, p, id);
    }
    forall i: nat | i < |ops| && ops[i].InsertOp? && Selects(ops[i].pattern, topic)
      ensures FiledSince(ops, i, Truncate(Split(ops[i].pattern)), id) ==>
        (Truncate(Split(ops[i].pattern)), id) in After(ops)
    {
      FiledAfter(ops, Truncate(Split(ops[i].pattern)), id);
    }
  }

  /** Removing by pattern undoes an insertion exactly when `>` is not inside the pattern: an
      insertion stops at the first `>`, the removal walk does not. */
  lemma RemoveTopicUndoes(pairs: Pairs, pattern: string, id: SubId)
    requires (Truncate(Split(pattern)), id) !in pairs && (Split(pattern), id) !in pairs
    ensures Apply(Apply(pairs, InsertOp(pattern, id)), RemoveTopicOp(pattern, id)) == pairs
      <==> WellFormed(Split(pattern))
  {
    TruncateCuts(Split(pattern));
    var after := Apply(Apply(pairs, InsertOp(pattern, id)), RemoveTopicOp(pattern, id));
    assert (Truncate(Split(pattern)), id) in after <==> Truncate(Split(pattern)) != Split(pattern);
  }
}
