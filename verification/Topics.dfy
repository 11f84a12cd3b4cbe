/** Topic strings, their tokens, and the wildcard rule for subscription patterns:
    `*` stands for exactly one token and `>` for one or more trailing tokens. */
module Topics {

  const ANY := "*"
  const TRAILING := ">"

  /** The tokens of a dotted string, as Rust's `split('.')` yields them: always at least one,
      and an empty token wherever two dots touch or the string starts or ends with a dot. */
  function Split(s: string): (tokens: seq<string>)
    ensures tokens != []
  {
    if s == "" then [""]
    else
      var rest := Split(s[1..]);
      if s[0] == '.' then [""] + rest else [[s[0]] + rest[0]] + rest[1..]
  }

  function Join(tokens: seq<string>): string {
    if tokens == [] then ""
    else if |tokens| == 1 then tokens[0]
    else tokens[0] + "." + Join(tokens[1..])
  }

  /** Splitting loses nothing. */
  lemma {:induction false} JoinSplit(s: string)
    ensures Join(Split(s)) == s
    ensures forall t :: t in Split(s) ==> '.' !in t
  {
    if s != "" {
      JoinSplit(s[1..]);
      var rest := Split(s[1..]);
      if s[0] != '.' {
        assert Join([[s[0]] + rest[0]] + rest[1..]) == [s[0]] + Join(rest);
      }
    }
  }

  /** A token list without dots is recovered from its dotted string, so patterns that differ
      as strings differ as token lists and the reverse. */
  lemma {:induction false} SplitJoin(tokens: seq<string>)
    requires tokens != [] && forall t :: t in tokens ==> '.' !in t
    ensures Split(Join(tokens)) == tokens
    decreases |tokens|, |Join(tokens)|
  {
    var s := Join(tokens);
    if tokens[0] == "" {
      if |tokens| > 1 {
        assert s == "." + Join(tokens[1..]);
        SplitJoin(tokens[1..]);
      }
    } else {
      var shorter := [tokens[0][1..]] + tokens[1..];
      var c := tokens[0][0];
      assert c in tokens[0] && c != '.';
      forall t | t in shorter ensures '.' !in t {
        if t == shorter[0] {
          assert forall d :: d in t ==> d in tokens[0];
        } else {
          assert t in tokens[1..];
        }
      }
      assert s == [c] + Join(shorter);
      SplitJoin(shorter);
      assert [c] + shorter[0] == tokens[0] && shorter[1..] == tokens[1..];
      assert tokens == [[c] + shorter[0]] + shorter[1..];
    }
  }

  /** A pattern with `>` only in last position. */
  predicate WellFormed(pattern: seq<string>) {
    forall i :: 0 <= i < |pattern| - 1 ==> pattern[i] != TRAILING
  }

  /** What is left of a pattern when everything after its first `>` is ignored. */
  function Truncate(pattern: seq<string>): (r: seq<string>) {
    if pattern == [] then []
    else if pattern[0] == TRAILING then [TRAILING]
    else [pattern[0]] + Truncate(pattern[1..])
  }

  lemma {:induction false} TruncateCuts(pattern: seq<string>)
    ensures Truncate(pattern) <= pattern && WellFormed(Truncate(pattern))
    ensures pattern != [] ==> Truncate(pattern) != []
    ensures WellFormed(pattern) <==> Truncate(pattern) == pattern
  {
    if pattern != [] && pattern[0] != TRAILING {
      TruncateCuts(pattern[1..]);
      assert pattern == [pattern[0]] + pattern[1..];
      assert WellFormed(pattern) ==> WellFormed(pattern[1..]);
    }
  }

  /** The wildcard rule, stated position by position on a pattern with `>` only at its end. */
  predicate Matches(pattern: seq<string>, topic: seq<string>) {
    if pattern != [] && pattern[|pattern| - 1] == TRAILING
    then |topic| >= |pattern| && Agree(pattern[..|pattern| - 1], topic)
    else |topic| == |pattern| && Agree(pattern, topic)
  }

  predicate Agree(pattern: seq<string>, topic: seq<string>)
    requires |pattern| <= |topic|
  {
    forall i :: 0 <= i < |pattern| ==> pattern[i] == ANY || pattern[i] == topic[i]
  }

  /** Whether a subscription pattern selects a published topic: the rule on the string forms,
      with anything after an interior `>` ignored. */
  predicate Selects(pattern: string, topic: string) {
    Matches(Truncate(Split(pattern)), Split(topic))
  }

  /** The wildcard rule on the strings: without a `>` the tokens agree one by one, where `*` agrees with
      any; with one, the tokens before the first `>` do, and at least one more token follows. */
  lemma {:induction false} TruncateAtFirst(pattern: seq<string>, g: nat)
    requires g < |pattern| && pattern[g] == ">" && forall i :: 0 <= i < g ==> pattern[i] != ">"
    ensures Truncate(pattern) == pattern[..g + 1]
  {
    if g > 0 {
      TruncateAtFirst(pattern[1..], g - 1);
      assert pattern[..g + 1] == [pattern[0]] + pattern[1..][..g];
    }
  }

  lemma {:induction false} FirstTrailing(pattern: seq<string>) returns (g: nat)
    requires ">" in pattern
    ensures g < |pattern| && pattern[g] == ">" && forall i :: 0 <= i < g ==> pattern[i] != ">"
  {
    if pattern[0] == ">" {
      g := 0;
    } else {
      var h := FirstTrailing(pattern[1..]);
      g := h + 1;
    }
  }

  /** The first `g` tokens of the topic are those of the pattern, where `*` stands for any. */
  predicate AgreeUpTo(pattern: seq<string>, topic: seq<string>, g: nat) {
    g <= |pattern| && g <= |topic| && forall i :: 0 <= i < g ==> pattern[i] == "*" || pattern[i] == topic[i]
  }

  lemma SelectsMeans(pattern: string, topic: string)
    ensures ">" !in Split(pattern) ==>
      (Selects(pattern, topic) <==>
        |Split(topic)| == |Split(pattern)| && AgreeUpTo(Split(pattern), Split(topic), |Split(topic)|))
    ensures ">" in Split(pattern) ==>
      exists g: nat :: g < |Split(pattern)| && Split(pattern)[g] == ">" && ">" !in Split(pattern)[..g]
        && (Selects(pattern, topic) <==> |Split(topic)| > g && AgreeUpTo(Split(pattern), Split(topic), g))
  {
    var p, t := Split(pattern), Split(topic);
    if ">" in p {
      var g := FirstTrailing(p);
      TruncateAtFirst(p, g);
      assert p[..g + 1][..g] == p[..g];
      assert forall i :: 0 <= i < g ==> p[..g][i] == p[i];
      assert ">" !in p[..g];
      assert Selects(pattern, topic) <==> |t| > g && AgreeUpTo(p, t, g);
    } else {
      TruncateCuts(p);
      assert WellFormed(p);
      assert p[|p| - 1] in p;
    }
  }

  /** Peeling one token off both sides, the form in which a tree walk meets the rule. */
  lemma MatchesStep(pattern: seq<string>, topic: seq<string>)
    requires WellFormed(pattern)
    ensures pattern == [] ==> (Matches(pattern, topic) <==> topic == [])
    ensures topic == [] ==> (Matches(pattern, topic) <==> pattern == [])
    ensures pattern != [] && topic != [] ==>
      (Matches(pattern, topic) <==>
        pattern == [TRAILING]
        || (pattern[0] != TRAILING && (pattern[0] == ANY || pattern[0] == topic[0])
            && Matches(pattern[1..], topic[1..])))
  {
    if pattern != [] && topic != [] && pattern != [TRAILING] {
      if |pattern| > 1 {
        assert pattern[0] != TRAILING;
        var p', t' := pattern[1..], topic[1..];
        assert p'[|p'| - 1] == pattern[|pattern| - 1];
        if Matches(pattern, topic) {
          forall i | 0 <= i < |p'| - 1 ensures p'[i] == ANY || p'[i] == t'[i] {
            assert p'[i] == pattern[i + 1] && t'[i] == topic[i + 1];
            assert pattern[..|pattern| - 1][i + 1] == pattern[i + 1];
          }
        }
        if (pattern[0] == ANY || pattern[0] == topic[0]) && Matches(p', t') {
          forall i | 0 <= i < |pattern| - 1 ensures pattern[i] == ANY || pattern[i] == topic[i] {
            if i > 0 {
              assert p'[i - 1] == pattern[i] && t'[i - 1] == topic[i];
              assert i - 1 < |p'| - 1 ==> p'[..|p'| - 1][i - 1] == p'[i - 1];
            }
          }
        }
      }
    }
  }
}
