/**
 * What the wave loop produces, said without the loop: a sequence of rounds, each taking the
 * alphabetically first ready keys up to the wave size.  The theorems hold of every such sequence.
 */
module GreedySchedule {
  import opened Text
  import opened Collections
  import opened DependencyGraph

  /** All keys of the given rounds. */
  ghost function Done(rounds: seq<seq<string>>): set<string> {
    set i, k | 0 <= i < |rounds| && k in rounds[i] :: k
  }

  predicate SortedBy(names: map<string, string>, s: seq<string>)
    requires forall k :: k in s ==> k in names
  {
    forall i, j :: 0 <= i < j < |s| ==> !Less(names[s[j]], names[s[i]])
  }

  predicate Unbounded(size: int, keys: set<string>) {
    size <= 0 || |keys| <= size
  }

  /** A round takes every ready key if they fit, else exactly `size` of them, smallest names first. */
  ghost predicate GreedyRound(keys: set<string>, edges: seq<Edge>, names: map<string, string>, size: int,
                              done: set<string>, round: seq<string>)
    requires keys <= names.Keys
  {
    var ready := Ready(keys, edges, done);
    && 0 < |round| && Distinct(round) && SetOf(round) <= ready
    && (if size <= 0 || |ready| <= size then SetOf(round) == ready else |round| == size)
    && (forall k :: k in round ==> k in names)
    && SortedBy(names, round)
    && forall k, r :: k in ready && k !in round && r in round ==> !Less(names[k], names[r])
  }

  ghost predicate GreedyRounds(keys: set<string>, edges: seq<Edge>, names: map<string, string>, size: int,
                               rounds: seq<seq<string>>)
    requires keys <= names.Keys
  {
    rounds == [] ||
    var init := rounds[..|rounds| - 1];
    && GreedyRounds(keys, edges, names, size, init)
    && GreedyRound(keys, edges, names, size, Done(init), rounds[|rounds| - 1])
  }

  /** Any order-respecting batching of all keys, greedy or not. */
  ghost predicate ValidSchedule(keys: set<string>, edges: seq<Edge>, rounds: seq<seq<string>>) {
    && Done(rounds) == keys
    && forall i, k :: 0 <= i < |rounds| && k in rounds[i] ==> Satisfied(edges, k, Done(rounds[..i]))
  }

  lemma {:induction false} DoneStep(rounds: seq<seq<string>>, round: seq<string>)
    ensures Done(rounds + [round]) == Done(rounds) + SetOf(round)
    ensures (rounds + [round])[..|rounds|] == rounds
  {
    var all := rounds + [round];
    forall k ensures k in Done(all) <==> k in Done(rounds) + SetOf(round) {
      if k in Done(rounds) {
        var i :| 0 <= i < |rounds| && k in rounds[i];
        assert k in all[i];
      }
      if k in round {
        assert k in all[|rounds|];
      }
    }
  }

  lemma {:induction false} DoneUnfold(rounds: seq<seq<string>>)
    requires rounds != []
    ensures Done(rounds) == Done(rounds[..|rounds| - 1]) + SetOf(rounds[|rounds| - 1])
  {
    DoneStep(rounds[..|rounds| - 1], rounds[|rounds| - 1]);
    assert rounds == rounds[..|rounds| - 1] + [rounds[|rounds| - 1]];
  }

  lemma {:induction false} InDone(rounds: seq<seq<string>>, i: nat, j: nat, k: string)
    requires i < |rounds| && j <= |rounds|
    ensures i < j && k in rounds[i] ==> k in Done(rounds[..j])
  {
    if i < j {
      assert rounds[..j][i] == rounds[i];
    }
  }

  lemma {:induction false} DoneMonotone(rounds: seq<seq<string>>, i: nat, j: nat)
    requires i <= j <= |rounds|
    ensures Done(rounds[..i]) <= Done(rounds[..j])
  {
    forall k | k in Done(rounds[..i]) ensures k in Done(rounds[..j]) {
      var m :| 0 <= m < |rounds[..i]| && k in rounds[..i][m];
      assert k in rounds[..j][m];
    }
  }

  lemma {:induction false} GreedyPrefix(keys: set<string>, edges: seq<Edge>, names: map<string, string>, size: int,
                                        rounds: seq<seq<string>>, n: nat)
    requires keys <= names.Keys && n <= |rounds| && GreedyRounds(keys, edges, names, size, rounds)
    ensures GreedyRounds(keys, edges, names, size, rounds[..n])
    decreases |rounds|
  {
    if n < |rounds| {
      var init := rounds[..|rounds| - 1];
      GreedyPrefix(keys, edges, names, size, init, n);
      assert init[..n] == rounds[..n];
    } else {
      assert rounds[..n] == rounds;
    }
  }

  lemma {:induction false} RoundAt(keys: set<string>, edges: seq<Edge>, names: map<string, string>, size: int,
                                   rounds: seq<seq<string>>, i: nat)
    requires keys <= names.Keys && i < |rounds| && GreedyRounds(keys, edges, names, size, rounds)
    ensures GreedyRound(keys, edges, names, size, Done(rounds[..i]), rounds[i])
  {
    GreedyPrefix(keys, edges, names, size, rounds, i + 1);
    assert rounds[..i + 1][..i] == rounds[..i];
  }

  /** Only keys are scheduled, and the dependencies of a scheduled key are scheduled too. */
  lemma {:induction false} DoneIsClosed(keys: set<string>, edges: seq<Edge>, names: map<string, string>, size: int,
                                        rounds: seq<seq<string>>)
    requires keys <= names.Keys && GreedyRounds(keys, edges, names, size, rounds)
    ensures Done(rounds) <= keys
    ensures forall k :: k in Done(rounds) ==> Satisfied(edges, k, Done(rounds))
  {
    forall k | k in Done(rounds) ensures k in keys && Satisfied(edges, k, Done(rounds)) {
      var i :| 0 <= i < |rounds| && k in rounds[i];
      RoundAt(keys, edges, names, size, rounds, i);
      assert k in SetOf(rounds[i]);
      DoneMonotone(rounds, i, |rounds|);
      assert rounds[..|rounds|] == rounds;
    }
  }

  /** A round is not empty; it is disjoint from what came before; if it left a ready key behind it is full. */
  lemma {:induction false} RoundShape(keys: set<string>, edges: seq<Edge>, names: map<string, string>, size: int,
                                      rounds: seq<seq<string>>, n: nat)
    requires keys <= names.Keys && GreedyRounds(keys, edges, names, size, rounds) && n < |rounds|
    ensures rounds[n] != [] && |SetOf(rounds[n])| == |rounds[n]| && SetOf(rounds[n]) !! Done(rounds[..n])
    ensures SetOf(rounds[n]) == Ready(keys, edges, Done(rounds[..n])) || |rounds[n]| == size
  {
    RoundAt(keys, edges, names, size, rounds, n);
    SetOfSize(rounds[n]);
  }

  /** Each key is in exactly one round. */
  lemma {:induction false} RoundsDisjoint(keys: set<string>, edges: seq<Edge>, names: map<string, string>, size: int,
                                          rounds: seq<seq<string>>, i: nat, j: nat, k: string)
    requires keys <= names.Keys && GreedyRounds(keys, edges, names, size, rounds)
    requires i < j < |rounds| && k in rounds[i]
    ensures k !in rounds[j]
  {
    InDone(rounds, i, j, k);
    RoundShape(keys, edges, names, size, rounds, j);
    assert k !in SetOf(rounds[j]);
  }

  lemma {:induction false} GreedyIsValid(keys: set<string>, edges: seq<Edge>, names: map<string, string>, size: int,
                                         rounds: seq<seq<string>>)
    requires keys <= names.Keys && GreedyRounds(keys, edges, names, size, rounds) && Done(rounds) == keys
    ensures ValidSchedule(keys, edges, rounds)
  {
    forall i, k | 0 <= i < |rounds| && k in rounds[i] ensures Satisfied(edges, k, Done(rounds[..i])) {
      RoundAt(keys, edges, names, size, rounds, i);
      assert k in SetOf(rounds[i]);
    }
  }

  /** Along a chain the round number drops at every link. */
  lemma {:induction false} ChainDescends(keys: set<string>, edges: seq<Edge>, rounds: seq<seq<string>>,
                                         c: seq<string>, j: nat) returns (i: nat)
    requires ValidSchedule(keys, edges, rounds) && Chain(edges, c) && j < |rounds| && c[0] in rounds[j]
    ensures i + |c| - 1 <= j && c[|c| - 1] in rounds[i]
    decreases |c|
  {
    i := j;
    if |c| > 1 {
      assert Edge(c[0 + 1], c[0]) in edges;
      assert c[1] in Done(rounds[..j]);
      var m: nat :| m < j && c[1] in rounds[..j][m];
      assert forall n {:trigger c[1..][n]} :: 0 <= n < |c| - 1 ==> c[1..][n] == c[n + 1];
      i := ChainDescends(keys, edges, rounds, c[1..], m);
    }
  }

  lemma {:induction false} ScheduleRefutesCycle(keys: set<string>, edges: seq<Edge>, rounds: seq<seq<string>>,
                                                c: seq<string>, j: nat)
    requires ValidSchedule(keys, edges, rounds) && Cycle(edges, c) && j < |rounds| && c[0] in rounds[j]
    ensures false
    decreases j
  {
    var i := ChainDescends(keys, edges, rounds, c, j);
    ScheduleRefutesCycle(keys, edges, rounds, c, i);
  }

  /** A graph that can be scheduled at all has no cycle. */
  lemma {:induction false} ScheduledMeansAcyclic(keys: set<string>, edges: seq<Edge>, rounds: seq<seq<string>>)
    requires Within(edges, keys) && ValidSchedule(keys, edges, rounds)
    ensures !Cyclic(edges)
  {
    if c :| Cycle(edges, c) {
      assert Edge(c[0 + 1], c[0]) in edges;
      var j :| 0 <= j < |rounds| && c[0] in rounds[j];
      ScheduleRefutesCycle(keys, edges, rounds, c, j);
    }
  }

  /** How many rounds took everything that was ready. */
  ghost function Exhaustive(keys: set<string>, edges: seq<Edge>, rounds: seq<seq<string>>): (n: nat)
    ensures n <= |rounds|
  {
    if rounds == [] then 0
    else
      var init := rounds[..|rounds| - 1];
      Exhaustive(keys, edges, init) +
      if SetOf(rounds[|rounds| - 1]) == Ready(keys, edges, Done(init)) then 1 else 0
  }

  lemma {:induction false} LastExhaustive(keys: set<string>, edges: seq<Edge>, rounds: seq<seq<string>>)
    returns (i: nat)
    requires Exhaustive(keys, edges, rounds) > 0
    ensures i < |rounds| && SetOf(rounds[i]) == Ready(keys, edges, Done(rounds[..i]))
    ensures Exhaustive(keys, edges, rounds[..i]) == Exhaustive(keys, edges, rounds) - 1
    decreases |rounds|
  {
    var init := rounds[..|rounds| - 1];
    if SetOf(rounds[|rounds| - 1]) == Ready(keys, edges, Done(init)) {
      i := |rounds| - 1;
    } else {
      i := LastExhaustive(keys, edges, init);
      assert init[..i] == rounds[..i];
    }
  }

  lemma {:induction false} ExhaustiveMonotone(keys: set<string>, edges: seq<Edge>, rounds: seq<seq<string>>, i: nat,
                                              j: nat)
    requires i <= j <= |rounds|
    ensures Exhaustive(keys, edges, rounds[..i]) <= Exhaustive(keys, edges, rounds[..j])
    decreases j
  {
    if i < j {
      assert rounds[..j][..j - 1] == rounds[..j - 1];
      ExhaustiveMonotone(keys, edges, rounds, i, j - 1);
    }
  }

  /** A key scheduled after n exhaustive rounds heads a dependency chain of more than n keys. */
  lemma {:induction false} LongChain(keys: set<string>, edges: seq<Edge>, names: map<string, string>, size: int,
                                     rounds: seq<seq<string>>, j: nat, k: string) returns (c: seq<string>)
    requires keys <= names.Keys && GreedyRounds(keys, edges, names, size, rounds)
    requires j < |rounds| && k in rounds[j]
    ensures Chain(edges, c) && c[0] == k && |c| > Exhaustive(keys, edges, rounds[..j])
    decreases j
  {
    c := [k];
    if Exhaustive(keys, edges, rounds[..j]) > 0 {
      var i := LastExhaustive(keys, edges, rounds[..j]);
      assert rounds[..j][..i] == rounds[..i] && rounds[..j][i] == rounds[i];
      RoundAt(keys, edges, names, size, rounds, j);
      assert k in SetOf(rounds[j]);
      assert k !in Done(rounds[..i]) by { DoneMonotone(rounds, i, j); }
      assert k !in SetOf(rounds[i]) by { InDone(rounds, i, j, k); }
      var e :| e in edges && e.dependent == k && e.dependency !in Done(rounds[..i]);
      assert e.dependency in Done(rounds[..j]);
      var m: nat :| m < j && e.dependency in rounds[..j][m];
      assert i <= m by { InDone(rounds, m, i, e.dependency); }
      ExhaustiveMonotone(keys, edges, rounds, i, m);
      var rest := LongChain(keys, edges, names, size, rounds, m, e.dependency);
      c := [k] + rest;
      assert forall n {:trigger c[n]} :: 0 < n < |c| ==> c[n] == rest[n - 1];
      assert Edge(c[0 + 1], c[0]) in edges;
    }
  }

  lemma {:induction false} UnboundedIsExhaustive(keys: set<string>, edges: seq<Edge>, names: map<string, string>,
      size: int, rounds: seq<seq<string>>)
    requires keys <= names.Keys && GreedyRounds(keys, edges, names, size, rounds) && Unbounded(size, keys)
    ensures Exhaustive(keys, edges, rounds) == |rounds|
    decreases |rounds|
  {
    if rounds != [] {
      var n := |rounds| - 1;
      GreedyPrefix(keys, edges, names, size, rounds, n);
      UnboundedIsExhaustive(keys, edges, names, size, rounds[..n]);
      RoundAt(keys, edges, names, size, rounds, n);
      SubsetSize(Ready(keys, edges, Done(rounds[..n])), keys);
    }
  }

  /**
   * Without a size bound, a key's round (counting from 1) is the number of keys on its longest
   * dependency chain.
   */
  lemma {:induction false} RoundIsLongestChain(keys: set<string>, edges: seq<Edge>, names: map<string, string>,
                                               size: int, rounds: seq<seq<string>>, j: nat, k: string)
    requires keys <= names.Keys && GreedyRounds(keys, edges, names, size, rounds) && Done(rounds) == keys
    requires Unbounded(size, keys) && j < |rounds| && k in rounds[j]
    ensures exists c :: Chain(edges, c) && c[0] == k && |c| == j + 1
    ensures forall c :: Chain(edges, c) && c[0] == k ==> |c| <= j + 1
  {
    GreedyIsValid(keys, edges, names, size, rounds);
    forall c | Chain(edges, c) && c[0] == k ensures |c| <= j + 1 {
      var _ := ChainDescends(keys, edges, rounds, c, j);
    }
    GreedyPrefix(keys, edges, names, size, rounds, j);
    UnboundedIsExhaustive(keys, edges, names, size, rounds[..j]);
    var c := LongChain(keys, edges, names, size, rounds, j, k);
  }

  lemma {:induction false} ChainBoundsSchedule(keys: set<string>, edges: seq<Edge>, other: seq<seq<string>>,
                                               c: seq<string>)
    requires ValidSchedule(keys, edges, other) && Chain(edges, c) && c[0] in keys
    ensures |c| <= |other|
  {
    var j :| 0 <= j < |other| && c[0] in other[j];
    var _ := ChainDescends(keys, edges, other, c, j);
  }

  /** The exhaustive rounds alone number no more than the rounds of any order-respecting schedule. */
  lemma {:induction false} ExhaustiveBound(keys: set<string>, edges: seq<Edge>, names: map<string, string>, size: int,
                                           rounds: seq<seq<string>>, other: seq<seq<string>>)
    requires keys <= names.Keys && GreedyRounds(keys, edges, names, size, rounds) && Done(rounds) == keys
    requires ValidSchedule(keys, edges, other)
    ensures Exhaustive(keys, edges, rounds) <= |other|
  {
    if rounds != [] {
      var n := |rounds| - 1;
      RoundShape(keys, edges, names, size, rounds, n);
      var c := LongChain(keys, edges, names, size, rounds, n, rounds[n][0]);
      assert c[0] in Done(rounds);
      ChainBoundsSchedule(keys, edges, other, c);
    }
  }

  /** Without a size bound no order-respecting schedule has fewer waves. */
  lemma {:induction false} FewestRounds(keys: set<string>, edges: seq<Edge>, names: map<string, string>, size: int,
                                        rounds: seq<seq<string>>, other: seq<seq<string>>)
    requires keys <= names.Keys && GreedyRounds(keys, edges, names, size, rounds) && Done(rounds) == keys
    requires Unbounded(size, keys) && ValidSchedule(keys, edges, other)
    ensures |rounds| <= |other|
  {
    UnboundedIsExhaustive(keys, edges, names, size, rounds);
    ExhaustiveBound(keys, edges, names, size, rounds, other);
  }

  /** size * n, unfolded one round at a time. */
  ghost function Times(size: nat, n: nat): nat {
    if n == 0 then 0 else Times(size, n - 1) + size
  }

  lemma {:induction false} TimesMonotone(size: nat, a: nat, b: nat)
    requires size > 0
    ensures a < b ==> Times(size, a) < Times(size, b)
  {
    if a < b {
      TimesMonotone(size, a, b - 1);
    }
  }

  /** Every round adds its own keys to what is done. */
  lemma {:induction false} DoneSize(keys: set<string>, edges: seq<Edge>, names: map<string, string>, size: int,
                                    rounds: seq<seq<string>>, n: nat)
    requires keys <= names.Keys && GreedyRounds(keys, edges, names, size, rounds) && n + 1 == |rounds|
    ensures |Done(rounds)| == |Done(rounds[..n])| + |rounds[n]|
  {
    RoundShape(keys, edges, names, size, rounds, n);
    DoneUnfold(rounds);
  }

  /** The rounds that left a ready key behind are full, so together they hold `size` keys each. */
  lemma {:induction false} FullRoundsCount(keys: set<string>, edges: seq<Edge>, names: map<string, string>, size: nat,
                                           rounds: seq<seq<string>>)
    requires keys <= names.Keys && GreedyRounds(keys, edges, names, size, rounds)
    ensures Times(size, |rounds| - Exhaustive(keys, edges, rounds)) <= |Done(rounds)|
    decreases |rounds|
  {
    if rounds != [] {
      var n := |rounds| - 1;
      GreedyPrefix(keys, edges, names, size, rounds, n);
      FullRoundsCount(keys, edges, names, size, rounds[..n]);
      FullOrExhaustive(keys, edges, names, size, rounds, n);
      TimesStep(size, n - Exhaustive(keys, edges, rounds[..n]), |Done(rounds[..n])|, |rounds[n]|);
    }
  }

  /** The last round is exhaustive or full. */
  lemma {:induction false} FullOrExhaustive(keys: set<string>, edges: seq<Edge>, names: map<string, string>,
                                            size: nat, rounds: seq<seq<string>>, n: nat)
    requires keys <= names.Keys && GreedyRounds(keys, edges, names, size, rounds) && n + 1 == |rounds|
    ensures |Done(rounds)| == |Done(rounds[..n])| + |rounds[n]|
    ensures var before := Exhaustive(keys, edges, rounds[..n]);
            Exhaustive(keys, edges, rounds) == before + 1 ||
                (Exhaustive(keys, edges, rounds) == before && |rounds[n]| == size)
  {
    RoundShape(keys, edges, names, size, rounds, n);
    DoneSize(keys, edges, names, size, rounds, n);
  }

  lemma {:induction false} TimesStep(size: nat, full: nat, done: nat, more: nat)
    requires Times(size, full) <= done
    ensures Times(size, full) <= done + more
    ensures more == size ==> Times(size, full + 1) <= done + more
  {
  }

  lemma {:induction false} CapacityBound(size: nat, rounds: seq<seq<string>>)
    requires forall i :: 0 <= i < |rounds| ==> |rounds[i]| <= size
    ensures |Done(rounds)| <= Times(size, |rounds|)
  {
    if rounds != [] {
      var n := |rounds| - 1;
      CapacityBound(size, rounds[..n]);
      DoneUnfold(rounds);
      assert |Done(rounds)| <= |Done(rounds[..n])| + |SetOf(rounds[n])|;
      SetOfSize(rounds[n]);
    }
  }

  /**
   * With waves bounded by `size`, the greedy plan uses at most twice as many waves as any
   * order-respecting plan whose waves obey the same bound.
   */
  lemma {:induction false} WithinTwiceOptimal(keys: set<string>, edges: seq<Edge>, names: map<string, string>,
                                              size: int, rounds: seq<seq<string>>, other: seq<seq<string>>)
    requires keys <= names.Keys && GreedyRounds(keys, edges, names, size, rounds) && Done(rounds) == keys
    requires size > 0 && ValidSchedule(keys, edges, other)
    requires forall i :: 0 <= i < |other| ==> |other[i]| <= size
    ensures |rounds| <= 2 * |other|
  {
    var exhaustive := Exhaustive(keys, edges, rounds);
    ExhaustiveBound(keys, edges, names, size, rounds, other);
    FullRoundsCount(keys, edges, names, size, rounds);
    CapacityBound(size, other);
    AtMostTwice(size, |rounds|, exhaustive, |other|);
  }

  lemma {:induction false} AtMostTwice(size: nat, rounds: nat, exhaustive: nat, other: nat)
    requires size > 0 && exhaustive <= rounds && exhaustive <= other
    requires Times(size, rounds - exhaustive) <= Times(size, other)
    ensures rounds <= 2 * other
  {
    TimesMonotone(size, other, rounds - exhaustive);
  }
}
