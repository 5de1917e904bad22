/**
 Giving ranked leaders their slots without moving the ones that keep theirs.  Nothing depends on which
 slots there are, so their type `S` is a parameter.
 */
module LeaderSlots {
  import opened RateTables

  datatype SlotError = InvalidInputs | DuplicateIncumbent

  type Assignment<S> = seq<(S, string)>

  // ---------------------------------------------------------------- elements

  function Elements<T(==)>(q: seq<T>): set<T> {
    set x | x in q
  }

  ghost predicate NoRepeats<T>(q: seq<T>) {
    forall i, j :: 0 <= i < j < |q| ==> q[i] != q[j]
  }

  /** Comparing sizes detects repeats. */
  lemma {:induction false} SizeDetectsRepeats<T>(q: seq<T>)
    ensures |Elements(q)| <= |q|
    ensures |Elements(q)| == |q| <==> NoRepeats(q)
  {
    if q != [] {
      var init, last := q[..|q| - 1], q[|q| - 1];
      SizeDetectsRepeats(init);
      assert Elements(q) == Elements(init) + {last};
      if last in init {
        var k :| 0 <= k < |init| && init[k] == last;
        assert q[k] == q[|q| - 1];
      }
    }
  }

  // ---------------------------------------------------------------- inputs

  predicate ValidInputs<S(==)>(targets: seq<S>, ranked: seq<string>) {
    && targets != [] && |ranked| == |targets|
    && |Elements(targets)| == |targets| && |Elements(ranked)| == |ranked|
    && forall k :: 0 <= k < |ranked| ==> ranked[k] != ""
  }

  function Incumbents<S(==)>(targets: seq<S>, current: map<S, string>): seq<string> {
    if targets == [] then []
    else (if targets[0] in current then [current[targets[0]]] else []) + Incumbents(targets[1..], current)
  }

  predicate SingleIncumbents<S(==)>(targets: seq<S>, current: map<S, string>) {
    |Elements(Incumbents(targets, current))| == |Incumbents(targets, current)|
  }

  predicate Accepted<S(==)>(targets: seq<S>, ranked: seq<string>, current: map<S, string>) {
    ValidInputs(targets, ranked) && SingleIncumbents(targets, current)
  }

  lemma {:induction false} IncumbentsHold<S>(targets: seq<S>, current: map<S, string>, k: nat)
    requires k < |targets| && targets[k] in current
    ensures current[targets[k]] in Incumbents(targets, current)
  {
    if k > 0 {
      IncumbentsHold(targets[1..], current, k - 1);
    }
  }

  /** No leader holds two of the target slots. */
  lemma {:induction false} IncumbentsDiffer<S>(targets: seq<S>, current: map<S, string>, i: nat, j: nat)
    requires NoRepeats(Incumbents(targets, current))
    requires i < j < |targets| && targets[i] in current && targets[j] in current
    ensures current[targets[i]] != current[targets[j]]
  {
    var all, rest := Incumbents(targets, current), Incumbents(targets[1..], current);
    var skip := |all| - |rest|;
    assert forall a :: 0 <= a < |rest| ==> rest[a] == all[a + skip];
    if i == 0 {
      IncumbentsHold(targets[1..], current, j - 1);
      var k :| 0 <= k < |rest| && rest[k] == current[targets[j]];
      assert all[k + skip] != all[0];
    } else {
      IncumbentsDiffer(targets[1..], current, i - 1, j - 1);
    }
  }

  lemma {:induction false} DifferentIncumbents<S>(targets: seq<S>, current: map<S, string>)
    requires forall i, j :: 0 <= i < j < |targets| && targets[i] in current && targets[j] in current ==>
      current[targets[i]] != current[targets[j]]
    ensures NoRepeats(Incumbents(targets, current))
  {
    if targets != [] {
      DifferentIncumbents(targets[1..], current);
      var rest := Incumbents(targets[1..], current);
      forall k | 0 <= k < |rest| && targets[0] in current ensures rest[k] != current[targets[0]] {
        var j := IncumbentOf(targets[1..], current, k);
        assert targets[1..][j] == targets[j + 1];
      }
    }
  }

  lemma {:induction false} IncumbentOf<S>(targets: seq<S>, current: map<S, string>, k: nat) returns (j: nat)
    requires k < |Incumbents(targets, current)|
    ensures j < |targets| && targets[j] in current && Incumbents(targets, current)[k] == current[targets[j]]
  {
    if targets[0] in current && k == 0 {
      j := 0;
    } else {
      j := IncumbentOf(targets[1..], current, if targets[0] in current then k - 1 else k);
      j := j + 1;
    }
  }

  /** The inputs that are taken: as many different named leaders as different slots, and no leader in two of them. */
  lemma AcceptedIff<S>(targets: seq<S>, ranked: seq<string>, current: map<S, string>)
    ensures ValidInputs(targets, ranked) <==>
      && targets != [] && |ranked| == |targets| && NoRepeats(targets) && NoRepeats(ranked)
      && forall k :: 0 <= k < |ranked| ==> ranked[k] != ""
    ensures SingleIncumbents(targets, current) <==>
      forall i, j :: 0 <= i < j < |targets| && targets[i] in current && targets[j] in current ==>
        current[targets[i]] != current[targets[j]]
  {
    SizeDetectsRepeats(targets);
    SizeDetectsRepeats(ranked);
    SizeDetectsRepeats(Incumbents(targets, current));
    if NoRepeats(Incumbents(targets, current)) {
      forall i, j | 0 <= i < j < |targets| && targets[i] in current && targets[j] in current
        ensures current[targets[i]] != current[targets[j]]
      {
        IncumbentsDiffer(targets, current, i, j);
      }
    } else if forall i, j :: 0 <= i < j < |targets| && targets[i] in current && targets[j] in current ==>
                current[targets[i]] != current[targets[j]] {
      DifferentIncumbents(targets, current);
    }
  }

  // ---------------------------------------------------------------- specification

  /** The reselected incumbents, in their slots. */
  function Kept<S(==)>(targets: seq<S>, ranked: seq<string>, current: map<S, string>): map<S, string> {
    map slot | slot in targets && slot in current && current[slot] in ranked :: current[slot]
  }

  function Newcomers(ranked: seq<string>, preserved: set<string>): seq<string> {
    if ranked == [] then []
    else (if ranked[0] in preserved then [] else [ranked[0]]) + Newcomers(ranked[1..], preserved)
  }

  /** How many of these slots are vacated. */
  function Vacancies<S(==)>(targets: seq<S>, kept: map<S, string>): nat {
    if targets == [] then 0
    else Vacancies(targets[..|targets| - 1], kept) + if targets[|targets| - 1] in kept then 0 else 1
  }

  /** The leader of the k-th slot: its incumbent, or the next newcomer in rank order. */
  function LeaderOf<S(==)>(targets: seq<S>, kept: map<S, string>, newcomers: seq<string>, k: nat): string
    requires k < |targets|
  {
    if targets[k] in kept then kept[targets[k]]
    else if Vacancies(targets[..k], kept) < |newcomers| then newcomers[Vacancies(targets[..k], kept)]
    else ""
  }

  lemma {:induction false} VacanciesGrow<S>(targets: seq<S>, kept: map<S, string>, i: nat, j: nat)
    requires i <= j <= |targets|
    ensures Vacancies(targets[..i], kept) <= Vacancies(targets[..j], kept)
    ensures i < j && targets[i] !in kept ==> Vacancies(targets[..i], kept) < Vacancies(targets[..j], kept)
    decreases j - i
  {
    if i < j {
      assert targets[..j][..j - 1] == targets[..j - 1];
      VacanciesGrow(targets, kept, i, j - 1);
    }
  }

  lemma {:induction false} NewcomersAre(ranked: seq<string>, preserved: set<string>)
    requires NoRepeats(ranked)
    ensures NoRepeats(Newcomers(ranked, preserved))
    ensures Elements(Newcomers(ranked, preserved)) == Elements(ranked) - preserved
  {
    if ranked != [] {
      var rest := Newcomers(ranked[1..], preserved);
      NewcomersAre(ranked[1..], preserved);
      forall k | 0 <= k < |rest| ensures rest[k] != ranked[0] {
        assert rest[k] in Elements(rest);
      }
      assert Elements(ranked) == {ranked[0]} + Elements(ranked[1..]);
      assert Elements([ranked[0]] + rest) == {ranked[0]} + Elements(rest);
    }
  }

  lemma ElementsOfLast<S>(q: seq<S>)
    requires q != []
    ensures Elements(q) == Elements(q[..|q| - 1]) + {q[|q| - 1]}
  {
  }

  lemma OneMoreElement<S>(a: set<S>, x: S, without: set<S>)
    requires x !in a
    ensures |(a + {x}) - without| == |a - without| + if x in without then 0 else 1
  {
    if x in without {
      assert (a + {x}) - without == a - without;
    } else {
      assert (a + {x}) - without == (a - without) + {x};
    }
  }

  lemma {:induction false} VacanciesCount<S>(targets: seq<S>, kept: map<S, string>)
    requires NoRepeats(targets)
    ensures Vacancies(targets, kept) == |Elements(targets) - kept.Keys|
  {
    if targets == [] {
      assert Elements(targets) - kept.Keys == {};
    } else {
      var init, last := targets[..|targets| - 1], targets[|targets| - 1];
      VacanciesCount(init, kept);
      assert last !in Elements(init);
      OneMoreElement(Elements(init), last, kept.Keys);
      ElementsOfLast(targets);
    }
  }

  lemma {:induction false} InjectiveSizes<S>(m: map<S, string>)
    requires forall a, b :: a in m && b in m && a != b ==> m[a] != m[b]
    ensures |m.Values| == |m.Keys|
    decreases |m|
  {
    if m.Keys == {} {
      assert m.Values == {};
    } else {
      var a :| a in m;
      var rest := map b | b in m && b != a :: m[b];
      assert rest.Keys == m.Keys - {a};
      InjectiveSizes(rest);
      forall v | v in m.Values ensures v == m[a] || v in rest.Values {
        var b :| b in m && m[b] == v;
        assert b != a ==> b in rest;
      }
      assert m.Values == rest.Values + {m[a]};
    }
  }

  lemma KeptIsInjective<S>(targets: seq<S>, ranked: seq<string>, current: map<S, string>)
    requires Accepted(targets, ranked, current)
    ensures var kept := Kept(targets, ranked, current);
      forall a, b :: a in kept && b in kept && a != b ==> kept[a] != kept[b]
  {
    var kept := Kept(targets, ranked, current);
    SizeDetectsRepeats(Incumbents(targets, current));
    forall a, b | a in kept && b in kept && a != b ensures kept[a] != kept[b] {
      var i :| 0 <= i < |targets| && targets[i] == a;
      var j :| 0 <= j < |targets| && targets[j] == b;
      if i < j {
        IncumbentsDiffer(targets, current, i, j);
      } else {
        IncumbentsDiffer(targets, current, j, i);
      }
    }
  }

  /** There are exactly as many newcomers as vacated slots: the iterator never runs dry, and ends used up. */
  lemma NewcomersFillVacancies<S>(targets: seq<S>, ranked: seq<string>, current: map<S, string>)
    requires Accepted(targets, ranked, current)
    ensures var kept := Kept(targets, ranked, current);
      |Newcomers(ranked, kept.Values)| == Vacancies(targets, kept)
  {
    var kept := Kept(targets, ranked, current);
    var newcomers := Newcomers(ranked, kept.Values);
    SizeDetectsRepeats(targets);
    SizeDetectsRepeats(ranked);
    NewcomersAre(ranked, kept.Values);
    SizeDetectsRepeats(newcomers);
    VacanciesCount(targets, kept);
    KeptIsInjective(targets, ranked, current);
    InjectiveSizes(kept);
    assert kept.Keys <= Elements(targets) && kept.Values <= Elements(ranked);
  }

  /** The assignment as a whole. */
  function Stable<S(==)>(targets: seq<S>, ranked: seq<string>, current: map<S, string>): Assignment<S>
    requires Accepted(targets, ranked, current)
  {
    var kept := Kept(targets, ranked, current);
    var newcomers := Newcomers(ranked, kept.Values);
    seq(|targets|, k requires 0 <= k < |targets| => (targets[k], LeaderOf(targets, kept, newcomers, k)))
  }

  // ---------------------------------------------------------------- the operation

  lemma NextVacancy<S>(targets: seq<S>, kept: map<S, string>, i: nat)
    requires i < |targets|
    ensures Vacancies(targets[..i + 1], kept) == Vacancies(targets[..i], kept) + if targets[i] in kept then 0 else 1
    ensures targets[i] !in kept ==> Vacancies(targets[..i], kept) < Vacancies(targets, kept)
  {
    assert targets[..i + 1][..i] == targets[..i];
    VacanciesGrow(targets, kept, i, |targets|);
    assert targets[..|targets|] == targets;
  }

  /** Walk the slots, taking the next newcomer for each that has no leader yet. */
  method FillVacancies<S(==)>(targets: seq<S>, kept: map<S, string>, newcomers: seq<string>)
    returns (filled: map<S, string>)
    requires NoRepeats(targets) && |newcomers| == Vacancies(targets, kept)
    ensures forall k :: 0 <= k < |targets| ==>
      targets[k] in filled && filled[targets[k]] == LeaderOf(targets, kept, newcomers, k)
  {
    filled := kept;
    var next := 0;
    for i := 0 to |targets|
      invariant next == Vacancies(targets[..i], kept)
      invariant forall k :: i <= k < |targets| ==> (targets[k] in filled <==> targets[k] in kept)
      invariant forall k :: i <= k < |targets| && targets[k] in kept ==> filled[targets[k]] == kept[targets[k]]
      invariant forall k :: 0 <= k < i ==>
        targets[k] in filled && filled[targets[k]] == LeaderOf(targets, kept, newcomers, k)
    {
      NextVacancy(targets, kept, i);
      if targets[i] !in filled {
        filled := filled[targets[i] := newcomers[next]];
        next := next + 1;
      }
    }
  }

  method StableSlotAssignments<S(==)>(targets: seq<S>, ranked: seq<string>, current: map<S, string>)
    returns (r: Result<Assignment<S>, SlotError>)
    ensures r == if !ValidInputs(targets, ranked) then Failure(InvalidInputs)
                 else if !SingleIncumbents(targets, current) then Failure(DuplicateIncumbent)
                 else Success(Stable(targets, ranked, current))
  {
    if !ValidInputs(targets, ranked) {
      return Failure(InvalidInputs);
    }
    if !SingleIncumbents(targets, current) {
      return Failure(DuplicateIncumbent);
    }
    var kept := Kept(targets, ranked, current);
    NewcomersFillVacancies(targets, ranked, current);
    SizeDetectsRepeats(targets);
    var filled := FillVacancies(targets, kept, Newcomers(ranked, kept.Values));
    var result := seq(|targets|, k requires 0 <= k < |targets| && targets[k] in filled =>
      (targets[k], filled[targets[k]]));
    assert result == Stable(targets, ranked, current);
    return Success(result);
  }

  // ---------------------------------------------------------------- what it promises

  function LeadersOf<S(==)>(a: Assignment<S>): seq<string> {
    seq(|a|, k requires 0 <= k < |a| => a[k].1)
  }

  /** Every reselected incumbent stays where it is. */
  lemma IncumbentsStay<S>(targets: seq<S>, ranked: seq<string>, current: map<S, string>, k: nat)
    requires Accepted(targets, ranked, current) && k < |targets|
    requires targets[k] in current && current[targets[k]] in ranked
    ensures Stable(targets, ranked, current)[k] == (targets[k], current[targets[k]])
  {
  }

  lemma LeaderKinds<S>(targets: seq<S>, ranked: seq<string>, current: map<S, string>, k: nat)
    requires Accepted(targets, ranked, current) && k < |targets|
    ensures var kept := Kept(targets, ranked, current);
      var leader := Stable(targets, ranked, current)[k].1;
      leader in ranked && (targets[k] in kept <==> leader in kept.Values)
  {
    var kept := Kept(targets, ranked, current);
    var newcomers := Newcomers(ranked, kept.Values);
    SizeDetectsRepeats(ranked);
    NewcomersAre(ranked, kept.Values);
    if targets[k] !in kept {
      NewcomersFillVacancies(targets, ranked, current);
      VacanciesGrow(targets, kept, k, |targets|);
      assert targets[..|targets|] == targets;
      assert Stable(targets, ranked, current)[k].1 in Elements(newcomers);
    }
  }

  lemma LeadersDiffer<S>(targets: seq<S>, ranked: seq<string>, current: map<S, string>, i: nat, j: nat)
    requires Accepted(targets, ranked, current) && i < j < |targets|
    ensures Stable(targets, ranked, current)[i].1 != Stable(targets, ranked, current)[j].1
  {
    var kept := Kept(targets, ranked, current);
    LeaderKinds(targets, ranked, current, i);
    LeaderKinds(targets, ranked, current, j);
    SizeDetectsRepeats(targets);
    if targets[i] in kept && targets[j] in kept {
      KeptIsInjective(targets, ranked, current);
    } else if targets[i] !in kept && targets[j] !in kept {
      SizeDetectsRepeats(ranked);
      NewcomersAre(ranked, kept.Values);
      NewcomersFillVacancies(targets, ranked, current);
      VacanciesGrow(targets, kept, i, j);
      VacanciesGrow(targets, kept, j, |targets|);
      assert targets[..|targets|] == targets;
    }
  }

  /** Target slots and ranked leaders correspond one to one. */
  lemma AssignmentIsBijection<S>(targets: seq<S>, ranked: seq<string>, current: map<S, string>)
    requires Accepted(targets, ranked, current)
    ensures var a := Stable(targets, ranked, current);
      && |a| == |targets| && (forall k :: 0 <= k < |a| ==> a[k].0 == targets[k])
      && NoRepeats(targets) && NoRepeats(LeadersOf(a)) && Elements(LeadersOf(a)) == Elements(ranked)
  {
    var a := Stable(targets, ranked, current);
    var leaders := LeadersOf(a);
    SizeDetectsRepeats(targets);
    forall i, j | 0 <= i < j < |leaders| ensures leaders[i] != leaders[j] {
      LeadersDiffer(targets, ranked, current, i, j);
    }
    SizeDetectsRepeats(leaders);
    forall k | 0 <= k < |leaders| ensures leaders[k] in ranked {
      LeaderKinds(targets, ranked, current, k);
    }
    assert Elements(leaders) <= Elements(ranked);
    SubsetOfSameSize(Elements(leaders), Elements(ranked));
  }

  lemma SubsetOfSameSize(a: set<string>, b: set<string>)
    requires a <= b && |a| == |b|
    ensures a == b
  {
    assert |b - a| == 0;
  }

  lemma {:induction false} NewcomersKeepRank(ranked: seq<string>, preserved: set<string>, p: nat, q: nat)
    returns (i: nat, j: nat)
    requires p < q < |Newcomers(ranked, preserved)|
    ensures i < j < |ranked| && ranked[i] == Newcomers(ranked, preserved)[p]
      && ranked[j] == Newcomers(ranked, preserved)[q]
  {
    var rest := Newcomers(ranked[1..], preserved);
    if ranked[0] in preserved {
      i, j := NewcomersKeepRank(ranked[1..], preserved, p, q);
      i, j := i + 1, j + 1;
    } else if p > 0 {
      i, j := NewcomersKeepRank(ranked[1..], preserved, p - 1, q - 1);
      i, j := i + 1, j + 1;
    } else {
      assert rest[q - 1] in rest;
      j := NewcomerRank(ranked[1..], preserved, q - 1);
      i, j := 0, j + 1;
    }
  }

  lemma {:induction false} NewcomerRank(ranked: seq<string>, preserved: set<string>, q: nat) returns (j: nat)
    requires q < |Newcomers(ranked, preserved)|
    ensures j < |ranked| && ranked[j] == Newcomers(ranked, preserved)[q]
  {
    if ranked[0] in preserved {
      j := NewcomerRank(ranked[1..], preserved, q);
      j := j + 1;
    } else if q > 0 {
      j := NewcomerRank(ranked[1..], preserved, q - 1);
      j := j + 1;
    } else {
      j := 0;
    }
  }

  /** Of two vacated slots the earlier gets the better ranked newcomer. */
  lemma NewcomersInRankOrder<S>(targets: seq<S>, ranked: seq<string>, current: map<S, string>, a: nat, b: nat)
    returns (i: nat, j: nat)
    requires Accepted(targets, ranked, current) && a < b < |targets|
    requires targets[a] !in Kept(targets, ranked, current) && targets[b] !in Kept(targets, ranked, current)
    ensures i < j < |ranked|
    ensures Stable(targets, ranked, current)[a].1 == ranked[i] && Stable(targets, ranked, current)[b].1 == ranked[j]
  {
    var kept := Kept(targets, ranked, current);
    NewcomersFillVacancies(targets, ranked, current);
    VacanciesGrow(targets, kept, a, b);
    VacanciesGrow(targets, kept, b, |targets|);
    assert targets[..|targets|] == targets;
    i, j := NewcomersKeepRank(ranked, kept.Values, Vacancies(targets[..a], kept), Vacancies(targets[..b], kept));
  }

  /** `current` records exactly this assignment on its slots. */
  ghost predicate Records<S>(current: map<S, string>, a: Assignment<S>) {
    forall k :: 0 <= k < |a| ==> a[k].0 in current && current[a[k].0] == a[k].1
  }

  lemma {:induction false} IncumbentsOfRecord<S>(current: map<S, string>, targets: seq<S>, a: Assignment<S>)
    requires |a| == |targets| && (forall k :: 0 <= k < |a| ==> a[k].0 == targets[k]) && Records(current, a)
    ensures Incumbents(targets, current) == LeadersOf(a)
    decreases |a|
  {
    if a != [] {
      assert forall k :: 0 <= k < |a[1..]| ==> a[1..][k] == a[k + 1];
      IncumbentsOfRecord(current, targets[1..], a[1..]);
      assert LeadersOf(a) == [a[0].1] + LeadersOf(a[1..]);
    }
  }

  /** Once assigned, reselecting the same leaders in any order whatever changes nothing. */
  lemma RerankingNeverSwaps<S>(targets: seq<S>, ranked: seq<string>, current: map<S, string>,
                            reranked: seq<string>, stored: map<S, string>)
    requires Accepted(targets, ranked, current) && Records(stored, Stable(targets, ranked, current))
    requires ValidInputs(targets, reranked) && Elements(reranked) == Elements(ranked)
    ensures Accepted(targets, reranked, stored)
    ensures Stable(targets, reranked, stored) == Stable(targets, ranked, current)
  {
    var a := Stable(targets, ranked, current);
    AssignmentIsBijection(targets, ranked, current);
    IncumbentsOfRecord(stored, targets, a);
    SizeDetectsRepeats(LeadersOf(a));
    forall k | 0 <= k < |targets| ensures Stable(targets, reranked, stored)[k] == a[k] {
      LeaderKinds(targets, ranked, current, k);
      assert a[k].1 in Elements(reranked);
      IncumbentsStay(targets, reranked, stored, k);
    }
  }
}
