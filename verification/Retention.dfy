/** Planning which archived files to delete locally: only remotely verified ones, oldest first. */
module Retention {

  /** `modified` and `now` are instants, `maximumAge` a duration, in the same unit. */
  datatype Candidate = Candidate(path: string, size: int, modified: int)

  // ---------------------------------------------------------------- order

  predicate PathLeq(a: string, b: string) {
    a == [] || (b != [] && (a[0] < b[0] || (a[0] == b[0] && PathLeq(a[1..], b[1..]))))
  }

  /** By age, then by path. */
  predicate Before(a: Candidate, b: Candidate) {
    a.modified < b.modified || (a.modified == b.modified && PathLeq(a.path, b.path))
  }

  function Insert(x: Candidate, q: seq<Candidate>): seq<Candidate> {
    if q == [] then [x] else if Before(x, q[0]) then [x] + q else [q[0]] + Insert(x, q[1..])
  }

  function Sort(q: seq<Candidate>): seq<Candidate> {
    if q == [] then [] else Insert(q[0], Sort(q[1..]))
  }

  ghost predicate Sorted(q: seq<Candidate>) {
    forall i, j :: 0 <= i < j < |q| ==> Before(q[i], q[j])
  }

  lemma {:induction false} PathTotal(a: string, b: string)
    ensures PathLeq(a, b) || PathLeq(b, a)
  {
    if a != [] && b != [] && a[0] == b[0] {
      PathTotal(a[1..], b[1..]);
    }
  }

  lemma {:induction false} PathTransitive(a: string, b: string, c: string)
    requires PathLeq(a, b) && PathLeq(b, c)
    ensures PathLeq(a, c)
  {
    if a != [] && a[0] == b[0] && b[0] == c[0] {
      PathTransitive(a[1..], b[1..], c[1..]);
    }
  }

  /** One path comes no later than another exactly if it is a prefix or smaller at the first difference. */
  lemma {:induction false} PathLeqIs(a: string, b: string)
    ensures PathLeq(a, b) <==> a <= b || exists k :: Smaller(a, b, k)
  {
    if a != [] && b != [] && a[0] == b[0] {
      PathLeqIs(a[1..], b[1..]);
      assert a <= b <==> a[1..] <= b[1..];
      forall k | Smaller(a, b, k) ensures Smaller(a[1..], b[1..], k - 1) {
        assert k > 0;
        assert a[1..][..k - 1] == a[..k][1..] && b[1..][..k - 1] == b[..k][1..];
      }
      forall k | Smaller(a[1..], b[1..], k) ensures Smaller(a, b, k + 1) {
        assert a[..k + 1] == [a[0]] + a[1..][..k] && b[..k + 1] == [b[0]] + b[1..][..k];
      }
    } else if a != [] && b != [] {
      assert a[..0] == b[..0];
      assert a[0] < b[0] ==> Smaller(a, b, 0);
      forall k | Smaller(a, b, k) ensures k == 0 {
        AgreeBefore(a, b, k);
      }
    }
  }

  lemma AgreeBefore(a: string, b: string, k: int)
    requires Smaller(a, b, k)
    ensures forall i :: 0 <= i < k ==> a[i] == b[i]
  {
    forall i | 0 <= i < k ensures a[i] == b[i] {
      assert a[..k][i] == b[..k][i];
    }
  }

  /** The first difference is at `k`, and `a` is smaller there. */
  ghost predicate Smaller(a: string, b: string, k: int) {
    0 <= k < |a| && k < |b| && a[..k] == b[..k] && a[k] < b[k]
  }

  /** Older first, and by path among files of the same time. */
  lemma AgeOrderIs(candidates: seq<Candidate>, i: nat, j: nat)
    requires i < j < |Sort(candidates)|
    ensures var a, b := Sort(candidates)[i], Sort(candidates)[j];
      a.modified <= b.modified && (a.modified == b.modified ==> PathLeq(a.path, b.path))
  {
    SortSorts(candidates);
  }

  lemma BeforeTransitive(a: Candidate, b: Candidate, c: Candidate)
    requires Before(a, b) && Before(b, c)
    ensures Before(a, c)
  {
    if a.modified == b.modified && b.modified == c.modified {
      PathTransitive(a.path, b.path, c.path);
    }
  }

  lemma {:induction false} InsertPermutes(x: Candidate, q: seq<Candidate>)
    ensures multiset(Insert(x, q)) == multiset(q) + multiset{x}
  {
    if q != [] && !Before(x, q[0]) {
      InsertPermutes(x, q[1..]);
      MultisetOfNext(q[0], Insert(x, q[1..]));
      MultisetOfNext(q[0], q[1..]);
      assert q == [q[0]] + q[1..];
    }
  }

  lemma MultisetOfNext(c: Candidate, q: seq<Candidate>)
    ensures multiset([c] + q) == multiset{c} + multiset(q)
  {
  }

  lemma {:induction false} InsertSorts(x: Candidate, q: seq<Candidate>)
    requires Sorted(q)
    ensures Sorted(Insert(x, q))
  {
    if q != [] && Before(x, q[0]) {
      forall j | 1 <= j < |q| ensures Before(x, q[j]) {
        BeforeTransitive(x, q[0], q[j]);
      }
    } else if q != [] {
      var rest := Insert(x, q[1..]);
      InsertSorts(x, q[1..]);
      InsertPermutes(x, q[1..]);
      PathTotal(x.path, q[0].path);
      forall j | 0 <= j < |rest| ensures Before(q[0], rest[j]) {
        assert rest[j] in multiset(rest);
      }
    }
  }

  lemma {:induction false} SortSorts(q: seq<Candidate>)
    ensures Sorted(Sort(q)) && multiset(Sort(q)) == multiset(q)
  {
    if q != [] {
      SortSorts(q[1..]);
      InsertSorts(q[0], Sort(q[1..]));
      InsertPermutes(q[0], Sort(q[1..]));
      assert q == [q[0]] + q[1..];
    }
  }

  // ---------------------------------------------------------------- selections

  function Total(q: seq<Candidate>): int {
    if q == [] then 0 else q[0].size + Total(q[1..])
  }

  /** The remotely verified files. */
  function Verified(q: seq<Candidate>, verified: set<string>): seq<Candidate> {
    if q == [] then []
    else if q[0].path in verified then [q[0]] + Verified(q[1..], verified)
    else Verified(q[1..], verified)
  }

  /** The verified files last modified before the cutoff. */
  function OverAge(q: seq<Candidate>, verified: set<string>, cutoff: int): seq<Candidate> {
    if q == [] then []
    else if q[0].modified < cutoff && q[0].path in verified then [q[0]] + OverAge(q[1..], verified, cutoff)
    else OverAge(q[1..], verified, cutoff)
  }

  function Paths(q: seq<Candidate>): set<string> {
    set c | c in q :: c.path
  }

  function TotalExcept(q: seq<Candidate>, chosen: set<string>): int {
    if q == [] then 0 else (if q[0].path !in chosen then q[0].size else 0) + TotalExcept(q[1..], chosen)
  }

  /** What the size pass adds. */
  function Trim(q: seq<Candidate>, verified: set<string>, chosen: set<string>, remaining: int,
                maximum: int): seq<Candidate>
  {
    if q == [] || remaining <= maximum then []
    else if q[0].path in verified && q[0].path !in chosen
    then [q[0]] + Trim(q[1..], verified, chosen + {q[0].path}, remaining - q[0].size, maximum)
    else Trim(q[1..], verified, chosen, remaining, maximum)
  }

  function Plan(candidates: seq<Candidate>, verified: set<string>, cutoff: int, maximum: int): seq<Candidate> {
    var ordered := Sort(candidates);
    var stale := OverAge(ordered, verified, cutoff);
    stale + SizePass(ordered, verified, Paths(stale), maximum)
  }

  /** The size pass after the age pass chose these paths. */
  function SizePass(ordered: seq<Candidate>, verified: set<string>, chosen: set<string>, maximum: int): seq<Candidate> {
    Trim(ordered, verified, chosen, TotalExcept(ordered, chosen), maximum)
  }

  // ---------------------------------------------------------------- the operation

  lemma PathsOfNext(q: seq<Candidate>, c: Candidate, rest: seq<Candidate>)
    ensures Paths(q + [c]) == Paths(q) + {c.path}
    ensures q + ([c] + rest) == (q + [c]) + rest
  {
  }

  /** The age pass. */
  method SelectOverAge(ordered: seq<Candidate>, verified: set<string>, now: int, maximumAge: int)
    returns (selected: seq<Candidate>, paths: set<string>)
    ensures selected == OverAge(ordered, verified, now - maximumAge) && paths == Paths(selected)
  {
    selected, paths := [], {};
    for i := 0 to |ordered|
      invariant OverAge(ordered, verified, now - maximumAge)
        == selected + OverAge(ordered[i..], verified, now - maximumAge)
      invariant paths == Paths(selected)
    {
      if ordered[i].modified < now - maximumAge && ordered[i].path in verified {
        PathsOfNext(selected, ordered[i], OverAge(ordered[i + 1..], verified, now - maximumAge));
        selected := selected + [ordered[i]];
        paths := paths + {ordered[i].path};
      }
      assert ordered[i..][1..] == ordered[i + 1..];
    }
  }

  method PlanVerifiedDeletions(candidates: seq<Candidate>, verified: set<string>, now: int, maximumAge: int,
                               maximumBytes: int)
    returns (selected: seq<Candidate>)
    ensures selected == Plan(candidates, verified, now - maximumAge, maximumBytes)
  {
    var ordered := Sort(candidates);
    var paths;
    selected, paths := SelectOverAge(ordered, verified, now, maximumAge);
    ghost var stale := selected;
    var remaining := TotalExcept(ordered, paths);
    assert ordered[0..] == ordered;
    for i := 0 to |ordered|
      invariant stale + Trim(ordered, verified, Paths(stale), TotalExcept(ordered, Paths(stale)), maximumBytes)
        == selected + Trim(ordered[i..], verified, paths, remaining, maximumBytes)
    {
      if remaining <= maximumBytes {
        break;
      }
      assert ordered[i..][1..] == ordered[i + 1..];
      if ordered[i].path in verified && ordered[i].path !in paths {
        selected := selected + [ordered[i]];
        paths := paths + {ordered[i].path};
        remaining := remaining - ordered[i].size;
      }
    }
  }

  // ---------------------------------------------------------------- what it promises

  /** No verified file at or after the cutoff repeats the path of one listed before it. */
  predicate NoYoungRepeat(q: seq<Candidate>, verified: set<string>, cutoff: int) {
    forall i, j :: 0 <= i < j < |q| && q[j].modified >= cutoff && q[j].path in verified ==> q[i].path != q[j].path
  }

  /** The verified files at or after the cutoff. */
  function Young(q: seq<Candidate>, verified: set<string>, cutoff: int): seq<Candidate> {
    if q == [] then []
    else if q[0].modified >= cutoff && q[0].path in verified then [q[0]] + Young(q[1..], verified, cutoff)
    else Young(q[1..], verified, cutoff)
  }

  /** Take from the front until within the limit. */
  function Greedy(q: seq<Candidate>, remaining: int, maximum: int): seq<Candidate> {
    if q == [] || remaining <= maximum then [] else [q[0]] + Greedy(q[1..], remaining - q[0].size, maximum)
  }

  lemma {:induction false} AllYoung(q: seq<Candidate>, verified: set<string>, cutoff: int)
    requires forall i :: 0 <= i < |q| ==> q[i].modified >= cutoff
    ensures OverAge(q, verified, cutoff) == [] && Young(q, verified, cutoff) == Verified(q, verified)
  {
    if q != [] {
      AllYoung(q[1..], verified, cutoff);
    }
  }

  lemma {:induction false} OldComeFirst(q: seq<Candidate>, verified: set<string>, cutoff: int)
    requires Sorted(q)
    ensures Verified(q, verified) == OverAge(q, verified, cutoff) + Young(q, verified, cutoff)
  {
    if q != [] {
      if q[0].modified >= cutoff {
        forall i | 0 <= i < |q| ensures q[i].modified >= cutoff {
          assert i > 0 ==> Before(q[0], q[i]);
        }
        AllYoung(q, verified, cutoff);
      } else {
        OldComeFirst(q[1..], verified, cutoff);
      }
    }
  }

  lemma {:induction false} OverAgeMembers(q: seq<Candidate>, verified: set<string>, cutoff: int)
    ensures forall c :: c in OverAge(q, verified, cutoff) <==> c in q && c.modified < cutoff && c.path in verified
    ensures forall c :: c in Young(q, verified, cutoff) <==> c in q && c.modified >= cutoff && c.path in verified
  {
    if q != [] {
      OverAgeMembers(q[1..], verified, cutoff);
    }
  }

  /** Without young repeats a path is chosen by the age pass exactly when its file is verified and over age. */
  lemma ChosenIffOld(ordered: seq<Candidate>, verified: set<string>, cutoff: int, k: nat)
    requires Sorted(ordered) && NoYoungRepeat(ordered, verified, cutoff) && k < |ordered|
    ensures ordered[k].path in Paths(OverAge(ordered, verified, cutoff))
            <==> ordered[k].modified < cutoff && ordered[k].path in verified
  {
    OverAgeMembers(ordered, verified, cutoff);
    if ordered[k].path in Paths(OverAge(ordered, verified, cutoff)) {
      var c :| c in OverAge(ordered, verified, cutoff) && c.path == ordered[k].path;
      var i :| 0 <= i < |ordered| && ordered[i] == c;
      assert k < i ==> Before(ordered[k], ordered[i]);
    }
  }

  /** A chosen set that agrees with the age test on `q`. */
  ghost predicate Separates(chosen: set<string>, q: seq<Candidate>, verified: set<string>, cutoff: int) {
    forall k :: 0 <= k < |q| ==> (q[k].path in chosen <==> q[k].modified < cutoff && q[k].path in verified)
  }

  lemma TotalOfNext(c: Candidate, q: seq<Candidate>)
    ensures Total([c] + q) == c.size + Total(q)
  {
    assert ([c] + q)[1..] == q;
  }

  lemma {:induction false} RemainingIsDifference(q: seq<Candidate>, verified: set<string>, cutoff: int,
                                                 chosen: set<string>)
    requires Separates(chosen, q, verified, cutoff)
    ensures TotalExcept(q, chosen) == Total(q) - Total(OverAge(q, verified, cutoff))
  {
    if q != [] {
      RemainingIsDifference(q[1..], verified, cutoff, chosen);
      TotalOfNext(q[0], OverAge(q[1..], verified, cutoff));
    }
  }

  lemma GreedyOfNext(c: Candidate, q: seq<Candidate>, remaining: int, maximum: int)
    requires remaining > maximum
    ensures Greedy([c] + q, remaining, maximum) == [c] + Greedy(q, remaining - c.size, maximum)
  {
    assert ([c] + q)[1..] == q;
  }

  lemma SeparatesRest(chosen: set<string>, q: seq<Candidate>, verified: set<string>, cutoff: int)
    requires q != [] && NoYoungRepeat(q, verified, cutoff) && Separates(chosen, q, verified, cutoff)
    ensures NoYoungRepeat(q[1..], verified, cutoff) && Separates(chosen, q[1..], verified, cutoff)
    ensures q[0].path in verified && q[0].path !in chosen ==> Separates(chosen + {q[0].path}, q[1..], verified, cutoff)
  {
    assert forall k :: 0 <= k < |q[1..]| ==> q[1..][k] == q[k + 1];
  }

  lemma {:induction false} TrimIsGreedy(q: seq<Candidate>, verified: set<string>, cutoff: int, chosen: set<string>,
                                        remaining: int, maximum: int)
    requires NoYoungRepeat(q, verified, cutoff) && Separates(chosen, q, verified, cutoff)
    ensures Trim(q, verified, chosen, remaining, maximum) == Greedy(Young(q, verified, cutoff), remaining, maximum)
    decreases |q|
  {
    if q != [] && remaining > maximum {
      SeparatesRest(chosen, q, verified, cutoff);
      if q[0].path in verified && q[0].path !in chosen {
        TrimIsGreedy(q[1..], verified, cutoff, chosen + {q[0].path}, remaining - q[0].size, maximum);
        GreedyOfNext(q[0], Young(q[1..], verified, cutoff), remaining, maximum);
      } else {
        TrimIsGreedy(q[1..], verified, cutoff, chosen, remaining, maximum);
      }
    }
  }

  lemma {:induction false} GreedyIsShortest(q: seq<Candidate>, remaining: int, maximum: int)
    ensures var g := Greedy(q, remaining, maximum);
      && g <= q && (g == q || remaining - Total(g) <= maximum)
      && forall n :: 0 <= n < |g| ==> remaining - Total(q[..n]) > maximum
    decreases |q|
  {
    var g := Greedy(q, remaining, maximum);
    if g != [] {
      GreedyIsShortest(q[1..], remaining - q[0].size, maximum);
      forall n | 0 <= n < |g| ensures remaining - Total(q[..n]) > maximum {
        assert n > 0 ==> q[..n][1..] == q[1..][..n - 1];
      }
    }
  }

  lemma {:induction false} TotalJoins(a: seq<Candidate>, b: seq<Candidate>)
    ensures Total(a + b) == Total(a) + Total(b)
  {
    if a == [] {
      assert a + b == b;
    } else {
      assert (a + b)[1..] == a[1..] + b;
      TotalJoins(a[1..], b);
    }
  }

  /** Bytes left after deleting the `n` oldest verified files. */
  function RemainingAfter(candidates: seq<Candidate>, verified: set<string>, n: nat): int
    requires n <= |Verified(Sort(candidates), verified)|
  {
    Total(Sort(candidates)) - Total(Verified(Sort(candidates), verified)[..n])
  }

  /** Everything over age, then from the oldest of the rest until within the limit. */
  function GreedyPlan(candidates: seq<Candidate>, stale: seq<Candidate>, young: seq<Candidate>,
                      maximum: int): seq<Candidate>
  {
    stale + Greedy(young, Total(Sort(candidates)) - Total(stale), maximum)
  }

  /** The age pass separates the files by age. */
  lemma AgePassSeparates(ordered: seq<Candidate>, verified: set<string>, cutoff: int)
    requires Sorted(ordered) && NoYoungRepeat(ordered, verified, cutoff)
    ensures Separates(Paths(OverAge(ordered, verified, cutoff)), ordered, verified, cutoff)
  {
    forall k | 0 <= k < |ordered|
      ensures ordered[k].path in Paths(OverAge(ordered, verified, cutoff))
        <==> ordered[k].modified < cutoff && ordered[k].path in verified
    {
      ChosenIffOld(ordered, verified, cutoff, k);
    }
  }

  /** The size pass in closed form. */
  lemma SizePassIsGreedy(ordered: seq<Candidate>, verified: set<string>, cutoff: int, maximum: int)
    requires Sorted(ordered) && NoYoungRepeat(ordered, verified, cutoff)
    ensures var stale := OverAge(ordered, verified, cutoff);
      SizePass(ordered, verified, Paths(stale), maximum)
      == Greedy(Young(ordered, verified, cutoff), Total(ordered) - Total(stale), maximum)
  {
    var chosen := Paths(OverAge(ordered, verified, cutoff));
    AgePassSeparates(ordered, verified, cutoff);
    RemainingIsDifference(ordered, verified, cutoff, chosen);
    TrimIsGreedy(ordered, verified, cutoff, chosen, TotalExcept(ordered, chosen), maximum);
  }

  /** The plan in closed form. */
  lemma PlanIsGreedy(candidates: seq<Candidate>, verified: set<string>, cutoff: int, maximum: int)
    requires NoYoungRepeat(Sort(candidates), verified, cutoff)
    ensures Plan(candidates, verified, cutoff, maximum)
         == GreedyPlan(candidates, OverAge(Sort(candidates), verified, cutoff),
           Young(Sort(candidates), verified, cutoff), maximum)
  {
    assert Sorted(Sort(candidates)) by {
      SortSorts(candidates);
    }
    SizePassIsGreedy(Sort(candidates), verified, cutoff, maximum);
  }

  /** The over-age files are the first of the eligible ones. */
  lemma OldIsPrefix(candidates: seq<Candidate>, verified: set<string>, cutoff: int, k: nat)
    requires k < |Verified(Sort(candidates), verified)|
    ensures Verified(Sort(candidates), verified)[k].modified < cutoff
      <==> k < |OverAge(Sort(candidates), verified, cutoff)|
  {
    var ordered := Sort(candidates);
    var stale, young := OverAge(ordered, verified, cutoff), Young(ordered, verified, cutoff);
    SortSorts(candidates);
    OldComeFirst(ordered, verified, cutoff);
    OverAgeMembers(ordered, verified, cutoff);
    if k < |stale| {
      assert stale[k] in stale;
    } else {
      assert young[k - |stale|] in young;
    }
  }

  lemma RemainingSplits(candidates: seq<Candidate>, verified: set<string>, stale: seq<Candidate>,
                        young: seq<Candidate>, n: nat)
    requires Verified(Sort(candidates), verified) == stale + young && n <= |young|
    ensures RemainingAfter(candidates, verified, |stale| + n)
      == Total(Sort(candidates)) - Total(stale) - Total(young[..n])
  {
    assert (stale + young)[..|stale| + n] == stale + young[..n];
    TotalJoins(stale, young[..n]);
  }

  /** `plan` is the shortest prefix of the eligible files that holds the first `stale` and brings the rest
      within the limit; or all of them, when no prefix does. */
  ghost predicate ShortestPrefix(plan: seq<Candidate>, candidates: seq<Candidate>, verified: set<string>, stale: nat,
                                 maximum: int)
  {
    && plan <= Verified(Sort(candidates), verified) && stale <= |plan|
    && (RemainingAfter(candidates, verified, |plan|) <= maximum || plan == Verified(Sort(candidates), verified))
    && forall n :: stale <= n < |plan| ==> RemainingAfter(candidates, verified, n) > maximum
  }

  lemma ShortestWith(candidates: seq<Candidate>, verified: set<string>, stale: seq<Candidate>, young: seq<Candidate>,
                     maximum: int)
    requires Verified(Sort(candidates), verified) == stale + young
    ensures ShortestPrefix(GreedyPlan(candidates, stale, young, maximum), candidates, verified, |stale|, maximum)
  {
    var left := Total(Sort(candidates)) - Total(stale);
    var g := Greedy(young, left, maximum);
    GreedyIsShortest(young, left, maximum);
    RemainingSplits(candidates, verified, stale, young, |g|);
    assert young[..|g|] == g;
    forall n | |stale| <= n < |stale| + |g| ensures RemainingAfter(candidates, verified, n) > maximum {
      RemainingSplits(candidates, verified, stale, young, n - |stale|);
    }
  }

  lemma Splits(candidates: seq<Candidate>, verified: set<string>, cutoff: int)
    ensures Verified(Sort(candidates), verified)
         == OverAge(Sort(candidates), verified, cutoff) + Young(Sort(candidates), verified, cutoff)
  {
    SortSorts(candidates);
    OldComeFirst(Sort(candidates), verified, cutoff);
  }

  /** Without young repeats the plan is the shortest such prefix, where the over-age files are the ones it must hold. */
  lemma PlanIsShortestPrefix(candidates: seq<Candidate>, verified: set<string>, cutoff: int, maximum: int)
    requires NoYoungRepeat(Sort(candidates), verified, cutoff)
    ensures ShortestPrefix(Plan(candidates, verified, cutoff, maximum), candidates, verified,
                           |OverAge(Sort(candidates), verified, cutoff)|, maximum)
  {
    var stale, young := OverAge(Sort(candidates), verified, cutoff), Young(Sort(candidates), verified, cutoff);
    Splits(candidates, verified, cutoff);
    PlanIsGreedy(candidates, verified, cutoff, maximum);
    ShortestWith(candidates, verified, stale, young, maximum);
  }

  // ---------------------------------------------------------------- exactly when

  ghost predicate Unrepeated(q: seq<Candidate>) {
    forall i, j :: 0 <= i < j < |q| ==> q[i].path != q[j].path
  }

  lemma UnrepeatedGrows(c: Candidate, q: seq<Candidate>)
    requires Unrepeated(q) && forall d :: d in q ==> d.path != c.path
    ensures Unrepeated([c] + q)
  {
  }

  /** The size pass takes a path at most once, and none the age pass took. */
  lemma {:induction false} TrimTakesOnce(q: seq<Candidate>, verified: set<string>, chosen: set<string>, remaining: int,
                                         maximum: int)
    ensures Unrepeated(Trim(q, verified, chosen, remaining, maximum))
    ensures forall c :: c in Trim(q, verified, chosen, remaining, maximum) ==> c.path !in chosen
    decreases |q|
  {
    if q != [] && remaining > maximum {
      if q[0].path in verified && q[0].path !in chosen {
        TrimTakesOnce(q[1..], verified, chosen + {q[0].path}, remaining - q[0].size, maximum);
        UnrepeatedGrows(q[0], Trim(q[1..], verified, chosen + {q[0].path}, remaining - q[0].size, maximum));
      } else {
        TrimTakesOnce(q[1..], verified, chosen, remaining, maximum);
      }
    }
  }

  /** If the young files repeat nothing, among themselves or of the over-age ones, neither does the list. */
  lemma {:induction false} YoungRepeatShows(q: seq<Candidate>, verified: set<string>, cutoff: int)
    requires Unrepeated(Young(q, verified, cutoff))
    requires forall c :: c in Young(q, verified, cutoff) ==> c.path !in Paths(OverAge(q, verified, cutoff))
    requires Sorted(q)
    ensures NoYoungRepeat(q, verified, cutoff)
  {
    forall i, j | 0 <= i < j < |q| && q[j].modified >= cutoff && q[j].path in verified
      ensures q[i].path != q[j].path
    {
      OverAgeMembers(q, verified, cutoff);
      assert q[i] in q && q[j] in q;
      if q[i].path == q[j].path && q[i].modified >= cutoff {
        YoungPositions(q, verified, cutoff, i, j);
      }
    }
  }

  /** Two young verified entries of the list are two entries of its young files. */
  lemma {:induction false} YoungPositions(q: seq<Candidate>, verified: set<string>, cutoff: int, i: nat, j: nat)
    requires i < j < |q| && q[i].modified >= cutoff && q[j].modified >= cutoff
    requires q[i].path in verified && q[j].path in verified
    requires Unrepeated(Young(q, verified, cutoff))
    ensures q[i].path != q[j].path
  {
    var rest := Young(q[1..], verified, cutoff);
    if Young(q, verified, cutoff) != rest {
      UnrepeatedTail(q[0], rest);
    }
    if i == 0 {
      assert q[j] in rest by {
        OverAgeMembers(q[1..], verified, cutoff);
        assert q[j] == q[1..][j - 1];
      }
    } else {
      YoungPositions(q[1..], verified, cutoff, i - 1, j - 1);
    }
  }

  lemma UnrepeatedTail(c: Candidate, q: seq<Candidate>)
    requires Unrepeated([c] + q)
    ensures Unrepeated(q) && forall d :: d in q ==> d.path != c.path
  {
    forall k | 0 <= k < |q| ensures q[k].path != c.path {
      assert ([c] + q)[k + 1] == q[k] && ([c] + q)[0] == c;
    }
    forall i, j | 0 <= i < j < |q| ensures q[i].path != q[j].path {
      assert ([c] + q)[i + 1] == q[i] && ([c] + q)[j + 1] == q[j];
    }
  }

  /** With positive sizes a proper prefix weighs less than the whole. */
  lemma {:induction false} PrefixWeighsLess(q: seq<Candidate>, n: nat)
    requires n < |q| && forall k :: 0 <= k < |q| ==> q[k].size > 0
    ensures Total(q[..n]) < Total(q)
  {
    if n > 0 {
      assert q[..n][1..] == q[1..][..n - 1];
      PrefixWeighsLess(q[1..], n - 1);
    } else {
      TotalPositive(q);
    }
  }

  lemma {:induction false} TotalPositive(q: seq<Candidate>)
    requires forall k :: 0 <= k < |q| ==> q[k].size > 0
    ensures Total(q) >= 0 && (q != [] ==> Total(q) > 0)
  {
    if q != [] {
      TotalPositive(q[1..]);
    }
  }

  lemma {:induction false} VerifiedMembers(q: seq<Candidate>, verified: set<string>)
    ensures forall c :: c in Verified(q, verified) ==> c in q
  {
    if q != [] {
      VerifiedMembers(q[1..], verified);
    }
  }

  /** The limit that only deleting every verified file meets. */
  function TightLimit(candidates: seq<Candidate>, verified: set<string>): int {
    Total(Sort(candidates)) - Total(Verified(Sort(candidates), verified))
  }

  lemma TightTakesAll(candidates: seq<Candidate>, verified: set<string>, stale: nat, plan: seq<Candidate>)
    requires forall c :: c in candidates ==> c.size > 0
    requires ShortestPrefix(plan, candidates, verified, stale, TightLimit(candidates, verified))
    ensures plan == Verified(Sort(candidates), verified)
  {
    var eligible := Verified(Sort(candidates), verified);
    SortSorts(candidates);
    VerifiedMembers(Sort(candidates), verified);
    forall k | 0 <= k < |eligible| ensures eligible[k].size > 0 {
      assert eligible[k] in Sort(candidates);
      assert eligible[k] in multiset(Sort(candidates));
    }
    if |plan| < |eligible| {
      PrefixWeighsLess(eligible, |plan|);
    }
  }

  /** At the tight limit the plan can only be right if no young file repeats a path. */
  lemma TightPlanShowsNoRepeat(candidates: seq<Candidate>, verified: set<string>, cutoff: int, maximum: int)
    requires Plan(candidates, verified, cutoff, maximum) == Verified(Sort(candidates), verified)
    ensures NoYoungRepeat(Sort(candidates), verified, cutoff)
  {
    var ordered := Sort(candidates);
    var stale := OverAge(ordered, verified, cutoff);
    var added := Trim(ordered, verified, Paths(stale), TotalExcept(ordered, Paths(stale)), maximum);
    Splits(candidates, verified, cutoff);
    SortSorts(candidates);
    TrimTakesOnce(ordered, verified, Paths(stale), TotalExcept(ordered, Paths(stale)), maximum);
    assert stale + added == stale + Young(ordered, verified, cutoff);
    assert added == (stale + added)[|stale|..] == Young(ordered, verified, cutoff);
    YoungRepeatShows(ordered, verified, cutoff);
  }

  /** The plan is right under this limit. */
  ghost predicate RightUnder(candidates: seq<Candidate>, verified: set<string>, cutoff: int, maximum: int) {
    ShortestPrefix(Plan(candidates, verified, cutoff, maximum), candidates, verified,
                   |OverAge(Sort(candidates), verified, cutoff)|, maximum)
  }

  /** The plan is the shortest prefix under every limit exactly when no young verified file repeats an earlier path. */
  lemma RightIffNoYoungRepeat(candidates: seq<Candidate>, verified: set<string>, cutoff: int)
    requires forall c :: c in candidates ==> c.size > 0
    ensures (forall maximum :: RightUnder(candidates, verified, cutoff, maximum))
            <==> NoYoungRepeat(Sort(candidates), verified, cutoff)
  {
    if NoYoungRepeat(Sort(candidates), verified, cutoff) {
      forall maximum ensures RightUnder(candidates, verified, cutoff, maximum) {
        PlanIsShortestPrefix(candidates, verified, cutoff, maximum);
      }
    }
    var tight := TightLimit(candidates, verified);
    if RightUnder(candidates, verified, cutoff, tight) {
      var plan := Plan(candidates, verified, cutoff, tight);
      TightTakesAll(candidates, verified, |OverAge(Sort(candidates), verified, cutoff)|, plan);
      TightPlanShowsNoRepeat(candidates, verified, cutoff, tight);
    }
  }

  const OLD_COPY := Candidate("a", 5, 0)
  const NEW_COPY := Candidate("a", 5, 10)

  /** With one path listed twice the byte count drops both entries, and the plan stops before the limit is met. */
  lemma RepeatedPathStopsShort()
    ensures Plan([OLD_COPY, NEW_COPY], {"a"}, 5, 0) == [OLD_COPY]
    ensures !ShortestPrefix([OLD_COPY], [OLD_COPY, NEW_COPY], {"a"}, 1, 0)
  {
    var q := [OLD_COPY, NEW_COPY];
    assert q[1..] == [NEW_COPY] && q[1..][1..] == [];
    assert Sort(q[1..]) == [NEW_COPY];
    assert Sort(q) == q;
    assert OverAge(q[1..], {"a"}, 5) == [];
    assert OverAge(q, {"a"}, 5) == [OLD_COPY];
    assert Paths([OLD_COPY]) == {"a"};
    assert TotalExcept(q[1..], {"a"}) == 0;
    assert Verified(q[1..], {"a"}) == [NEW_COPY];
    assert Verified(q, {"a"}) == q;
    assert Total(q[1..]) == 5 && Total(q) == 10;
    assert q[..1] == [OLD_COPY] && Total([OLD_COPY]) == 5;
  }

  lemma {:induction false} TrimVerified(q: seq<Candidate>, verified: set<string>, chosen: set<string>, remaining: int,
                                        maximum: int)
    ensures forall c :: c in Trim(q, verified, chosen, remaining, maximum) ==> c in q && c.path in verified
    decreases |q|
  {
    if q != [] {
      TrimVerified(q[1..], verified, chosen + {q[0].path}, remaining - q[0].size, maximum);
      TrimVerified(q[1..], verified, chosen, remaining, maximum);
    }
  }

  /** Whatever the input, only verified candidates are chosen, and every over-age one of them is. */
  lemma OnlyVerifiedAreChosen(candidates: seq<Candidate>, verified: set<string>, cutoff: int, maximum: int)
    ensures forall c :: c in Plan(candidates, verified, cutoff, maximum) ==> c in candidates && c.path in verified
    ensures forall c :: c in candidates && c.path in verified && c.modified < cutoff ==>
      c in Plan(candidates, verified, cutoff, maximum)
  {
    var ordered := Sort(candidates);
    var stale := OverAge(ordered, verified, cutoff);
    SortSorts(candidates);
    OverAgeMembers(ordered, verified, cutoff);
    TrimVerified(ordered, verified, Paths(stale), TotalExcept(ordered, Paths(stale)), maximum);
    forall c ensures c in ordered <==> c in candidates {
      assert c in multiset(ordered) <==> c in multiset(candidates);
    }
  }
}
