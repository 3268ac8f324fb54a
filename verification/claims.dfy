/**
 * Inference claims against a namespace's monthly allowance: claims are granted in creation order
 * until the running total tips over, and a controller keeps each claim's Ready condition at that verdict.
 */
module Claims {
  import opened Common

  type Name = string

  /** A claim as the fold sees it; `created` is the creation time, missing when the object has none. */
  datatype ClaimLite = ClaimLite(name: Name, budget: real, created: Option<nat>)

  datatype Message = NoAllowanceText | WithinText(sum: real, cap: real) | ExceedsText(sum: real, cap: real) | OtherText(text: string)
  datatype Verdict = Verdict(ready: bool, reason: string, message: Message)

  const NO_ALLOWANCE := Verdict(false, "NoAllowance", NoAllowanceText)

  function Judge(sum: real, cap: real): Verdict {
    if sum <= cap then Verdict(true, "WithinAllowance", WithinText(sum, cap))
    else Verdict(false, "AllowanceExceeded", ExceedsText(sum, cap))
  }

  // ----- creation order ------------------------------------------------------------------------------

  /** A missing creation time sorts before every other. */
  function Key(c: ClaimLite): nat {
    if c.created.None? then 0 else c.created.value + 1
  }

  /** Created no later: a claim without a time before any other. */
  predicate NoLater(a: ClaimLite, b: ClaimLite) {
    a.created.None? || (b.created.Some? && a.created.value <= b.created.value)
  }

  ghost predicate Ordered(cs: seq<ClaimLite>) {
    forall i, j :: 0 <= i < j < |cs| ==> NoLater(cs[i], cs[j])
  }

  function Insert(x: ClaimLite, cs: seq<ClaimLite>): seq<ClaimLite> {
    if cs == [] || Key(cs[|cs| - 1]) <= Key(x) then cs + [x]
    else Insert(x, cs[..|cs| - 1]) + [cs[|cs| - 1]]
  }

  /** By creation time, claims of one time keeping their order. */
  function Sort(cs: seq<ClaimLite>): seq<ClaimLite> {
    if cs == [] then [] else Insert(cs[|cs| - 1], Sort(cs[..|cs| - 1]))
  }

  /** The claims created at one time, in order. */
  function At(cs: seq<ClaimLite>, t: nat): seq<ClaimLite> {
    if cs == [] then []
    else
      var front, last := At(cs[..|cs| - 1], t), cs[|cs| - 1];
      if Key(last) == t then front + [last] else front
  }

  lemma AtLast(cs: seq<ClaimLite>, x: ClaimLite, t: nat)
    ensures At(cs + [x], t) == if Key(x) == t then At(cs, t) + [x] else At(cs, t)
  {
    assert (cs + [x])[..|cs|] == cs;
  }

  lemma {:induction false} AtNone(cs: seq<ClaimLite>, t: nat)
    requires forall i :: 0 <= i < |cs| ==> Key(cs[i]) != t
    ensures At(cs, t) == []
  {
    if cs != [] {
      AtNone(cs[..|cs| - 1], t);
    }
  }

  lemma {:induction false} AtJoined(a: seq<ClaimLite>, b: seq<ClaimLite>, t: nat)
    ensures At(a + b, t) == At(a, t) + At(b, t)
  {
    if b == [] {
      assert a + b == a;
    } else {
      var front, last := b[..|b| - 1], b[|b| - 1];
      assert a + b == a + front + [last] && b == front + [last];
      AtJoined(a, front, t);
      AtLast(a + front, last, t);
      AtLast(front, last, t);
    }
  }

  lemma {:induction false} InsertBelow(x: ClaimLite, cs: seq<ClaimLite>, t: nat)
    requires Key(x) <= t && forall i :: 0 <= i < |cs| ==> Key(cs[i]) <= t
    ensures forall i :: 0 <= i < |Insert(x, cs)| ==> Key(Insert(x, cs)[i]) <= t
  {
    if cs != [] && Key(cs[|cs| - 1]) > Key(x) {
      InsertBelow(x, cs[..|cs| - 1], t);
    }
  }

  lemma {:induction false} InsertOrdered(x: ClaimLite, cs: seq<ClaimLite>)
    requires Ordered(cs)
    ensures Ordered(Insert(x, cs))
  {
    if cs != [] && Key(cs[|cs| - 1]) > Key(x) {
      InsertOrdered(x, cs[..|cs| - 1]);
      InsertBelow(x, cs[..|cs| - 1], Key(cs[|cs| - 1]));
    }
  }

  lemma {:induction false} InsertAdds(x: ClaimLite, cs: seq<ClaimLite>)
    ensures multiset(Insert(x, cs)) == multiset(cs) + multiset{x}
  {
    if cs != [] && Key(cs[|cs| - 1]) > Key(x) {
      assert cs == cs[..|cs| - 1] + [cs[|cs| - 1]];
      InsertAdds(x, cs[..|cs| - 1]);
    }
  }

  lemma {:induction false} InsertLast(x: ClaimLite, cs: seq<ClaimLite>, t: nat)
    ensures At(Insert(x, cs), t) == At(cs + [x], t)
  {
    if cs != [] && Key(cs[|cs| - 1]) > Key(x) {
      var front, last := cs[..|cs| - 1], cs[|cs| - 1];
      assert cs == front + [last];
      InsertLast(x, front, t);
      AtLast(Insert(x, front), last, t);
      AtLast(front, x, t);
      AtLast(front, last, t);
      AtLast(cs, x, t);
    }
  }

  /** Sorting orders the claims, loses none, and keeps the order among those of one time. */
  lemma {:induction false} SortIsStable(cs: seq<ClaimLite>)
    ensures Ordered(Sort(cs)) && multiset(Sort(cs)) == multiset(cs)
    ensures forall t :: At(Sort(cs), t) == At(cs, t)
  {
    if cs != [] {
      var front, last := cs[..|cs| - 1], cs[|cs| - 1];
      assert cs == front + [last];
      SortIsStable(front);
      InsertOrdered(last, Sort(front));
      InsertAdds(last, Sort(front));
      forall t ensures At(Sort(cs), t) == At(cs, t) {
        InsertLast(last, Sort(front), t);
        AtLast(Sort(front), last, t);
        AtLast(front, last, t);
      }
    }
  }

  lemma LastAt(cs: seq<ClaimLite>)
    requires cs != []
    ensures At(cs, Key(cs[|cs| - 1])) != [] && At(cs, Key(cs[|cs| - 1]))[|At(cs, Key(cs[|cs| - 1]))| - 1] == cs[|cs| - 1]
  {
  }

  lemma LatestIsLast(a: seq<ClaimLite>, b: seq<ClaimLite>)
    requires Ordered(a) && a != [] && b != []
    requires forall t :: At(a, t) == At(b, t)
    ensures Key(b[|b| - 1]) <= Key(a[|a| - 1])
  {
    var t := Key(b[|b| - 1]);
    LastAt(b);
    if t > Key(a[|a| - 1]) {
      AtNone(a, t);
    }
  }

  /** And there is only one such order. */
  lemma {:induction false} StableOrderIsUnique(a: seq<ClaimLite>, b: seq<ClaimLite>)
    requires Ordered(a) && Ordered(b)
    requires forall t :: At(a, t) == At(b, t)
    ensures a == b
  {
    if a == [] {
      if b != [] {
        LastAt(b);
      }
    } else if b == [] {
      LastAt(a);
    } else {
      LatestIsLast(a, b);
      LatestIsLast(b, a);
      LastAt(a);
      LastAt(b);
      var x, a', b' := a[|a| - 1], a[..|a| - 1], b[..|b| - 1];
      assert a == a' + [x] && b == b' + [x];
      forall t ensures At(a', t) == At(b', t) {
        AtLast(a', x, t);
        AtLast(b', x, t);
        if Key(x) == t {
          assert At(a', t) == At(a, t)[..|At(a, t)| - 1] && At(b', t) == At(b, t)[..|At(b, t)| - 1];
        }
      }
      StableOrderIsUnique(a', b');
    }
  }

  // ----- the fold ------------------------------------------------------------------------------------

  function Total(cs: seq<ClaimLite>): real {
    if cs == [] then 0.0 else Total(cs[..|cs| - 1]) + cs[|cs| - 1].budget
  }

  /** The verdicts on claims taken in this order. */
  function Verdicts(cs: seq<ClaimLite>, cap: real): map<Name, Verdict> {
    if cs == [] then map[] else Verdicts(cs[..|cs| - 1], cap)[cs[|cs| - 1].name := Judge(Total(cs), cap)]
  }

  function AllRefused(cs: seq<ClaimLite>): map<Name, Verdict> {
    if cs == [] then map[] else AllRefused(cs[..|cs| - 1])[cs[|cs| - 1].name := NO_ALLOWANCE]
  }

  function Evaluated(claims: seq<ClaimLite>, cap: Option<real>): map<Name, Verdict> {
    if cap.None? then AllRefused(claims) else Verdicts(Sort(claims), cap.value)
  }

  method Evaluate(claims: seq<ClaimLite>, maxMonthlyUsd: Option<real>) returns (out: map<Name, Verdict>)
    ensures out == Evaluated(claims, maxMonthlyUsd)
  {
    out := map[];
    if maxMonthlyUsd.None? {
      for i := 0 to |claims|
        invariant out == AllRefused(claims[..i])
      {
        assert claims[..i + 1][..i] == claims[..i];
        out := out[claims[i].name := Verdict(false, "NoAllowance", NoAllowanceText)];
      }
      assert claims[..|claims|] == claims;
      return;
    }
    var sorted := Sort(claims);
    var sum := 0.0;
    for i := 0 to |sorted|
      invariant sum == Total(sorted[..i])
      invariant out == Verdicts(sorted[..i], maxMonthlyUsd.value)
    {
      assert sorted[..i + 1][..i] == sorted[..i];
      sum := sum + sorted[i].budget;
      out := out[sorted[i].name := if sum > maxMonthlyUsd.value
                                   then Verdict(false, "AllowanceExceeded", ExceedsText(sum, maxMonthlyUsd.value))
                                   else Verdict(true, "WithinAllowance", WithinText(sum, maxMonthlyUsd.value))];
    }
    assert sorted[..|sorted|] == sorted;
  }

  // ----- what the verdicts mean ----------------------------------------------------------------------

  ghost predicate DistinctNames(cs: seq<ClaimLite>) {
    forall i, j :: 0 <= i < j < |cs| ==> cs[i].name != cs[j].name
  }

  ghost predicate NonNegative(cs: seq<ClaimLite>) {
    forall i :: 0 <= i < |cs| ==> cs[i].budget >= 0.0
  }

  lemma {:induction false} VerdictsDomain(cs: seq<ClaimLite>, cap: real, n: Name)
    ensures n in Verdicts(cs, cap) <==> exists i :: 0 <= i < |cs| && cs[i].name == n
  {
    if cs != [] {
      var front := cs[..|cs| - 1];
      VerdictsDomain(front, cap, n);
      if n in Verdicts(front, cap) {
        var i :| 0 <= i < |front| && front[i].name == n;
        assert cs[i].name == n;
      }
    }
  }

  /** A claim's verdict is about the total of the claims up to and including it. */
  lemma {:induction false} VerdictAt(cs: seq<ClaimLite>, cap: real, k: nat)
    requires DistinctNames(cs) && k < |cs|
    ensures cs[k].name in Verdicts(cs, cap)
    ensures var total, v := Total(cs[..k + 1]), Verdicts(cs, cap)[cs[k].name];
            if total <= cap then v.ready && v.reason == "WithinAllowance" && v.message == WithinText(total, cap)
            else !v.ready && v.reason == "AllowanceExceeded" && v.message == ExceedsText(total, cap)
  {
    if k == |cs| - 1 {
      assert cs[..k + 1] == cs;
    } else {
      VerdictAt(cs[..|cs| - 1], cap, k);
      assert cs[..|cs| - 1][..k + 1] == cs[..k + 1];
    }
  }

  lemma {:induction false} TotalGrows(cs: seq<ClaimLite>, i: nat, j: nat)
    requires NonNegative(cs) && i <= j <= |cs|
    ensures 0.0 <= Total(cs[..i]) <= Total(cs[..j])
    decreases j
  {
    if i < j {
      TotalGrows(cs, i, j - 1);
      assert cs[..j][..j - 1] == cs[..j - 1];
    } else if i > 0 {
      TotalGrows(cs, i - 1, i - 1);
      assert cs[..i][..i - 1] == cs[..i - 1];
    }
  }

  /** How many of the claims, in order, are granted. */
  function Granted(cs: seq<ClaimLite>, cap: real): (n: nat)
    ensures n <= |cs|
  {
    if cs == [] then 0
    else if Total(cs) <= cap then |cs|
    else Granted(cs[..|cs| - 1], cap)
  }

  /** The granted ones are a prefix that fits, and no longer prefix does. */
  lemma {:induction false} GrantedIsLongest(cs: seq<ClaimLite>, cap: real, m: nat)
    requires m <= |cs|
    ensures var n := Granted(cs, cap);
            (n > 0 ==> Total(cs[..n]) <= cap) && (n < m ==> Total(cs[..m]) > cap)
  {
    if cs != [] {
      var front := cs[..|cs| - 1];
      assert cs[..|cs|] == cs;
      var n := Granted(front, cap);
      assert front[..n] == cs[..n];
      GrantedIsLongest(front, cap, if m < |cs| then m else 0);
      assert m < |cs| ==> front[..m] == cs[..m];
    }
  }

  lemma ReadyIsFirst(sorted: seq<ClaimLite>, cap: real, k: nat)
    requires DistinctNames(sorted) && NonNegative(sorted) && k < |sorted|
    ensures sorted[k].name in Verdicts(sorted, cap)
    ensures Verdicts(sorted, cap)[sorted[k].name].ready <==> k < Granted(sorted, cap)
  {
    VerdictAt(sorted, cap, k);
    var n := Granted(sorted, cap);
    GrantedIsLongest(sorted, cap, k + 1);
    if k < n {
      TotalGrows(sorted, k + 1, n);
    }
  }

  lemma NamesApart(cs: seq<ClaimLite>, i: nat, j: nat)
    requires i < j < |cs|
    ensures multiset(cs)[cs[i]] >= 1 && multiset(cs)[cs[j]] >= 1 && (cs[i] == cs[j] ==> multiset(cs)[cs[i]] >= 2)
  {
    assert cs == cs[..j] + [cs[j]] + cs[j + 1..];
    assert cs[i] in cs[..j];
  }

  lemma DistinctCount(cs: seq<ClaimLite>, x: ClaimLite)
    requires DistinctNames(cs)
    ensures multiset(cs)[x] <= 1
  {
    if cs != [] {
      var front, last := cs[..|cs| - 1], cs[|cs| - 1];
      assert cs == front + [last];
      DistinctCount(front, x);
      assert forall i :: 0 <= i < |front| ==> front[i].name != last.name;
    }
  }

  /** Sorting keeps names distinct and budgets as they are. */
  lemma SortedStill(cs: seq<ClaimLite>)
    requires DistinctNames(cs)
    ensures |Sort(cs)| == |cs| && DistinctNames(Sort(cs)) && (NonNegative(cs) ==> NonNegative(Sort(cs)))
  {
    var sorted := Sort(cs);
    SortIsStable(cs);
    assert |multiset(sorted)| == |multiset(cs)|;
    forall i, j | 0 <= i < j < |sorted| ensures sorted[i].name != sorted[j].name {
      NamesApart(sorted, i, j);
      DistinctCount(cs, sorted[i]);
      assert sorted[i] in cs && sorted[j] in cs;
    }
    forall i | 0 <= i < |sorted| ensures NonNegative(cs) ==> sorted[i].budget >= 0.0 {
      assert sorted[i] in multiset(cs);
    }
  }

  /** Ready claims are exactly the longest prefix, in creation order, whose total fits the allowance. */
  lemma ReadyIsLongestPrefix(claims: seq<ClaimLite>, cap: real, k: nat)
    requires DistinctNames(claims) && NonNegative(claims) && k < |claims|
    ensures |Sort(claims)| == |claims| && Sort(claims)[k].name in Evaluated(claims, Some(cap))
    ensures Evaluated(claims, Some(cap))[Sort(claims)[k].name].ready <==> k < Granted(Sort(claims), cap)
  {
    SortedStill(claims);
    ReadyIsFirst(Sort(claims), cap, k);
  }

  // ----- who affects whom ----------------------------------------------------------------------------

  ghost predicate DistinctTimes(cs: seq<ClaimLite>) {
    forall i, j :: 0 <= i < j < |cs| ==> Key(cs[i]) != Key(cs[j])
  }

  lemma {:induction false} AtCounts(cs: seq<ClaimLite>, t: nat, x: ClaimLite)
    ensures multiset(At(cs, t))[x] == if Key(x) == t then multiset(cs)[x] else 0
  {
    if cs != [] {
      var front, last := cs[..|cs| - 1], cs[|cs| - 1];
      assert cs == front + [last];
      AtCounts(front, t, x);
    }
  }

  lemma {:induction false} AtMostOne(cs: seq<ClaimLite>, t: nat)
    requires DistinctTimes(cs)
    ensures |At(cs, t)| <= 1
  {
    if cs != [] {
      var front, last := cs[..|cs| - 1], cs[|cs| - 1];
      AtMostOne(front, t);
      if Key(last) == t {
        AtNone(front, t);
      }
    }
  }

  lemma ShortAlike(a: seq<ClaimLite>, b: seq<ClaimLite>)
    requires multiset(a) == multiset(b) && |a| <= 1
    ensures a == b
  {
    assert |multiset(a)| == |multiset(b)|;
    if a != [] {
      assert a == [a[0]] && b == [b[0]];
      assert b[0] in multiset(a);
    }
  }

  /** With distinct creation times the order in which claims are listed does not matter. */
  lemma ListingOrderIsIrrelevant(a: seq<ClaimLite>, b: seq<ClaimLite>, cap: Option<real>)
    requires multiset(a) == multiset(b) && DistinctTimes(a)
    ensures Evaluated(a, cap) == Evaluated(b, cap)
  {
    SameMembers(a, b);
    SortIsStable(a);
    SortIsStable(b);
    forall t ensures At(Sort(a), t) == At(Sort(b), t) {
      AtMostOne(a, t);
      assert multiset(At(a, t)) == multiset(At(b, t)) by {
        forall x ensures multiset(At(a, t))[x] == multiset(At(b, t))[x] {
          AtCounts(a, t, x);
          AtCounts(b, t, x);
        }
      }
      ShortAlike(At(a, t), At(b, t));
    }
    StableOrderIsUnique(Sort(a), Sort(b));
  }

  /** Without an allowance every claim, and nothing else, is refused. */
  lemma NoAllowanceRefusesAll(claims: seq<ClaimLite>, n: Name)
    ensures n in Evaluated(claims, None) <==> exists c :: c in claims && c.name == n
    ensures n in Evaluated(claims, None) ==> var v := Evaluated(claims, None)[n]; !v.ready && v.reason == "NoAllowance"
  {
    RefusedAre(claims, n);
  }

  lemma {:induction false} RefusedAre(cs: seq<ClaimLite>, n: Name)
    ensures n in AllRefused(cs) <==> exists c :: c in cs && c.name == n
    ensures n in AllRefused(cs) ==> AllRefused(cs)[n] == NO_ALLOWANCE
  {
    if cs != [] {
      assert cs == cs[..|cs| - 1] + [cs[|cs| - 1]];
      assert cs[|cs| - 1] in cs;
      RefusedAre(cs[..|cs| - 1], n);
    }
  }

  lemma SameMembers(a: seq<ClaimLite>, b: seq<ClaimLite>)
    requires multiset(a) == multiset(b)
    ensures AllRefused(a) == AllRefused(b)
  {
    assert forall c :: c in a <==> c in multiset(a);
    assert forall c :: c in b <==> c in multiset(b);
    forall n ensures (n in AllRefused(a) <==> n in AllRefused(b)) && (n in AllRefused(a) ==> AllRefused(a)[n] == AllRefused(b)[n]) {
      RefusedAre(a, n);
      RefusedAre(b, n);
    }
  }

  /** The claims created no later than a time, and the others. */
  function UpTo(cs: seq<ClaimLite>, t: nat): seq<ClaimLite> {
    if cs == [] then []
    else if Key(cs[|cs| - 1]) <= t then UpTo(cs[..|cs| - 1], t) + [cs[|cs| - 1]]
    else UpTo(cs[..|cs| - 1], t)
  }

  function Beyond(cs: seq<ClaimLite>, t: nat): seq<ClaimLite> {
    if cs == [] then []
    else if Key(cs[|cs| - 1]) > t then Beyond(cs[..|cs| - 1], t) + [cs[|cs| - 1]]
    else Beyond(cs[..|cs| - 1], t)
  }

  lemma {:induction false} Parted(cs: seq<ClaimLite>, t: nat)
    ensures forall x :: x in UpTo(cs, t) <==> x in cs && Key(x) <= t
    ensures forall x :: x in Beyond(cs, t) <==> x in cs && Key(x) > t
    ensures multiset(UpTo(cs, t)) + multiset(Beyond(cs, t)) == multiset(cs)
  {
    if cs != [] {
      Parted(cs[..|cs| - 1], t);
      assert cs == cs[..|cs| - 1] + [cs[|cs| - 1]];
    }
  }

  lemma {:induction false} PartedAt(cs: seq<ClaimLite>, t: nat, s: nat)
    ensures At(UpTo(cs, t), s) == if s <= t then At(cs, s) else []
    ensures At(Beyond(cs, t), s) == if s <= t then [] else At(cs, s)
  {
    if cs != [] {
      var front, last := cs[..|cs| - 1], cs[|cs| - 1];
      PartedAt(front, t, s);
      if Key(last) <= t {
        AtLast(UpTo(front, t), last, s);
      } else {
        AtLast(Beyond(front, t), last, s);
      }
    }
  }

  lemma SortedMembers(cs: seq<ClaimLite>, x: ClaimLite)
    ensures x in Sort(cs) <==> x in cs
  {
    SortIsStable(cs);
    assert x in multiset(Sort(cs)) <==> x in multiset(cs);
  }

  lemma SortOrders(cs: seq<ClaimLite>)
    ensures Ordered(Sort(cs))
  {
    SortIsStable(cs);
  }

  lemma OrderedJoin(a: seq<ClaimLite>, b: seq<ClaimLite>, t: nat)
    requires Ordered(a) && Ordered(b)
    requires forall i :: 0 <= i < |a| ==> Key(a[i]) <= t
    requires forall i :: 0 <= i < |b| ==> Key(b[i]) > t
    ensures Ordered(a + b)
  {
  }

  lemma PartedOrdered(cs: seq<ClaimLite>, t: nat)
    ensures Ordered(Sort(UpTo(cs, t)) + Sort(Beyond(cs, t)))
  {
    var a, b := Sort(UpTo(cs, t)), Sort(Beyond(cs, t));
    SortOrders(UpTo(cs, t));
    SortOrders(Beyond(cs, t));
    Parted(cs, t);
    forall i | 0 <= i < |a| ensures Key(a[i]) <= t {
      SortedMembers(UpTo(cs, t), a[i]);
    }
    forall i | 0 <= i < |b| ensures Key(b[i]) > t {
      SortedMembers(Beyond(cs, t), b[i]);
    }
    OrderedJoin(a, b, t);
  }

  lemma PartedSame(cs: seq<ClaimLite>, t: nat, s: nat)
    ensures At(Sort(UpTo(cs, t)) + Sort(Beyond(cs, t)), s) == At(Sort(cs), s)
  {
    SortIsStable(cs);
    SortIsStable(UpTo(cs, t));
    SortIsStable(Beyond(cs, t));
    AtJoined(Sort(UpTo(cs, t)), Sort(Beyond(cs, t)), s);
    PartedAt(cs, t, s);
  }

  /** The claims created up to a time come first, and sorted as if the others were not there. */
  lemma SortParted(cs: seq<ClaimLite>, t: nat)
    ensures Sort(cs) == Sort(UpTo(cs, t)) + Sort(Beyond(cs, t))
  {
    var parted := Sort(UpTo(cs, t)) + Sort(Beyond(cs, t));
    SortIsStable(cs);
    PartedOrdered(cs, t);
    forall s ensures At(parted, s) == At(Sort(cs), s) {
      PartedSame(cs, t, s);
    }
    StableOrderIsUnique(Sort(cs), parted);
  }

  lemma {:induction false} VerdictsOfFirst(a: seq<ClaimLite>, b: seq<ClaimLite>, cap: real, n: Name)
    requires n in Verdicts(a, cap) && forall i :: 0 <= i < |b| ==> b[i].name != n
    ensures n in Verdicts(a + b, cap) && Verdicts(a + b, cap)[n] == Verdicts(a, cap)[n]
  {
    if b == [] {
      assert a + b == a;
    } else {
      assert (a + b)[..|a + b| - 1] == a + b[..|b| - 1];
      VerdictsOfFirst(a, b[..|b| - 1], cap, n);
    }
  }

  /** A claim's verdict depends only on the claims created no later than it. */
  lemma LaterClaimsChangeNothing(cs: seq<ClaimLite>, cap: real, t: nat, c: ClaimLite)
    requires DistinctNames(cs) && c in cs && Key(c) <= t
    ensures c.name in Evaluated(cs, Some(cap)) && c.name in Evaluated(UpTo(cs, t), Some(cap))
    ensures Evaluated(cs, Some(cap))[c.name] == Evaluated(UpTo(cs, t), Some(cap))[c.name]
  {
    var a, b := Sort(UpTo(cs, t)), Sort(Beyond(cs, t));
    Parted(cs, t);
    SortedMembers(UpTo(cs, t), c);
    var k :| 0 <= k < |a| && a[k] == c;
    VerdictsDomain(a, cap, c.name);
    assert c.name in Verdicts(a, cap);
    forall i | 0 <= i < |b| ensures b[i].name != c.name {
      SortedMembers(Beyond(cs, t), b[i]);
      assert b[i] in cs;
      var p :| 0 <= p < |cs| && cs[p] == b[i];
      var q :| 0 <= q < |cs| && cs[q] == c;
      assert p != q;
    }
    SortParted(cs, t);
    VerdictsOfFirst(a, b, cap, c.name);
  }
}
