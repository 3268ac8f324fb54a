/**
 * The reconciler of inference claims: it lists claims and allowances, evaluates each namespace, and
 * replaces the status of every claim whose Ready condition does not already say its verdict.
 */
module ClaimsController {
  import opened Common
  import opened Claims

  datatype Condition = Condition(kind: string, status: string, reason: string, message: Message, observed: Option<nat>)

  /** A claim as the API server stores it; a missing namespace is the empty one. */
  datatype ClaimObject = ClaimObject(
    namespace: string, name: Name, budget: Option<real>, created: Option<nat>, generation: Option<nat>, conditions: seq<Condition>)

  datatype Allowance = Allowance(namespace: string, max: Option<real>)

  function Lite(o: ClaimObject): ClaimLite {
    ClaimLite(o.name, if o.budget.Some? then o.budget.value else 0.0, o.created)
  }

  /** The last allowance listed for a namespace counts, whatever its name. */
  function CapOf(allowances: seq<Allowance>, namespace: string): Option<real> {
    if allowances == [] then None
    else if allowances[|allowances| - 1].namespace == namespace then allowances[|allowances| - 1].max
    else CapOf(allowances[..|allowances| - 1], namespace)
  }

  /** Where the claims of a namespace stand in the listing. */
  function PlacesOf(objects: seq<ClaimObject>, namespace: string): (places: seq<int>)
    ensures forall k :: 0 <= k < |places| ==> 0 <= places[k] < |objects| && objects[places[k]].namespace == namespace
  {
    if objects == [] then []
    else
      var front, last := objects[..|objects| - 1], |objects| - 1;
      if objects[last].namespace == namespace then PlacesOf(front, namespace) + [last] else PlacesOf(front, namespace)
  }

  function Lites(objects: seq<ClaimObject>, places: seq<int>): (cs: seq<ClaimLite>)
    requires forall k :: 0 <= k < |places| ==> 0 <= places[k] < |objects|
    ensures |cs| == |places| && forall k :: 0 <= k < |places| ==> cs[k] == Lite(objects[places[k]])
  {
    if places == [] then [] else Lites(objects, places[..|places| - 1]) + [Lite(objects[places[|places| - 1]])]
  }

  /** The verdicts of one namespace. */
  function Verdicted(objects: seq<ClaimObject>, allowances: seq<Allowance>, namespace: string): map<Name, Verdict> {
    Evaluated(Lites(objects, PlacesOf(objects, namespace)), CapOf(allowances, namespace))
  }

  /** The first Ready condition, if there is one. */
  function ReadyCondition(conditions: seq<Condition>): Option<Condition> {
    if conditions == [] then None
    else if conditions[0].kind == "Ready" then Some(conditions[0])
    else ReadyCondition(conditions[1..])
  }

  function Status(v: Verdict): string {
    if v.ready then "True" else "False"
  }

  /** The Ready condition already says the verdict; the observed generation is not compared. */
  predicate Converged(o: ClaimObject, v: Verdict) {
    var cur := ReadyCondition(o.conditions);
    cur.Some? && cur.value.status == Status(v) && cur.value.reason == v.reason && cur.value.message == v.message
  }

  /** The write: the Ready condition replaces all conditions. */
  function Written(o: ClaimObject, v: Verdict): ClaimObject {
    o.(conditions := [Condition("Ready", Status(v), v.reason, v.message, o.generation)])
  }

  /** What has to be written to a claim under the verdicts of its namespace, if anything. */
  function DueBy(o: ClaimObject, verdicts: map<Name, Verdict>): Option<ClaimObject> {
    if o.name !in verdicts || Converged(o, verdicts[o.name]) then None else Some(Written(o, verdicts[o.name]))
  }

  /** Claims without a namespace are skipped. */
  function Due(objects: seq<ClaimObject>, allowances: seq<Allowance>, i: int): Option<ClaimObject>
    requires 0 <= i < |objects|
  {
    if objects[i].namespace == "" then None
    else DueBy(objects[i], Verdicted(objects, allowances, objects[i].namespace))
  }

  function Plan(objects: seq<ClaimObject>, allowances: seq<Allowance>): (plan: seq<Option<ClaimObject>>)
    ensures |plan| == |objects| && forall i :: 0 <= i < |plan| ==> plan[i] == Due(objects, allowances, i)
  {
    seq(|objects|, i requires 0 <= i < |objects| => Due(objects, allowances, i))
  }

  // ----- one pass ------------------------------------------------------------------------------------

  /** A status write to the claim at a place, and whether the API server took it. */
  datatype Write = Write(place: int, ok: bool)

  /** Writes carry out a plan as far as the places in `done` go: each due claim once, and nothing else. */
  ghost predicate SeenTo(before: seq<ClaimObject>, after: seq<ClaimObject>, plan: seq<Option<ClaimObject>>,
                         writes: seq<Write>, done: set<int>)
  {
    && |after| == |before| == |plan|
    && (forall k :: 0 <= k < |writes| ==> 0 <= writes[k].place < |plan| && plan[writes[k].place].Some? && writes[k].place in done)
    && (forall j, k :: 0 <= j < k < |writes| ==> writes[j].place != writes[k].place)
    && (forall i :: 0 <= i < |plan| && i in done && plan[i].Some? ==> Write(i, true) in writes || Write(i, false) in writes)
    && (forall i :: 0 <= i < |plan| ==> after[i] == if Write(i, true) in writes && plan[i].Some? then plan[i].value else before[i])
  }

  function Places(n: nat): set<int> {
    if n == 0 then {} else Places(n - 1) + {n - 1}
  }

  /** A whole pass: all places are seen to. */
  ghost predicate Pass(before: seq<ClaimObject>, after: seq<ClaimObject>, plan: seq<Option<ClaimObject>>, writes: seq<Write>) {
    SeenTo(before, after, plan, writes, Places(|before|))
  }

  lemma {:induction false} PlacesHas(n: nat)
    ensures forall i :: i in Places(n) <==> 0 <= i < n
  {
    if n > 0 {
      PlacesHas(n - 1);
    }
  }

  lemma SeeToIdle(before: seq<ClaimObject>, after: seq<ClaimObject>, plan: seq<Option<ClaimObject>>, writes: seq<Write>, done: set<int>, i: int)
    requires SeenTo(before, after, plan, writes, done) && 0 <= i < |plan| && plan[i].None?
    ensures SeenTo(before, after, plan, writes, done + {i})
  {
  }

  lemma SeeToOne(before: seq<ClaimObject>, after: seq<ClaimObject>, plan: seq<Option<ClaimObject>>, writes: seq<Write>, done: set<int>, i: int, ok: bool)
    requires SeenTo(before, after, plan, writes, done) && 0 <= i < |plan| && plan[i].Some? && i !in done
    ensures SeenTo(before, if ok then after[i := plan[i].value] else after, plan, writes + [Write(i, ok)], done + {i})
  {
    var more := writes + [Write(i, ok)];
    assert more[|writes|] == Write(i, ok);
    forall j, b ensures Write(j, b) in more <==> Write(j, b) in writes || (j == i && b == ok) {
    }
  }

  lemma {:induction false} PlacesAre(objects: seq<ClaimObject>, namespace: string)
    ensures forall i :: i in PlacesOf(objects, namespace) <==> 0 <= i < |objects| && objects[i].namespace == namespace
    ensures forall j, k :: 0 <= j < k < |PlacesOf(objects, namespace)| ==>
              PlacesOf(objects, namespace)[j] < PlacesOf(objects, namespace)[k]
  {
    if objects != [] {
      PlacesAre(objects[..|objects| - 1], namespace);
    }
  }

  function Lookup<V>(m: map<string, Option<V>>, key: string): Option<V> {
    if key in m then m[key] else None
  }

  method CapByNamespace(allowances: seq<Allowance>) returns (caps: map<string, Option<real>>)
    ensures forall ns :: Lookup(caps, ns) == CapOf(allowances, ns)
  {
    caps := map[];
    for i := 0 to |allowances|
      invariant forall ns :: Lookup(caps, ns) == CapOf(allowances[..i], ns)
    {
      assert allowances[..i + 1][..i] == allowances[..i];
      caps := caps[allowances[i].namespace := allowances[i].max];
    }
    assert allowances[..|allowances|] == allowances;
  }

  /** The places of each namespace's claims. */
  ghost predicate Grouped(listed: seq<ClaimObject>, byNs: map<string, seq<int>>) {
    && (forall ns :: ns in byNs ==> ns != "" && byNs[ns] == PlacesOf(listed, ns))
    && (forall i :: 0 <= i < |listed| && listed[i].namespace != "" ==> listed[i].namespace in byNs)
  }

  function FirstPlace(byNs: map<string, seq<int>>, ns: string): int {
    if ns in byNs && byNs[ns] != [] then byNs[ns][0] else -1
  }

  /** The namespaces, once each, in order of first appearance. */
  ghost predicate Keyed(order: seq<string>, byNs: map<string, seq<int>>) {
    && (forall ns :: ns in order <==> ns in byNs)
    && (forall j, k :: 0 <= j < k < |order| ==> order[j] != order[k])
    && (forall ns :: ns in byNs ==> byNs[ns] != [])
    && (forall j, k :: 0 <= j < k < |order| ==> FirstPlace(byNs, order[j]) < FirstPlace(byNs, order[k]))
  }

  method FindReady(conditions: seq<Condition>) returns (cur: Option<Condition>)
    ensures cur == ReadyCondition(conditions)
  {
    var i := 0;
    while i < |conditions|
      invariant i <= |conditions| && ReadyCondition(conditions) == ReadyCondition(conditions[i..])
    {
      if conditions[i].kind == "Ready" {
        return Some(conditions[i]);
      }
      i := i + 1;
    }
    cur := None;
  }

  /** The claims of a namespace as the fold takes them. */
  method ToLites(listed: seq<ClaimObject>, places: seq<int>) returns (lites: seq<ClaimLite>)
    requires forall k :: 0 <= k < |places| ==> 0 <= places[k] < |listed|
    ensures lites == Lites(listed, places)
  {
    lites := [];
    for k := 0 to |places|
      invariant |lites| == k && forall j :: 0 <= j < k ==> lites[j] == Lite(listed[places[j]])
    {
      var o := listed[places[k]];
      lites := lites + [ClaimLite(o.name, if o.budget.None? then 0.0 else o.budget.value, o.created)];
    }
  }

  lemma GroupOne(listed: seq<ClaimObject>, i: nat, ns: string)
    requires i < |listed|
    ensures PlacesOf(listed[..i + 1], ns)
         == if listed[i].namespace == ns then PlacesOf(listed[..i], ns) + [i] else PlacesOf(listed[..i], ns)
  {
    assert listed[..i + 1][..i] == listed[..i];
  }

  lemma NoPlaces(listed: seq<ClaimObject>, ns: string)
    requires forall i :: 0 <= i < |listed| ==> listed[i].namespace != ns
    ensures PlacesOf(listed, ns) == []
  {
  }

  /** Taking one more claim into the groups. */
  function Joined(byNs: map<string, seq<int>>, ns: string, i: int): map<string, seq<int>> {
    if ns == "" then byNs else byNs[ns := (if ns in byNs then byNs[ns] else []) + [i]]
  }

  lemma GroupNext(listed: seq<ClaimObject>, i: nat, byNs: map<string, seq<int>>)
    requires i < |listed| && Grouped(listed[..i], byNs)
    ensures Grouped(listed[..i + 1], Joined(byNs, listed[i].namespace, i))
  {
    var ns := listed[i].namespace;
    var next := Joined(byNs, ns, i);
    if ns != "" && ns !in byNs {
      NoPlaces(listed[..i], ns);
    }
    forall n | n in next ensures n != "" && next[n] == PlacesOf(listed[..i + 1], n) {
      GroupOne(listed, i, n);
    }
  }

  lemma FirstPlaceNext(byNs: map<string, seq<int>>, ns: string, i: int, n: string)
    requires ns != "" && forall m :: m in byNs ==> byNs[m] != []
    ensures FirstPlace(Joined(byNs, ns, i), n) == if n == ns && ns !in byNs then i else FirstPlace(byNs, n)
  {
  }

  lemma KeyedNext(order: seq<string>, byNs: map<string, seq<int>>, ns: string, i: int)
    requires Keyed(order, byNs) && ns != ""
    requires forall n :: n in byNs ==> FirstPlace(byNs, n) < i
    ensures Keyed(if ns in byNs then order else order + [ns], Joined(byNs, ns, i))
  {
    var next, longer := Joined(byNs, ns, i), if ns in byNs then order else order + [ns];
    forall j, k | 0 <= j < k < |longer|
      ensures longer[j] != longer[k] && FirstPlace(next, longer[j]) < FirstPlace(next, longer[k])
    {
      FirstPlaceNext(byNs, ns, i, longer[j]);
      FirstPlaceNext(byNs, ns, i, longer[k]);
      assert longer[j] == order[j] && order[j] in byNs;
    }
  }

  lemma EarlierPlaces(listed: seq<ClaimObject>, byNs: map<string, seq<int>>, i: nat)
    requires i < |listed| && Grouped(listed[..i], byNs)
    ensures forall n :: n in byNs ==> FirstPlace(byNs, n) < i
  {
  }

  /** A claim joins its namespace's group, or begins one. */
  method Join(order: seq<string>, byNs: map<string, seq<int>>, ns: string, i: int)
    returns (order': seq<string>, byNs': map<string, seq<int>>)
    requires ns != ""
    ensures order' == (if ns in byNs then order else order + [ns]) && byNs' == Joined(byNs, ns, i)
  {
    if ns in byNs {
      order', byNs' := order, byNs[ns := byNs[ns] + [i]];
    } else {
      assert [] + [i] == [i];
      order', byNs' := order + [ns], byNs[ns := [i]];
    }
  }

  method GroupByNamespace(listed: seq<ClaimObject>) returns (order: seq<string>, byNs: map<string, seq<int>>)
    ensures Grouped(listed, byNs) && Keyed(order, byNs)
  {
    order, byNs := [], map[];
    for i := 0 to |listed|
      invariant Grouped(listed[..i], byNs) && Keyed(order, byNs)
    {
      var ns := listed[i].namespace;
      GroupNext(listed, i, byNs);
      if ns == "" {
        continue;
      }
      EarlierPlaces(listed, byNs, i);
      KeyedNext(order, byNs, ns, i);
      order, byNs := Join(order, byNs, ns, i);
    }
    assert listed[..|listed|] == listed;
  }

  function Elements(places: seq<int>): set<int> {
    set k | k in places
  }

  ghost predicate Increasing(places: seq<int>, bound: int) {
    && (forall k :: 0 <= k < |places| ==> 0 <= places[k] < bound)
    && (forall j, k :: 0 <= j < k < |places| ==> places[j] < places[k])
  }

  lemma ElementsOneMore(places: seq<int>, k: nat, done: set<int>)
    requires k < |places|
    ensures done + Elements(places[..k + 1]) == done + Elements(places[..k]) + {places[k]}
  {
    assert places[..k + 1] == places[..k] + [places[k]];
  }

  lemma NotYet(places: seq<int>, k: nat, bound: int)
    requires k < |places| && Increasing(places, bound)
    ensures places[k] !in Elements(places[..k])
  {
  }

  lemma PlansOf(listed: seq<ClaimObject>, allowances: seq<Allowance>, ns: string)
    requires ns != ""
    ensures Increasing(PlacesOf(listed, ns), |listed|)
    ensures forall k :: 0 <= k < |PlacesOf(listed, ns)| ==>
              Plan(listed, allowances)[PlacesOf(listed, ns)[k]]
              == DueBy(listed[PlacesOf(listed, ns)[k]], Evaluated(Lites(listed, PlacesOf(listed, ns)), CapOf(allowances, ns)))
  {
    PlacesAre(listed, ns);
  }

  /** Exactly the places of these namespaces' claims. */
  ghost predicate Covers(listed: seq<ClaimObject>, namespaces: seq<string>, done: set<int>) {
    forall i :: i in done <==> 0 <= i < |listed| && listed[i].namespace in namespaces
  }

  lemma CoverOne(listed: seq<ClaimObject>, order: seq<string>, n: nat, done: set<int>)
    requires n < |order| && Covers(listed, order[..n], done)
    requires forall j, k :: 0 <= j < k < |order| ==> order[j] != order[k]
    ensures Covers(listed, order[..n + 1], done + Elements(PlacesOf(listed, order[n])))
    ensures forall k :: 0 <= k < |PlacesOf(listed, order[n])| ==> PlacesOf(listed, order[n])[k] !in done
  {
    PlacesAre(listed, order[n]);
    assert order[..n + 1] == order[..n] + [order[n]];
  }

  /** Claims without a namespace are never due, so seeing to the namespaces is seeing to all. */
  lemma AllSeen(before: seq<ClaimObject>, allowances: seq<Allowance>, after: seq<ClaimObject>, writes: seq<Write>, done: set<int>)
    requires SeenTo(before, after, Plan(before, allowances), writes, done)
    requires forall i :: i in done ==> 0 <= i < |before|
    requires forall i :: 0 <= i < |before| && i !in done ==> before[i].namespace == ""
    ensures Pass(before, after, Plan(before, allowances), writes)
  {
    PlacesHas(|before|);
  }

  class Cluster {
    var objects: seq<ClaimObject>
    var log: seq<Write>
    const rejects: nat -> bool

    /** The log records what the server did. */
    ghost predicate Valid()
      reads this
    {
      forall k: nat :: k < |log| ==> log[k].ok == !rejects(k)
    }

    constructor (objects: seq<ClaimObject>, rejects: nat -> bool)
      ensures Valid() && this.objects == objects && this.rejects == rejects && log == []
    {
      this.objects, this.rejects, log := objects, rejects, [];
    }

    /** The API server's status subresource; the k-th write is lost when `rejects(k)`. */
    method ReplaceStatus(place: int, body: ClaimObject) returns (ok: bool)
      requires Valid() && 0 <= place < |objects|
      modifies this
      ensures Valid() && ok == !rejects(|old(log)|) && log == old(log) + [Write(place, ok)]
      ensures objects == if ok then old(objects)[place := body] else old(objects)
    {
      ok := !rejects(|log|);
      log := log + [Write(place, ok)];
      if ok {
        objects := objects[place := body];
      }
    }

    /** One claim: converged ones are left alone, a failed write is only logged. */
    method ReconcileClaim(listed: seq<ClaimObject>, place: int, verdicts: map<Name, Verdict>,
                          ghost plan: seq<Option<ClaimObject>>, ghost done: set<int>, ghost base: nat)
      requires 0 <= place < |listed| == |plan| && place !in done && plan[place] == DueBy(listed[place], verdicts)
      requires Valid() && base <= |log| && SeenTo(listed, objects, plan, log[base..], done)
      modifies this
      ensures Valid() && old(log) <= log && SeenTo(listed, objects, plan, log[base..], done + {place})
    {
      var o := listed[place];
      if o.name !in verdicts {
        SeeToIdle(listed, objects, plan, log[base..], done, place);
        return;
      }
      var v := verdicts[o.name];
      var desired := Condition("Ready", if v.ready then "True" else "False", v.reason, v.message, o.generation);
      var cur := FindReady(o.conditions);
      if cur.Some? && cur.value.status == desired.status && cur.value.reason == desired.reason && cur.value.message == desired.message {
        SeeToIdle(listed, objects, plan, log[base..], done, place);
        return;
      }
      ghost var was, writes := objects, log[base..];
      var ok := ReplaceStatus(place, o.(conditions := [desired]));
      assert log[base..] == writes + [Write(place, ok)];
      SeeToOne(listed, was, plan, writes, done, place, ok);
    }

    /** One namespace's claims, in list order. */
    method ReconcileNamespace(listed: seq<ClaimObject>, places: seq<int>, cap: Option<real>,
                              ghost plan: seq<Option<ClaimObject>>, ghost done: set<int>, ghost base: nat)
      requires |plan| == |listed| && Increasing(places, |listed|)
      requires forall k :: 0 <= k < |places| ==> places[k] !in done
      requires forall k :: 0 <= k < |places| ==> plan[places[k]] == DueBy(listed[places[k]], Evaluated(Lites(listed, places), cap))
      requires Valid() && base <= |log| && SeenTo(listed, objects, plan, log[base..], done)
      modifies this
      ensures Valid() && old(log) <= log && SeenTo(listed, objects, plan, log[base..], done + Elements(places))
    {
      var lites := ToLites(listed, places);
      var verdicts := Evaluate(lites, cap);
      ghost var seen := done;
      for k := 0 to |places|
        invariant seen == done + Elements(places[..k])
        invariant Valid() && old(log) <= log && SeenTo(listed, objects, plan, log[base..], seen)
      {
        NotYet(places, k, |listed|);
        ReconcileClaim(listed, places[k], verdicts, plan, seen, base);
        ElementsOneMore(places, k, done);
        seen := seen + {places[k]};
      }
      assert places[..|places|] == places;
    }

    /**
     * One pass over all namespaces. Every claim whose Ready condition is not at its verdict is written
     * once, no other claim is, and the claims that change are those whose write was taken.
     */
    method ReconcileOnce(allowances: seq<Allowance>)
      requires Valid()
      modifies this
      ensures Valid() && old(log) <= log
      ensures Pass(old(objects), objects, Plan(old(objects), allowances), log[|old(log)|..])
    {
      var listed := objects;
      ghost var plan, base, done := Plan(listed, allowances), |log|, {};
      var caps := CapByNamespace(allowances);
      var order, byNs := GroupByNamespace(listed);
      for n := 0 to |order|
        invariant Valid() && old(log) <= log && SeenTo(listed, objects, plan, log[base..], done)
        invariant Covers(listed, order[..n], done)
      {
        var ns := order[n];
        assert ns in order;
        PlansOf(listed, allowances, ns);
        CoverOne(listed, order, n, done);
        ReconcileNamespace(listed, byNs[ns], Lookup(caps, ns), plan, done, base);
        done := done + Elements(byNs[ns]);
      }
      assert order[..|order|] == order;
      AllSeen(listed, allowances, objects, log[base..], done);
    }
  }

  // ----- convergence ---------------------------------------------------------------------------------

  /** Everything about a claim but its conditions. */
  function Spec(o: ClaimObject): ClaimObject {
    o.(conditions := [])
  }

  ghost predicate SameSpecs(a: seq<ClaimObject>, b: seq<ClaimObject>) {
    |a| == |b| && forall i :: 0 <= i < |a| ==> Spec(a[i]) == Spec(b[i])
  }

  lemma {:induction false} SamePlaces(a: seq<ClaimObject>, b: seq<ClaimObject>, ns: string)
    requires SameSpecs(a, b)
    ensures PlacesOf(a, ns) == PlacesOf(b, ns)
  {
    if a != [] {
      var n := |a| - 1;
      assert Spec(a[n]) == Spec(b[n]);
      forall i | 0 <= i < n ensures Spec(a[..n][i]) == Spec(b[..n][i]) {
        assert Spec(a[i]) == Spec(b[i]);
      }
      SamePlaces(a[..n], b[..n], ns);
    }
  }

  lemma SameVerdicts(a: seq<ClaimObject>, b: seq<ClaimObject>, allowances: seq<Allowance>, ns: string)
    requires SameSpecs(a, b)
    ensures Verdicted(a, allowances, ns) == Verdicted(b, allowances, ns)
  {
    SamePlaces(a, b, ns);
    var places := PlacesOf(a, ns);
    forall k | 0 <= k < |places| ensures Lite(a[places[k]]) == Lite(b[places[k]]) {
      assert Spec(a[places[k]]) == Spec(b[places[k]]);
    }
    assert Lites(a, places) == Lites(b, places);
  }

  lemma PassKeepsSpecs(before: seq<ClaimObject>, after: seq<ClaimObject>, allowances: seq<Allowance>, writes: seq<Write>)
    requires Pass(before, after, Plan(before, allowances), writes)
    ensures SameSpecs(before, after)
  {
    var plan := Plan(before, allowances);
    forall i | 0 <= i < |before| ensures Spec(before[i]) == Spec(after[i]) {
      assert plan[i] == Due(before, allowances, i);
    }
  }

  /** What is written: one condition, saying whether the claims up to this one fit the allowance. */
  lemma WrittenSays(o: ClaimObject, sorted: seq<ClaimLite>, cap: real, k: nat)
    requires DistinctNames(sorted) && k < |sorted| && sorted[k].name == o.name
    requires DueBy(o, Verdicts(sorted, cap)).Some?
    ensures var written := DueBy(o, Verdicts(sorted, cap)).value;
            && Spec(written) == Spec(o) && |written.conditions| == 1
            && written.conditions[0].kind == "Ready" && written.conditions[0].observed == o.generation
            && written.conditions[0].status == if Total(sorted[..k + 1]) <= cap then "True" else "False"
  {
    VerdictAt(sorted, cap, k);
  }

  /** A write settles its claim. */
  lemma WrittenIsConverged(o: ClaimObject, verdicts: map<Name, Verdict>)
    requires DueBy(o, verdicts).Some?
    ensures DueBy(DueBy(o, verdicts).value, verdicts) == None
  {
  }

  /** After a pass a claim is due exactly when its write was lost. */
  lemma DueAfterPass(before: seq<ClaimObject>, after: seq<ClaimObject>, allowances: seq<Allowance>, writes: seq<Write>, i: int)
    requires Pass(before, after, Plan(before, allowances), writes) && 0 <= i < |before|
    ensures Due(after, allowances, i) == if Write(i, false) in writes then Due(before, allowances, i) else None
  {
    var plan := Plan(before, allowances);
    PlacesHas(|before|);
    PassKeepsSpecs(before, after, allowances, writes);
    assert plan[i] == Due(before, allowances, i) && Spec(before[i]) == Spec(after[i]);
    var ns := before[i].namespace;
    if ns != "" {
      SameVerdicts(before, after, allowances, ns);
      if Write(i, true) in writes && plan[i].Some? {
        WrittenIsConverged(before[i], Verdicted(before, allowances, ns));
        NotBoth(writes, i);
      }
    }
  }

  lemma NotBoth(writes: seq<Write>, i: int)
    requires forall j, k :: 0 <= j < k < |writes| ==> writes[j].place != writes[k].place
    requires Write(i, true) in writes
    ensures Write(i, false) !in writes
  {
  }

  /** Over the same claims in the same order, a second pass writes exactly what the first one lost. */
  lemma SecondPassRetries(before: seq<ClaimObject>, between: seq<ClaimObject>, after: seq<ClaimObject>, allowances: seq<Allowance>,
                          first: seq<Write>, second: seq<Write>, i: int)
    requires Pass(before, between, Plan(before, allowances), first)
    requires Pass(between, after, Plan(between, allowances), second)
    requires 0 <= i < |before|
    ensures Write(i, true) in second || Write(i, false) in second <==> Write(i, false) in first
  {
    PlacesHas(|before|);
    DueAfterPass(before, between, allowances, first, i);
    assert Plan(between, allowances)[i] == Due(between, allowances, i);
    assert Plan(before, allowances)[i] == Due(before, allowances, i);
  }

  /** Once every write of a pass was taken, the next pass writes nothing. */
  lemma Converges(before: seq<ClaimObject>, between: seq<ClaimObject>, after: seq<ClaimObject>, allowances: seq<Allowance>,
                  first: seq<Write>, second: seq<Write>)
    requires Pass(before, between, Plan(before, allowances), first)
    requires Pass(between, after, Plan(between, allowances), second)
    requires forall k :: 0 <= k < |first| ==> first[k].ok
    ensures second == [] && after == between
  {
    if second != [] {
      var i := second[0].place;
      assert Write(i, true) in second || Write(i, false) in second by {
        assert second[0] in second;
      }
      SecondPassRetries(before, between, after, allowances, first, second, i);
      assert false;
    }
  }
}
