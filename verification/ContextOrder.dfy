/** Request order in a runtime context: which call an Observation's sort key stands for, and
    what sorting does to a list that is already in order. */
module ContextOrder {
  import opened Observations
  import opened RuntimeContext
  import Lists

  function KeysOf(r: RawRound): seq<Key> {
    seq(|r.calls|, i requires 0 <= i < |r.calls| => (r.round, r.calls[i].id))
  }

  /** Every recorded call, in request order */
  function Flat(raw: seq<RawRound>): seq<Key> {
    if raw == [] then [] else Flat(raw[..|raw| - 1]) + KeysOf(raw[|raw| - 1])
  }

  /** Position of the earliest call among `ids` */
  function Earliest(flat: seq<Key>, ids: set<string>): (e: nat)
    ensures e <= |flat|
    ensures e < |flat| ==> flat[e].1 in ids
    ensures forall k | 0 <= k < e :: flat[k].1 !in ids
  {
    if flat == [] || flat[0].1 in ids then 0 else 1 + Earliest(flat[1..], ids)
  }

  lemma EarliestIs(flat: seq<Key>, ids: set<string>, e: nat)
    requires e < |flat| && flat[e].1 in ids && forall k | 0 <= k < e :: flat[k].1 !in ids
    ensures Earliest(flat, ids) == e
  {
  }

  /** Rank of an Observation: its earliest source call */
  function Rank(flat: seq<Key>, o: Observation): nat {
    Earliest(flat, SourceIds(o))
  }

  /** `order` numbers the calls of `flat` by position; identifiers are unique and rounds
      positive and non-decreasing. */
  ghost predicate Numbered(flat: seq<Key>, order: map<Key, nat>, next: nat) {
    && next == |flat|
    && (forall k | 0 <= k < |flat| :: flat[k] in order && order[flat[k]] == k)
    && (forall key | key in order :: order[key] < |flat| && flat[order[key]] == key)
    && (forall i, j | 0 <= i < j < |flat| :: flat[i].1 != flat[j].1 && flat[i].0 <= flat[j].0)
    && (forall k | 0 <= k < |flat| :: flat[k].0 >= 1)
  }

  /** An Observation starts at the round of its earliest source call. */
  predicate Sourced(flat: seq<Key>, o: Observation) {
    Rank(flat, o) < |flat| && flat[Rank(flat, o)].0 == SourceRound(o)
  }

  lemma {:induction false} MinOrderIs(flat: seq<Key>, order: map<Key, nat>, next: nat, round: int,
                                      ids: seq<string>, e: nat)
    requires Numbered(flat, order, next) && e < |flat| && flat[e].0 == round && flat[e].1 in ids
    requires forall k | 0 <= k < e :: flat[k].1 !in ids
    ensures MinOrder(order, next, round, ids) == e
  {
    MinOrderAtLeast(flat, order, next, round, ids, e);
    MinOrderAtMost(flat, order, next, round, ids, e);
  }

  lemma {:induction false} MinOrderAtLeast(flat: seq<Key>, order: map<Key, nat>, next: nat, round: int,
                                           ids: seq<string>, e: nat)
    requires Numbered(flat, order, next) && e <= |flat|
    requires forall k | 0 <= k < e :: flat[k].1 !in ids
    ensures MinOrder(order, next, round, ids) >= e
  {
    if ids != [] {
      MinOrderAtLeast(flat, order, next, round, ids[1..], e);
      var key := (round, ids[0]);
      assert key in order ==> flat[order[key]].1 == ids[0] && ids[0] in ids;
    }
  }

  lemma {:induction false} MinOrderAtMost(flat: seq<Key>, order: map<Key, nat>, next: nat, round: int,
                                          ids: seq<string>, e: nat)
    requires Numbered(flat, order, next) && e < |flat| && flat[e].0 == round && flat[e].1 in ids
    ensures MinOrder(order, next, round, ids) <= e
  {
    assert order[flat[e]] == e;
    if ids[0] != flat[e].1 {
      assert ids == [ids[0]] + ids[1..];
      MinOrderAtMost(flat, order, next, round, ids[1..], e);
    } else {
      assert (round, ids[0]) == flat[e];
    }
  }

  /** The sort key of a sourced Observation is its rank. */
  lemma KeyIsRank(flat: seq<Key>, order: map<Key, nat>, next: nat, o: Observation)
    requires Numbered(flat, order, next) && Sourced(flat, o)
    ensures OrderKey(order, next, o) == (Rank(flat, o), SourceRound(o))
  {
    MinOrderIs(flat, order, next, SourceRound(o), SourceList(o), Rank(flat, o));
  }

  ghost predicate AllSourced(flat: seq<Key>, list: seq<Observation>) {
    forall i | 0 <= i < |list| :: Sourced(flat, list[i])
  }

  /** Strictly increasing rank */
  ghost predicate InOrder(flat: seq<Key>, list: seq<Observation>) {
    forall i, j | 0 <= i < j < |list| :: Rank(flat, list[i]) < Rank(flat, list[j])
  }

  lemma RanksCompare(flat: seq<Key>, order: map<Key, nat>, next: nat, a: Observation, b: Observation)
    requires Numbered(flat, order, next) && Sourced(flat, a) && Sourced(flat, b)
    requires Rank(flat, a) != Rank(flat, b)
    ensures ByOrder(order, next)(a, b) <==> Rank(flat, a) < Rank(flat, b)
  {
    KeyIsRank(flat, order, next, a);
    KeyIsRank(flat, order, next, b);
  }

  /** How many Observations of a list in order rank below `r` */
  lemma {:induction false} RankPosition(flat: seq<Key>, list: seq<Observation>, r: nat) returns (k: nat)
    requires InOrder(flat, list)
    ensures k <= |list|
    ensures forall i | 0 <= i < k :: Rank(flat, list[i]) < r
    ensures forall i | k <= i < |list| :: Rank(flat, list[i]) >= r
  {
    k := 0;
    while k < |list| && Rank(flat, list[k]) < r
      invariant k <= |list| && forall i | 0 <= i < k :: Rank(flat, list[i]) < r
    {
      k := k + 1;
    }
  }

  lemma OrderIsSorted(flat: seq<Key>, order: map<Key, nat>, next: nat, list: seq<Observation>)
    requires Numbered(flat, order, next) && AllSourced(flat, list) && InOrder(flat, list)
    ensures Lists.StrictlySorted(list, ByOrder(order, next))
  {
    forall i, j | 0 <= i < j < |list|
      ensures ByOrder(order, next)(list[i], list[j]) && !ByOrder(order, next)(list[j], list[i])
    {
      RanksCompare(flat, order, next, list[i], list[j]);
      RanksCompare(flat, order, next, list[j], list[i]);
    }
  }

  lemma RankSeparates(flat: seq<Key>, order: map<Key, nat>, next: nat, list: seq<Observation>, k: nat, o: Observation)
    requires Numbered(flat, order, next) && AllSourced(flat, list) && Sourced(flat, o) && k <= |list|
    requires forall i | 0 <= i < k :: Rank(flat, list[i]) < Rank(flat, o)
    requires forall i | k <= i < |list| :: Rank(flat, list[i]) > Rank(flat, o)
    ensures Lists.Separates(list, k, o, ByOrder(order, next))
  {
    forall i | 0 <= i < |list|
      ensures ByOrder(order, next)(list[i], o) <==> i < k
    {
      RanksCompare(flat, order, next, list[i], o);
    }
  }

  /** Putting `o` between the lower and the higher ranks keeps the order. */
  lemma InsertedInOrder(flat: seq<Key>, list: seq<Observation>, k: nat, o: Observation)
    requires InOrder(flat, list) && k <= |list|
    requires forall i | 0 <= i < k :: Rank(flat, list[i]) < Rank(flat, o)
    requires forall i | k <= i < |list| :: Rank(flat, list[i]) > Rank(flat, o)
    ensures InOrder(flat, list[..k] + [o] + list[k..])
  {
    var l := list[..k] + [o] + list[k..];
    assert forall i | 0 <= i < k :: l[i] == list[i];
    assert forall i | k < i < |l| :: l[i] == list[i - 1];
    forall i, j | 0 <= i < j < |l|
      ensures Rank(flat, l[i]) < Rank(flat, l[j])
    {
      var i', j' := if i < k then i else i - 1, if j < k then j else j - 1;
      if i != k && j != k {
        assert l[i] == list[i'] && l[j] == list[j'] && Rank(flat, list[i']) < Rank(flat, list[j']);
      }
    }
  }

  /** A new Observation is sorted to its place; the others stay in order around it. */
  lemma SortAppended(flat: seq<Key>, order: map<Key, nat>, next: nat, list: seq<Observation>, o: Observation)
    returns (k: nat)
    requires Numbered(flat, order, next) && AllSourced(flat, list) && Sourced(flat, o) && InOrder(flat, list)
    requires forall i | 0 <= i < |list| :: Rank(flat, list[i]) != Rank(flat, o)
    ensures k <= |list| && SortByOrder(order, next, list + [o]) == list[..k] + [o] + list[k..]
    ensures InOrder(flat, list[..k] + [o] + list[k..])
  {
    k := RankPosition(flat, list, Rank(flat, o));
    OrderIsSorted(flat, order, next, list);
    RankSeparates(flat, order, next, list, k, o);
    Lists.SortAppended(list, k, o, ByOrder(order, next));
    InsertedInOrder(flat, list, k, o);
  }

  // ----- Recording a round -----

  lemma NumberedAppend(flat: seq<Key>, order: map<Key, nat>, key: Key)
    requires Numbered(flat, order, |flat|) && key.0 >= 1
    requires forall k | 0 <= k < |flat| :: flat[k].0 <= key.0 && flat[k].1 != key.1
    ensures Numbered(flat + [key], order[key := |flat|], |flat| + 1)
  {
  }

  lemma KeysOfAppend(flat: seq<Key>, round: int, calls: seq<RawCall>, call: RawCall)
    ensures flat + KeysOf(RawRound(round, calls + [call])) == flat + KeysOf(RawRound(round, calls)) + [(round, call.id)]
  {
  }

  /** A batch that can be recorded after `flat`: new, distinct identifiers and no earlier round */
  predicate FreshBatch(flat: seq<Key>, round: int, calls: seq<RawCall>) {
    && round >= 1
    && (forall i, j | 0 <= i < j < |calls| :: calls[i].id != calls[j].id)
    && forall k | 0 <= k < |flat| :: flat[k].0 <= round && forall i | 0 <= i < |calls| :: calls[i].id != flat[k].1
  }

  lemma FreshCall(flat: seq<Key>, round: int, calls: seq<RawCall>, call: RawCall)
    requires FreshBatch(flat, round, calls + [call])
    ensures FreshBatch(flat, round, calls)
    ensures var before := flat + KeysOf(RawRound(round, calls));
      forall k | 0 <= k < |before| :: before[k].0 <= round && before[k].1 != call.id
  {
    var all := calls + [call];
    assert all[|calls|] == call;
    assert forall i | 0 <= i < |calls| :: all[i] == calls[i];
  }

  lemma OrderCallsStep(flat: seq<Key>, order: map<Key, nat>, round: int, front: seq<RawCall>, call: RawCall)
    requires FreshBatch(flat, round, front + [call])
    requires Numbered(flat + KeysOf(RawRound(round, front)), OrderCalls(order, |flat|, round, front), |flat| + |front|)
    ensures Numbered(flat + KeysOf(RawRound(round, front + [call])),
                     OrderCalls(order, |flat|, round, front + [call]), |flat| + |front| + 1)
  {
    assert (front + [call])[..|front|] == front;
    FreshCall(flat, round, front, call);
    KeysOfAppend(flat, round, front, call);
    NumberedAppend(flat + KeysOf(RawRound(round, front)), OrderCalls(order, |flat|, round, front), (round, call.id));
  }

  lemma {:induction false} OrderCallsNumbers(flat: seq<Key>, order: map<Key, nat>, round: int, calls: seq<RawCall>)
    requires Numbered(flat, order, |flat|) && FreshBatch(flat, round, calls)
    ensures Numbered(flat + KeysOf(RawRound(round, calls)), OrderCalls(order, |flat|, round, calls), |flat| + |calls|)
  {
    if calls == [] {
      assert flat + KeysOf(RawRound(round, calls)) == flat;
    } else {
      var front, call := calls[..|calls| - 1], calls[|calls| - 1];
      assert calls == front + [call];
      FreshCall(flat, round, front, call);
      OrderCallsNumbers(flat, order, round, front);
      OrderCallsStep(flat, order, round, front, call);
    }
  }

  /** Later calls do not change the rank of an Observation. */
  lemma RankKept(flat: seq<Key>, more: seq<Key>, o: Observation)
    requires Sourced(flat, o)
    ensures Rank(flat + more, o) == Rank(flat, o) && Sourced(flat + more, o)
  {
    EarliestIs(flat + more, SourceIds(o), Rank(flat, o));
  }
}
