/** The group-by the dashboard and the reports page draw their charts from:
    `reduce` into a dictionary of counts, then `Object.entries(...).map`.
    The dictionary keeps its keys in first-insertion order. */
module GroupBy {

  /** One `{ key, count }` entry. */
  datatype Group = Group(key: string, count: nat)

  /** The key occurs in some entry. */
  predicate HasKey(groups: seq<Group>, k: string) {
    exists i :: 0 <= i < |groups| && groups[i].key == k
  }

  /** No key occurs twice. */
  predicate DistinctKeys(groups: seq<Group>) {
    forall i, j :: 0 <= i < j < |groups| ==> groups[i].key != groups[j].key
  }

  /** `groups` is the group-by of `keys`: one entry per distinct key, each
      counting the key's occurrences, the counts adding up to `|keys|`. */
  ghost predicate GroupsOf(groups: seq<Group>, keys: seq<string>) {
    DistinctKeys(groups) &&
    (forall k :: HasKey(groups, k) <==> k in keys) &&
    (forall i :: 0 <= i < |groups| ==> groups[i].count == multiset(keys)[groups[i].key] >= 1) &&
    SumCounts(groups) == |keys|
  }

  function SumCounts(groups: seq<Group>): nat {
    if groups == [] then 0 else groups[0].count + SumCounts(groups[1..])
  }

  /** Entries with distinct keys, each counting its key's multiplicity in `m`
      and together covering `m`, add up to the size of `m`. */
  lemma {:induction false} SumOfMultiplicities(groups: seq<Group>, m: multiset<string>)
    requires DistinctKeys(groups)
    requires forall i :: 0 <= i < |groups| ==> groups[i].count == m[groups[i].key]
    requires forall x :: x in m ==> HasKey(groups, x)
    ensures SumCounts(groups) == |m|
    decreases |groups|
  {
    if groups == [] {
      assert forall x :: x !in m;
      assert m == multiset{};
    } else {
      var x := groups[0].key;
      var rest := m[x := 0];
      assert m == rest + multiset{}[x := m[x]];
      forall y | y in rest
        ensures HasKey(groups[1..], y)
      {
        var i :| 0 <= i < |groups| && groups[i].key == y;
        assert groups[1..][i - 1].key == y;
      }
      SumOfMultiplicities(groups[1..], rest);
    }
  }

  /** `keys.reduce((acc, k) => { acc[k] = (acc[k] || 0) + 1; return acc }, {})`
      followed by `Object.entries`: one entry per distinct key, in the order
      the keys first appear, counting the key's occurrences; the counts add
      up to the number of keys. `acc` is the dictionary, `order` its
      insertion order. */
  method Tally(keys: seq<string>) returns (groups: seq<Group>)
    ensures DistinctKeys(groups)
    ensures forall k :: HasKey(groups, k) <==> k in keys
    ensures forall i :: 0 <= i < |groups| ==> groups[i].count == multiset(keys)[groups[i].key] >= 1
    ensures SumCounts(groups) == |keys|
  {
    var acc: map<string, nat> := map[];
    var order: seq<string> := [];
    for n := 0 to |keys|
      invariant forall i, j :: 0 <= i < j < |order| ==> order[i] != order[j]
      invariant forall x :: x in acc <==> x in order
      invariant forall x :: x in acc <==> x in keys[..n]
      invariant forall x :: x in acc ==> acc[x] == multiset(keys[..n])[x]
    {
      var k := keys[n];
      assert keys[..n + 1] == keys[..n] + [k];
      if k in acc {
        acc := acc[k := acc[k] + 1];
      } else {
        acc := acc[k := 1];
        order := order + [k];
      }
    }
    assert keys[..|keys|] == keys;
    groups := Entries(order, acc);
    EntriesOfTally(keys, order, acc);
  }

  /** `Object.entries(acc)`, the keys in insertion order. */
  function Entries(order: seq<string>, acc: map<string, nat>): (groups: seq<Group>)
    requires forall x :: x in order ==> x in acc
    ensures |groups| == |order|
    ensures forall i :: 0 <= i < |order| ==> groups[i] == Group(order[i], acc[order[i]])
  {
    seq(|order|, i requires 0 <= i < |order| => Group(order[i], acc[order[i]]))
  }

  /** The entries of a finished tally have distinct keys, cover the keys and
      count each one's occurrences. */
  lemma EntriesOfTally(keys: seq<string>, order: seq<string>, acc: map<string, nat>)
    requires forall i, j :: 0 <= i < j < |order| ==> order[i] != order[j]
    requires forall x :: x in acc <==> x in order
    requires forall x :: x in acc <==> x in keys
    requires forall x :: x in acc ==> acc[x] == multiset(keys)[x]
    ensures var groups := Entries(order, acc);
      DistinctKeys(groups) &&
      (forall k :: HasKey(groups, k) <==> k in keys) &&
      (forall i :: 0 <= i < |groups| ==> groups[i].count == multiset(keys)[groups[i].key] >= 1) &&
      SumCounts(groups) == |keys|
  {
    var groups := Entries(order, acc);
    EntriesDistinct(order, acc);
    EntriesCover(keys, order, acc);
    EntriesCount(keys, order, acc);
    SumOfMultiplicities(groups, multiset(keys));
  }

  /** Entries built from an order that lists each key once have distinct keys. */
  lemma EntriesDistinct(order: seq<string>, acc: map<string, nat>)
    requires forall i, j :: 0 <= i < j < |order| ==> order[i] != order[j]
    requires forall x :: x in order ==> x in acc
    ensures DistinctKeys(Entries(order, acc))
  {
  }

  /** When the tally and the order hold exactly the input's keys, every input
      key has an entry and no other key does. */
  lemma EntriesCover(keys: seq<string>, order: seq<string>, acc: map<string, nat>)
    requires forall x :: x in acc <==> x in order
    requires forall x :: x in acc <==> x in keys
    ensures forall k :: HasKey(Entries(order, acc), k) <==> k in keys
  {
    var groups := Entries(order, acc);
    forall k | k in keys
      ensures HasKey(groups, k)
    {
      var i :| 0 <= i < |order| && order[i] == k;
      assert groups[i].key == k;
    }
  }

  /** When the tally counts each key's occurrences, every entry carries its
      key's count in the input, which is at least 1. */
  lemma EntriesCount(keys: seq<string>, order: seq<string>, acc: map<string, nat>)
    requires forall x :: x in acc <==> x in order
    requires forall x :: x in acc <==> x in keys
    requires forall x :: x in acc ==> acc[x] == multiset(keys)[x]
    ensures var groups := Entries(order, acc);
      forall i :: 0 <= i < |groups| ==> groups[i].count == multiset(keys)[groups[i].key] >= 1
  {
  }
}
