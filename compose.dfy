/** Composition of layer groups: the groups are concatenated in the order
    given and each group keeps its own internal order; nothing is sorted,
    merged or dropped. */
module Compose {

  /** The concatenation of the groups, first group first. */
  function Flatten<T>(groups: seq<seq<T>>): seq<T>
  {
    if groups == [] then [] else groups[0] + Flatten(groups[1..])
  }

  /** The sum of the lengths of the groups. */
  function TotalLength<T>(groups: seq<seq<T>>): nat
  {
    if groups == [] then 0 else |groups[0]| + TotalLength(groups[1..])
  }

  /** Where group `i` starts in the flattened sequence. */
  function Offset<T>(groups: seq<seq<T>>, i: nat): nat
    requires i <= |groups|
  {
    TotalLength(groups[..i])
  }

  /** Flattening keeps every layer: the result is as long as all groups together. */
  lemma {:induction false} FlattenLength<T>(groups: seq<seq<T>>)
    ensures |Flatten(groups)| == TotalLength(groups)
  {
    if groups != [] {
      FlattenLength(groups[1..]);
    }
  }

  /** Flattening distributes over concatenation of group lists. */
  lemma {:induction false} FlattenAppend<T>(a: seq<seq<T>>, b: seq<seq<T>>)
    ensures Flatten(a + b) == Flatten(a) + Flatten(b)
  {
    if a == [] {
      assert a + b == b;
    } else {
      assert (a + b)[0] == a[0];
      assert (a + b)[1..] == a[1..] + b;
      FlattenAppend(a[1..], b);
    }
  }

  /** Flattening a group list that starts with `g` starts with `g`. */
  lemma FlattenCons<T>(g: seq<T>, groups: seq<seq<T>>)
    ensures Flatten([g] + groups) == g + Flatten(groups)
  {
    assert ([g] + groups)[1..] == groups;
  }

  /** Each group appears whole and in its own order, starting at its offset. */
  lemma FlattenGroup<T>(groups: seq<seq<T>>, i: nat)
    requires i < |groups|
    ensures Offset(groups, i) + |groups[i]| <= |Flatten(groups)|
    ensures Flatten(groups)[Offset(groups, i)..Offset(groups, i) + |groups[i]|] == groups[i]
  {
    var before, after := groups[..i], groups[i + 1..];
    assert groups == before + [groups[i]] + after;
    FlattenAppend(before + [groups[i]], after);
    FlattenAppend(before, [groups[i]]);
    FlattenCons(groups[i], []);
    FlattenLength(before);
  }

  /** Groups follow one another: group `i + 1` starts where group `i` ends. */
  lemma OffsetNext<T>(groups: seq<seq<T>>, i: nat)
    requires i < |groups|
    ensures Offset(groups, i + 1) == Offset(groups, i) + |groups[i]|
  {
    assert groups[..i + 1] == groups[..i] + [groups[i]];
    FlattenAppend(groups[..i], [groups[i]]);
    FlattenCons(groups[i], []);
    FlattenLength(groups[..i]);
    FlattenLength(groups[..i + 1]);
  }

  /** A layer is in the flattened sequence exactly when it is in some group. */
  lemma {:induction false} FlattenMembers<T>(groups: seq<seq<T>>, x: T)
    ensures x in Flatten(groups) <==> exists i :: 0 <= i < |groups| && x in groups[i]
  {
    if groups != [] {
      FlattenMembers(groups[1..], x);
      if x in Flatten(groups[1..]) {
        var j :| 0 <= j < |groups[1..]| && x in groups[1..][j];
        assert x in groups[j + 1];
      }
      forall i | 0 < i < |groups| && x in groups[i]
        ensures x in Flatten(groups[1..])
      {
        assert groups[1..][i - 1] == groups[i];
      }
    }
  }
}
