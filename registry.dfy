/**
 * The process-wide demo registry: every demo descriptor adds itself on
 * construction, in the position the alphabetic sorter gives it, and removes
 * itself on destruction.
 */
module DemoRegistry {
  import opened Wrappers
  import opened Text

  /** A demo descriptor: the identity of the object (its address) and its canonical name. */
  datatype Descriptor = Descriptor(id: nat, name: string)

  /** The order AlphabeticDemoSorter keeps: names ascending under Compare, ties allowed. */
  predicate Sorted(s: seq<Descriptor>)
  {
    forall i, j :: 0 <= i < j < |s| ==> Compare(s[i].name, s[j].name) <= 0
  }

  /** No descriptor object appears twice. */
  predicate DistinctIds(s: seq<Descriptor>)
  {
    forall i, j :: 0 <= i < j < |s| ==> s[i].id != s[j].id
  }

  /** p is a place where a descriptor called name can go without breaking the order. */
  predicate IsSortedPosition(s: seq<Descriptor>, p: int, name: string)
  {
    0 <= p <= |s|
    && (forall i :: 0 <= i < p ==> Compare(s[i].name, name) <= 0)
    && (forall i :: p <= i < |s| ==> Compare(name, s[i].name) <= 0)
  }

  /** The array's operator[]: the entry at row, or null when row is out of range. */
  function EntryAt(s: seq<Descriptor>, row: int): (r: Option<Descriptor>)
    ensures r.Some? <==> 0 <= row < |s|
    ensures r.Some? ==> r.value == s[row]
  {
    if 0 <= row < |s| then Some(s[row]) else None
  }

  /** Inserting at a sorted position keeps the registry sorted. */
  lemma InsertAtSortedPosition(s: seq<Descriptor>, p: int, d: Descriptor)
    requires Sorted(s) && IsSortedPosition(s, p, d.name)
    ensures Sorted(s[..p] + [d] + s[p..])
  {
    var t := s[..p] + [d] + s[p..];
    forall i, j | 0 <= i < j < |t|
      ensures Compare(t[i].name, t[j].name) <= 0
    {
      if j < p {
        assert t[i] == s[i] && t[j] == s[j];
      } else if j == p {
        assert t[i] == s[i];
      } else if i < p {
        assert t[i] == s[i] && t[j] == s[j - 1];
      } else if i == p {
        assert t[j] == s[j - 1];
      } else {
        assert t[i] == s[i - 1] && t[j] == s[j - 1];
      }
    }
  }

  /** Inserting d at p adds exactly one element, d, which sits at p. */
  lemma InsertAtCounts(s: seq<Descriptor>, p: int, d: Descriptor)
    requires 0 <= p <= |s|
    ensures |s[..p] + [d] + s[p..]| == |s| + 1 && (s[..p] + [d] + s[p..])[p] == d
    ensures multiset(s[..p] + [d] + s[p..]) == multiset(s) + multiset{d}
  {
    assert s == s[..p] + s[p..];
  }

  /** Inserting an object not yet present keeps every object unique. */
  lemma InsertFreshKeepsDistinct(s: seq<Descriptor>, p: int, d: Descriptor)
    requires DistinctIds(s) && 0 <= p <= |s|
    requires forall i :: 0 <= i < |s| ==> s[i].id != d.id
    ensures DistinctIds(s[..p] + [d] + s[p..])
  {
    var t := s[..p] + [d] + s[p..];
    forall i, j | 0 <= i < j < |t|
      ensures t[i].id != t[j].id
    {
      if j < p {
        assert t[i] == s[i] && t[j] == s[j];
      } else if j == p {
        assert t[i] == s[i];
      } else if i < p {
        assert t[i] == s[i] && t[j] == s[j - 1];
      } else if i == p {
        assert t[j] == s[j - 1];
      } else {
        assert t[i] == s[i - 1] && t[j] == s[j - 1];
      }
    }
  }

  /**
   * Binary search for the place a new descriptor called name goes: after every
   * entry whose name is not greater, before every entry whose name is greater.
   */
  method FindInsertIndex(s: seq<Descriptor>, name: string) returns (p: nat)
    requires Sorted(s)
    ensures IsSortedPosition(s, p, name)
    ensures forall i :: p <= i < |s| ==> Compare(name, s[i].name) < 0
  {
    var lo, hi := 0, |s|;
    while lo < hi
      invariant 0 <= lo <= hi <= |s|
      invariant forall i :: 0 <= i < lo ==> Compare(s[i].name, name) <= 0
      invariant forall i :: hi <= i < |s| ==> Compare(name, s[i].name) < 0
      decreases hi - lo
    {
      var mid := (lo + hi) / 2;
      if Compare(name, s[mid].name) >= 0 {
        CompareAntisymmetric(name, s[mid].name);
        forall i | 0 <= i <= mid
          ensures Compare(s[i].name, name) <= 0
        {
          if i < mid {
            CompareTransitive(s[i].name, s[mid].name, name);
          }
        }
        lo := mid + 1;
      } else {
        forall i | mid <= i < |s|
          ensures Compare(name, s[i].name) < 0
        {
          if mid < i {
            CompareStrictTransitive(name, s[mid].name, s[i].name);
          }
        }
        hi := mid;
      }
    }
    p := lo;
  }

  /** The position of the first entry for object id, or -1. */
  function FirstIndexOfId(s: seq<Descriptor>, id: nat): (k: int)
    ensures -1 <= k < |s|
    ensures k == -1 <==> forall i :: 0 <= i < |s| ==> s[i].id != id
    ensures 0 <= k ==> s[k].id == id && forall i :: 0 <= i < k ==> s[i].id != id
  {
    if s == [] then -1
    else if s[0].id == id then 0
    else
      var k := FirstIndexOfId(s[1..], id);
      if k < 0 then -1 else k + 1
  }

  /** Array::removeFirstMatchingValue: drop the first entry for object id, if any. */
  function RemoveFirst(s: seq<Descriptor>, id: nat): (r: seq<Descriptor>)
    ensures |r| == (if FirstIndexOfId(s, id) < 0 then |s| else |s| - 1)
  {
    if s == [] then []
    else if s[0].id == id then s[1..]
    else [s[0]] + RemoveFirst(s[1..], id)
  }

  /** Without an entry for id, removal changes nothing. */
  lemma {:induction false} RemoveFirstAbsent(s: seq<Descriptor>, id: nat)
    requires forall i :: 0 <= i < |s| ==> s[i].id != id
    ensures RemoveFirst(s, id) == s
  {
    if s != [] {
      assert s[0].id != id;
      RemoveFirstAbsent(s[1..], id);
      assert [s[0]] + s[1..] == s;
    }
  }

  /** When k holds the first entry for id, removal cuts out position k. */
  lemma {:induction false} RemoveFirstAt(s: seq<Descriptor>, id: nat, k: int)
    requires 0 <= k < |s| && s[k].id == id
    requires forall i :: 0 <= i < k ==> s[i].id != id
    ensures RemoveFirst(s, id) == s[..k] + s[k + 1..]
  {
    if k > 0 {
      assert s[0].id != id;
      var t := s[1..];
      assert t[k - 1] == s[k];
      RemoveFirstAt(t, id, k - 1);
      assert [s[0]] + (t[..k - 1] + t[k..]) == s[..k] + s[k + 1..];
    }
  }

  /** Removal cuts out exactly the first entry for id, and leaves a list without one unchanged. */
  lemma RemoveFirstCuts(s: seq<Descriptor>, id: nat)
    ensures FirstIndexOfId(s, id) < 0 ==> RemoveFirst(s, id) == s
    ensures 0 <= FirstIndexOfId(s, id) ==>
      RemoveFirst(s, id) == s[..FirstIndexOfId(s, id)] + s[FirstIndexOfId(s, id) + 1..]
  {
    var k := FirstIndexOfId(s, id);
    if k < 0 {
      RemoveFirstAbsent(s, id);
    } else {
      RemoveFirstAt(s, id, k);
    }
  }

  /** When the object is present, removal takes away exactly one copy of its first entry. */
  lemma {:induction false} RemoveFirstMultiset(s: seq<Descriptor>, id: nat)
    requires 0 <= FirstIndexOfId(s, id)
    ensures multiset(RemoveFirst(s, id)) == multiset(s) - multiset{s[FirstIndexOfId(s, id)]}
  {
    var k := FirstIndexOfId(s, id);
    RemoveFirstCuts(s, id);
    var t := RemoveFirst(s, id);
    assert t == s[..k] + s[k + 1..];
    assert s == s[..k] + [s[k]] + s[k + 1..];
    assert multiset(s) == multiset(s[..k]) + multiset{s[k]} + multiset(s[k + 1..]);
    assert multiset(t) == multiset(s[..k]) + multiset(s[k + 1..]);
  }

  /** Position i of s with position k cut out is position i, or i + 1 from k on, of s. */
  lemma CutIndex(s: seq<Descriptor>, k: int, i: int)
    requires 0 <= k < |s| && 0 <= i < |s| - 1
    ensures (s[..k] + s[k + 1..])[i] == s[if i < k then i else i + 1]
  {
  }

  /** Removal keeps the registry sorted. */
  lemma {:induction false} RemoveFirstKeepsSorted(s: seq<Descriptor>, id: nat)
    requires Sorted(s)
    ensures Sorted(RemoveFirst(s, id))
  {
    var k := FirstIndexOfId(s, id);
    RemoveFirstCuts(s, id);
    if 0 <= k {
      var t := s[..k] + s[k + 1..];
      forall i, j | 0 <= i < j < |t|
        ensures Compare(t[i].name, t[j].name) <= 0
      {
        CutIndex(s, k, i);
        CutIndex(s, k, j);
      }
      assert RemoveFirst(s, id) == t;
    }
  }

  /** Removal keeps every object unique. */
  lemma {:induction false} RemoveFirstKeepsDistinct(s: seq<Descriptor>, id: nat)
    requires DistinctIds(s)
    ensures DistinctIds(RemoveFirst(s, id))
  {
    var k := FirstIndexOfId(s, id);
    RemoveFirstCuts(s, id);
    if 0 <= k {
      var t := s[..k] + s[k + 1..];
      forall i, j | 0 <= i < j < |t|
        ensures t[i].id != t[j].id
      {
        CutIndex(s, k, i);
        CutIndex(s, k, j);
      }
      assert RemoveFirst(s, id) == t;
    }
  }

  /** With every object unique, no entry for the removed object is left behind. */
  lemma {:induction false} RemoveFirstRemovesAll(s: seq<Descriptor>, id: nat)
    requires DistinctIds(s)
    ensures FirstIndexOfId(RemoveFirst(s, id), id) == -1
  {
    var k := FirstIndexOfId(s, id);
    RemoveFirstCuts(s, id);
    if 0 <= k {
      var t := s[..k] + s[k + 1..];
      forall i | 0 <= i < |t|
        ensures t[i].id != id
      {
        CutIndex(s, k, i);
      }
      assert RemoveFirst(s, id) == t;
    }
  }

  /** Destroying a descriptor undoes its registration. */
  lemma {:induction false} RemoveUndoesInsert(s: seq<Descriptor>, p: int, d: Descriptor)
    requires 0 <= p <= |s|
    requires forall i :: 0 <= i < |s| ==> s[i].id != d.id
    ensures RemoveFirst(s[..p] + [d] + s[p..], d.id) == s
  {
    var t := s[..p] + [d] + s[p..];
    assert t[p] == d;
    assert forall i :: 0 <= i < p ==> t[i] == s[i];
    assert FirstIndexOfId(t, d.id) == p;
    RemoveFirstCuts(t, d.id);
    assert t[..p] == s[..p] && t[p + 1..] == s[p..];
    assert s == s[..p] + s[p..];
  }

  /** The registry: the static Array of descriptor pointers that getDemoTypeList returns. */
  class Registry {
    var entries: seq<Descriptor>

    ghost predicate Valid()
      reads this
    {
      Sorted(entries)
    }

    /** The list starts empty on first use. */
    constructor ()
      ensures Valid() && entries == []
    {
      entries := [];
    }

    /** JuceDemoTypeBase's constructor: addSorted with the alphabetic sorter. */
    method Insert(d: Descriptor)
      requires Valid()
      modifies this
      ensures Valid()
      ensures exists p :: IsSortedPosition(old(entries), p, d.name)
                          && entries == old(entries)[..p] + [d] + old(entries)[p..]
      ensures |entries| == |old(entries)| + 1 && d in entries
      ensures multiset(entries) == multiset(old(entries)) + multiset{d}
      ensures DistinctIds(old(entries)) && (forall i :: 0 <= i < |old(entries)| ==> old(entries)[i].id != d.id)
              ==> DistinctIds(entries)
    {
      var p := FindInsertIndex(entries, d.name);
      InsertAtSortedPosition(entries, p, d);
      if DistinctIds(entries) && (forall i :: 0 <= i < |entries| ==> entries[i].id != d.id) {
        InsertFreshKeepsDistinct(entries, p, d);
      }
      InsertAtCounts(entries, p, d);
      entries := entries[..p] + [d] + entries[p..];
    }

    /** JuceDemoTypeBase's destructor: removeFirstMatchingValue (this). */
    method Remove(id: nat)
      requires Valid()
      modifies this
      ensures Valid()
      ensures entries == RemoveFirst(old(entries), id)
    {
      RemoveFirstKeepsSorted(entries, id);
      entries := RemoveFirst(entries, id);
    }
  }
}
