/** Ordered string-to-string association lists: the entries of a `URLSearchParams` and the
    own properties of a plain JavaScript object built from them (insertion order kept). */
module Assoc {
  import opened Wrappers

  type Entries = seq<(string, string)>

  /** `params.get(k)`: the value of the first entry named `k`. */
  function Lookup(e: Entries, k: string): Option<string>
  {
    if |e| == 0 then None
    else if e[0].0 == k then Some(e[0].1)
    else Lookup(e[1..], k)
  }

  /** The value of the last entry named `k`. */
  function LastLookup(e: Entries, k: string): Option<string>
  {
    if |e| == 0 then None
    else if e[|e| - 1].0 == k then Some(e[|e| - 1].1)
    else LastLookup(e[..|e| - 1], k)
  }

  /** `obj[k] = v` on an object: an existing property keeps its place and takes the new
      value; a new one goes at the end. */
  function Assign(e: Entries, k: string, v: string): Entries
  {
    if |e| == 0 then [(k, v)]
    else if e[0].0 == k then [(k, v)] + e[1..]
    else [e[0]] + Assign(e[1..], k, v)
  }

  /** `Object.fromEntries(e)`: the entries assigned one after the other. */
  function FromEntries(e: Entries): Entries
  {
    if |e| == 0 then []
    else Assign(FromEntries(e[..|e| - 1]), e[|e| - 1].0, e[|e| - 1].1)
  }

  /** No two entries share a name (true of every object's properties). */
  predicate DistinctKeys(e: Entries)
  {
    forall i, j :: 0 <= i < j < |e| ==> e[i].0 != e[j].0
  }

  /** After `obj[k] = v`, reading `k` gives `v` and every other name reads as before. */
  lemma {:induction false} AssignLookup(e: Entries, k: string, v: string, j: string)
    ensures Lookup(Assign(e, k, v), j) == if j == k then Some(v) else Lookup(e, j)
  {
    if |e| > 0 && e[0].0 != k {
      assert Assign(e, k, v)[1..] == Assign(e[1..], k, v);
      AssignLookup(e[1..], k, v, j);
    }
  }

  /** Assignment adds no entry other than the one assigned. */
  lemma {:induction false} AssignMembers(e: Entries, k: string, v: string)
    ensures forall x :: x in Assign(e, k, v) ==> x.0 == k || x in e
  {
    if |e| > 0 && e[0].0 != k {
      AssignMembers(e[1..], k, v);
      assert Assign(e, k, v) == [e[0]] + Assign(e[1..], k, v);
    }
  }

  /** In an object, the first name occurs nowhere after it. */
  lemma HeadKeyFresh(e: Entries)
    requires |e| > 0 && DistinctKeys(e)
    ensures forall x :: x in e[1..] ==> x.0 != e[0].0
  {
    forall x | x in e[1..] ensures x.0 != e[0].0 {
      var m :| 0 <= m < |e[1..]| && e[1..][m] == x;
      assert e[m + 1] == x;
    }
  }

  /** Assignment keeps the names of an object distinct. */
  lemma {:induction false} AssignDistinct(e: Entries, k: string, v: string)
    requires DistinctKeys(e)
    ensures DistinctKeys(Assign(e, k, v))
  {
    if |e| > 0 && e[0].0 != k {
      var tail := Assign(e[1..], k, v);
      assert DistinctKeys(e[1..]) by {
        forall i, j | 0 <= i < j < |e[1..]| ensures e[1..][i].0 != e[1..][j].0 {
          assert e[1..][i] == e[i + 1] && e[1..][j] == e[j + 1];
        }
      }
      AssignDistinct(e[1..], k, v);
      AssignMembers(e[1..], k, v);
      HeadKeyFresh(e);
      var r := Assign(e, k, v);
      assert r == [e[0]] + tail;
      forall i, j | 0 <= i < j < |r| ensures r[i].0 != r[j].0 {
        if i == 0 {
          assert r[j] == tail[j - 1] && r[j] in tail;
        } else {
          assert r[i] == tail[i - 1] && r[j] == tail[j - 1];
        }
      }
    }
  }

  /** `Object.fromEntries` keeps, for each name, the value of its LAST entry. */
  lemma {:induction false} FromEntriesLookup(e: Entries, k: string)
    ensures Lookup(FromEntries(e), k) == LastLookup(e, k)
  {
    if |e| > 0 {
      FromEntriesLookup(e[..|e| - 1], k);
      AssignLookup(FromEntries(e[..|e| - 1]), e[|e| - 1].0, e[|e| - 1].1, k);
    }
  }

  /** The object built by `Object.fromEntries` has distinct names. */
  lemma {:induction false} FromEntriesDistinct(e: Entries)
    ensures DistinctKeys(FromEntries(e))
  {
    if |e| > 0 {
      FromEntriesDistinct(e[..|e| - 1]);
      AssignDistinct(FromEntries(e[..|e| - 1]), e[|e| - 1].0, e[|e| - 1].1);
    }
  }

  /** An entry that `Lookup` finds is one of the entries. */
  lemma {:induction false} LookupFound(e: Entries, k: string)
    requires Lookup(e, k).Some?
    ensures (k, Lookup(e, k).value) in e
  {
    if e[0].0 != k {
      LookupFound(e[1..], k);
    }
  }
}
