/**
 * Orderings used by Tavern's SQL queries and a model of the query engine's
 * `SELECT .. FROM table WHERE .. ORDER BY ..` over a keyed table.
 *
 * Text columns compare with SQLite's default BINARY collation, which is the
 * lexicographic order on code points (`LexLe`); timestamps sorted with
 * `DESC` compare with `Later`. SQL leaves the relative order of rows with
 * equal sort keys unspecified, so a listing is specified only up to ties.
 */
module Ordering {

  /** `le` is reflexive, total and transitive: a sort order that may have ties. */
  ghost predicate TotalPreorder<K(!new)>(le: (K, K) -> bool) {
    && (forall a :: le(a, a))
    && (forall a, b :: le(a, b) || le(b, a))
    && (forall a, b, c :: le(a, b) && le(b, c) ==> le(a, c))
  }

  /** SQLite's BINARY collation: `a` sorts no later than `b`. */
  predicate LexLe(a: string, b: string)
    decreases |a|
  {
    a == [] || (b != [] && (a[0] < b[0] || (a[0] == b[0] && LexLe(a[1..], b[1..]))))
  }

  lemma {:induction false} LexLeTotal(a: string, b: string)
    ensures LexLe(a, b) || LexLe(b, a)
    decreases |a|
  {
    if a != [] && b != [] && a[0] == b[0] {
      LexLeTotal(a[1..], b[1..]);
    }
  }

  lemma {:induction false} LexLeTransitive(a: string, b: string, c: string)
    requires LexLe(a, b) && LexLe(b, c)
    ensures LexLe(a, c)
    decreases |a|
  {
    if a != [] && b != [] && c != [] && a[0] == b[0] && b[0] == c[0] {
      LexLeTransitive(a[1..], b[1..], c[1..]);
    }
  }

  lemma {:induction false} LexLeReflexive(a: string)
    ensures LexLe(a, a)
    decreases |a|
  {
    if a != [] {
      LexLeReflexive(a[1..]);
    }
  }

  /** Two strings that sort no later than each other are equal: BINARY has no ties between distinct texts. */
  lemma {:induction false} LexLeAntisymmetric(a: string, b: string)
    requires LexLe(a, b) && LexLe(b, a)
    ensures a == b
    decreases |a|
  {
    if a != [] {
      LexLeAntisymmetric(a[1..], b[1..]);
      assert a == [a[0]] + a[1..] && b == [b[0]] + b[1..];
    }
  }

  lemma LexLeTotalPreorder()
    ensures TotalPreorder(LexLe)
  {
    forall a ensures LexLe(a, a) { LexLeReflexive(a); }
    forall a, b ensures LexLe(a, b) || LexLe(b, a) { LexLeTotal(a, b); }
    forall a, b, c | LexLe(a, b) && LexLe(b, c) ensures LexLe(a, c) { LexLeTransitive(a, b, c); }
  }

  /** `ORDER BY t DESC` on timestamps: `a` comes no later than `b` when it is at least as recent. */
  predicate Later(a: int, b: int) {
    a >= b
  }

  lemma LaterTotalPreorder()
    ensures TotalPreorder(Later)
  {
  }

  /** `s` is in the order `le` puts on the keys of its elements. */
  ghost predicate SortedBy<T, K>(s: seq<T>, key: T -> K, le: (K, K) -> bool) {
    forall i, j :: 0 <= i < j < |s| ==> le(key(s[i]), key(s[j]))
  }

  /** Where `x` goes in `s`: after the leading elements whose keys sort no later than its key. */
  function InsertionPoint<T, K>(s: seq<T>, x: T, key: T -> K, le: (K, K) -> bool): (p: nat)
    ensures p <= |s|
    ensures forall i :: 0 <= i < p ==> le(key(s[i]), key(x))
    ensures p < |s| ==> !le(key(s[p]), key(x))
  {
    if s == [] || !le(key(s[0]), key(x)) then 0
    else 1 + InsertionPoint(s[1..], x, key, le)
  }

  function Insert<T, K>(s: seq<T>, x: T, key: T -> K, le: (K, K) -> bool): (r: seq<T>)
    ensures |r| == |s| + 1
    ensures multiset(r) == multiset(s) + multiset{x}
  {
    var p := InsertionPoint(s, x, key, le);
    assert s == s[..p] + s[p..];
    s[..p] + [x] + s[p..]
  }

  /** Inserting into a sorted sequence keeps it sorted. */
  lemma InsertSorted<T, K(!new)>(s: seq<T>, x: T, key: T -> K, le: (K, K) -> bool)
    requires TotalPreorder(le)
    requires SortedBy(s, key, le)
    ensures SortedBy(Insert(s, x, key, le), key, le)
  {
    var p := InsertionPoint(s, x, key, le);
    var r := Insert(s, x, key, le);
    assert r[p] == x;
    forall i | p < i < |r| ensures le(key(x), key(r[i])) {
      assert r[i] == s[i - 1];
      assert le(key(x), key(s[p]));
      if i - 1 > p {
        assert le(key(s[p]), key(s[i - 1]));
      }
    }
    forall i, j | 0 <= i < j < |r| ensures le(key(r[i]), key(r[j])) {
      if j < p {
        assert r[i] == s[i] && r[j] == s[j];
      } else if j == p {
        assert r[i] == s[i];
      } else if i < p {
        assert r[i] == s[i] && r[j] == s[j - 1];
      } else if i == p {
      } else {
        assert r[i] == s[i - 1] && r[j] == s[j - 1];
      }
    }
  }

  /**
   * `rows` is what `SELECT * FROM table WHERE keep ORDER BY key` returns:
   * exactly the stored records that `keep` accepts, each once, in the order
   * `le` puts on their keys.
   */
  ghost predicate IsListing<T, K>(rows: seq<T>, table: map<string, T>, keep: T -> bool,
                                 id: T -> string, key: T -> K, le: (K, K) -> bool)
  {
    && SortedBy(rows, key, le)
    && (forall i :: 0 <= i < |rows| ==> id(rows[i]) in table && table[id(rows[i])] == rows[i] && keep(rows[i]))
    && (forall k :: k in table && keep(table[k]) ==> table[k] in rows)
    && (forall i, j :: 0 <= i < j < |rows| ==> id(rows[i]) != id(rows[j]))
  }

  /** The rows listed so far when the records with keys in `done` have been visited. */
  ghost predicate PartialListing<T, K>(rows: seq<T>, table: map<string, T>, keep: T -> bool,
                                      id: T -> string, key: T -> K, le: (K, K) -> bool, done: set<string>)
  {
    && SortedBy(rows, key, le)
    && (forall i :: 0 <= i < |rows| ==>
          id(rows[i]) in table && id(rows[i]) in done && table[id(rows[i])] == rows[i] && keep(rows[i]))
    && (forall k :: k in table && k in done && keep(table[k]) ==> table[k] in rows)
    && (forall i, j :: 0 <= i < j < |rows| ==> id(rows[i]) != id(rows[j]))
  }

  /** The element at index `i` of `Insert(s, x, ..)`, which places `x` at the insertion point. */
  lemma InsertAt<T, K>(s: seq<T>, x: T, key: T -> K, le: (K, K) -> bool, i: nat)
    requires i <= |s|
    ensures var p := InsertionPoint(s, x, key, le);
      Insert(s, x, key, le)[i] == if i < p then s[i] else if i == p then x else s[i - 1]
  {
  }

  lemma VisitRecord<T, K(!new)>(rows: seq<T>, table: map<string, T>, keep: T -> bool,
                                id: T -> string, key: T -> K, le: (K, K) -> bool, done: set<string>, k: string)
    requires TotalPreorder(le)
    requires forall k :: k in table ==> id(table[k]) == k
    requires PartialListing(rows, table, keep, id, key, le, done)
    requires k in table && k !in done
    ensures keep(table[k]) ==> PartialListing(Insert(rows, table[k], key, le), table, keep, id, key, le, done + {k})
    ensures !keep(table[k]) ==> PartialListing(rows, table, keep, id, key, le, done + {k})
  {
    var r := table[k];
    if keep(r) {
      InsertSorted(rows, r, key, le);
      var p := InsertionPoint(rows, r, key, le);
      var next := Insert(rows, r, key, le);
      forall i | 0 <= i < |next|
        ensures id(next[i]) in table && table[id(next[i])] == next[i] && keep(next[i])
        ensures id(next[i]) in done + {k} && (id(next[i]) == k <==> i == p)
      {
        InsertAt(rows, r, key, le, i);
      }
      forall i, j | 0 <= i < j < |next| ensures id(next[i]) != id(next[j]) {
        InsertAt(rows, r, key, le, i);
        InsertAt(rows, r, key, le, j);
      }
      forall x | x in rows ensures x in next {
        assert x in multiset(rows);
      }
      InsertAt(rows, r, key, le, p);
    }
  }

  /** Evaluates the query by inserting every matching record of the table into a sorted result. */
  method SelectSorted<T(!new), K(!new)>(table: map<string, T>, keep: T -> bool, id: T -> string,
                                        key: T -> K, le: (K, K) -> bool) returns (rows: seq<T>)
    requires TotalPreorder(le)
    requires forall k :: k in table ==> id(table[k]) == k
    ensures IsListing(rows, table, keep, id, key, le)
  {
    rows := [];
    var pending := table.Keys;
    ghost var done: set<string> := {};
    while pending != {}
      invariant pending <= table.Keys && done == table.Keys - pending
      invariant PartialListing(rows, table, keep, id, key, le, done)
      decreases |pending|
    {
      var k :| k in pending;
      VisitRecord(rows, table, keep, id, key, le, done, k);
      if keep(table[k]) {
        rows := Insert(rows, table[k], key, le);
      }
      pending := pending - {k};
      done := done + {k};
    }
  }
}
