/**
 * How an engagement output gets its field_mappings: the value rows owned by the
 * record are folded, in order, into a JavaScript Map keyed by attribute slug, and
 * the Map is listed as `{ [slug]: data }` entries. A JavaScript Map keeps its keys
 * in first-insertion order and `set` on a present key replaces the value in place,
 * so the Map is modelled as a sequence of entries with distinct slugs.
 */
module FieldMappings {
  import opened Wrappers
  import opened EngagementModel
  import Queries

  /** The filter on the value table: rows owned by the given record. */
  function OwnedBy(owner: string): ValueRow -> bool
  {
    (v: ValueRow) => v.owner == owner
  }

  /** The value rows whose owner is the given record. */
  function ValuesOf(values: seq<ValueRow>, owner: string): (r: seq<ValueRow>)
    ensures forall v :: v in r <==> v in values && v.owner == owner
  {
    Queries.Filter(values, OwnedBy(owner))
  }

  /** The owner's value rows come back each as often as it occurs in the table,
      none other, and in table order: the k-th is the k-th row the owner owns. */
  lemma ValuesOfExactly(values: seq<ValueRow>, owner: string)
    ensures forall v :: multiset(ValuesOf(values, owner))[v] == if v.owner == owner then multiset(values)[v] else 0
    ensures var pos := Queries.Positions(values, OwnedBy(owner));
            && |ValuesOf(values, owner)| == |pos|
            && forall k :: 0 <= k < |pos| ==> ValuesOf(values, owner)[k] == values[pos[k]]
  {
    Queries.FilterInOrder(values, OwnedBy(owner));
    Queries.FilterCounts(values, OwnedBy(owner));
  }

  function RowSlugs(rows: seq<ValueRow>): set<string>
  {
    set i | 0 <= i < |rows| :: rows[i].slug
  }

  function EntrySlugs(m: seq<Entry>): set<string>
  {
    set i | 0 <= i < |m| :: m[i].slug
  }

  predicate DistinctSlugs(m: seq<Entry>)
  {
    forall i, j :: 0 <= i < j < |m| ==> m[i].slug != m[j].slug
  }

  /** Map.prototype.get. */
  function Lookup(m: seq<Entry>, slug: string): Option<string>
    decreases |m|
  {
    if m == [] then None
    else if m[0].slug == slug then Some(m[0].data)
    else Lookup(m[1..], slug)
  }

  /** Map.prototype.set: the key now maps to `data`, every other key is untouched,
      a key already present keeps its position and a new key goes last. */
  function MapSet(m: seq<Entry>, slug: string, data: string): (r: seq<Entry>)
    ensures r != [] && |m| <= |r| <= |m| + 1
    ensures Lookup(r, slug) == Some(data)
    ensures forall k :: k != slug ==> Lookup(r, k) == Lookup(m, k)
    ensures forall i :: 0 <= i < |m| ==> r[i].slug == m[i].slug
    ensures forall i :: |m| <= i < |r| ==> r[i].slug == slug
    ensures DistinctSlugs(m) ==> DistinctSlugs(r)
    decreases |m|
  {
    if m == [] then [Entry(slug, data)]
    else if m[0].slug == slug then [Entry(slug, data)] + m[1..]
    else [m[0]] + MapSet(m[1..], slug, data)
  }

  /** The data of the last row carrying `slug`, if any row does. */
  function LastData(rows: seq<ValueRow>, slug: string): Option<string>
    decreases |rows|
  {
    if rows == [] then None
    else if rows[|rows| - 1].slug == slug then Some(rows[|rows| - 1].data)
    else LastData(rows[..|rows| - 1], slug)
  }

  /** The Map after `values.forEach(value => map.set(value.attribute.slug, value.data))`. */
  function FoldValues(rows: seq<ValueRow>): (r: seq<Entry>)
    ensures DistinctSlugs(r)
    ensures |r| <= |rows|
    decreases |rows|
  {
    if rows == [] then []
    else MapSet(FoldValues(rows[..|rows| - 1]), rows[|rows| - 1].slug, rows[|rows| - 1].data)
  }

  /** The forEach loop that fills the Map. */
  method CollectFieldMappings(rows: seq<ValueRow>) returns (m: seq<Entry>)
    ensures m == FoldValues(rows)
  {
    m := [];
    for i := 0 to |rows|
      invariant m == FoldValues(rows[..i])
    {
      assert rows[..i + 1][..i] == rows[..i];
      m := MapSet(m, rows[i].slug, rows[i].data);
    }
    assert rows[..|rows|] == rows;
  }

  /** Last write wins: each slug maps to the data of the last row with that slug. */
  lemma {:induction false} FoldValuesLastWins(rows: seq<ValueRow>, slug: string)
    ensures Lookup(FoldValues(rows), slug) == LastData(rows, slug)
    decreases |rows|
  {
    if rows != [] {
      FoldValuesLastWins(rows[..|rows| - 1], slug);
    }
  }

  /** A slug has data exactly when some row carries it. */
  lemma {:induction false} LastDataPresent(rows: seq<ValueRow>, slug: string)
    ensures LastData(rows, slug).Some? <==> slug in RowSlugs(rows)
    decreases |rows|
  {
    if rows != [] {
      var init := rows[..|rows| - 1];
      LastDataPresent(init, slug);
      if exists i :: 0 <= i < |init| && init[i].slug == slug {
        var i :| 0 <= i < |init| && init[i].slug == slug;
        assert rows[i].slug == slug;
      }
      if exists i :: 0 <= i < |rows| && rows[i].slug == slug {
        var i :| 0 <= i < |rows| && rows[i].slug == slug;
        if i < |init| {
          assert init[i].slug == slug;
        }
      }
    }
  }

  /** In a map with distinct slugs, looking up an entry's slug finds that entry's data. */
  lemma {:induction false} LookupFindsEntry(m: seq<Entry>, i: nat)
    requires DistinctSlugs(m) && i < |m|
    ensures Lookup(m, m[i].slug) == Some(m[i].data)
    decreases |m|
  {
    if i > 0 {
      assert m[0].slug != m[i].slug;
      assert m[1..][i - 1] == m[i];
      LookupFindsEntry(m[1..], i - 1);
    }
  }

  /** A slug is looked up successfully exactly when it names an entry. */
  lemma {:induction false} LookupPresent(m: seq<Entry>, slug: string)
    ensures Lookup(m, slug).Some? <==> slug in EntrySlugs(m)
    decreases |m|
  {
    if m != [] {
      LookupPresent(m[1..], slug);
      if exists i :: 0 <= i < |m| && m[i].slug == slug {
        var i :| 0 <= i < |m| && m[i].slug == slug;
        if i > 0 {
          assert m[1..][i - 1].slug == slug;
        }
      }
      if exists i :: 0 <= i < |m[1..]| && m[1..][i].slug == slug {
        var i :| 0 <= i < |m[1..]| && m[1..][i].slug == slug;
        assert m[i + 1].slug == slug;
      }
    }
  }

  /** What field_mappings holds: one entry per distinct slug among the rows, each with
      the data of the last row carrying that slug, and no entry at all when there
      are no rows. */
  lemma FieldMappingsMeaning(rows: seq<ValueRow>)
    ensures DistinctSlugs(FoldValues(rows))
    ensures forall i :: 0 <= i < |FoldValues(rows)| ==> LastData(rows, FoldValues(rows)[i].slug) == Some(FoldValues(rows)[i].data)
    ensures EntrySlugs(FoldValues(rows)) == RowSlugs(rows)
    ensures FoldValues(rows) == [] <==> rows == []
  {
    var m := FoldValues(rows);
    forall i | 0 <= i < |m| ensures LastData(rows, m[i].slug) == Some(m[i].data) {
      LookupFindsEntry(m, i);
      FoldValuesLastWins(rows, m[i].slug);
    }
    forall slug ensures slug in RowSlugs(rows) <==> slug in EntrySlugs(m) {
      LastDataPresent(rows, slug);
      FoldValuesLastWins(rows, slug);
      LookupPresent(m, slug);
    }
  }

  /** Entries keep the position at which their slug was first seen: the map built
      from any prefix of the rows is a prefix of the final map, slug for slug. */
  lemma {:induction false} FoldValuesKeepsFirstPositions(rows: seq<ValueRow>, n: nat)
    requires n <= |rows|
    ensures |FoldValues(rows[..n])| <= |FoldValues(rows)|
    ensures forall i :: 0 <= i < |FoldValues(rows[..n])| ==> FoldValues(rows[..n])[i].slug == FoldValues(rows)[i].slug
    decreases |rows|
  {
    if n < |rows| {
      var init := rows[..|rows| - 1];
      assert init[..n] == rows[..n];
      FoldValuesKeepsFirstPositions(init, n);
    } else {
      assert rows[..n] == rows;
    }
  }
}
