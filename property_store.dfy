/**
 * addProperty: the placeholder for creating a property. It does not touch the
 * database; it numbers the property after the entries of an in-process mapping
 * loaded from the fixture file, sets that number as the property's id and stores
 * the property under it.
 */
module PropertyStore {

  /** A property record. Only `id` is changed by addProperty; the other fields are carried along. */
  class Property {
    var id: int
    const ownerId: int
    const title: string
    const city: string
    const costPerNight: int

    constructor (id: int, ownerId: int, title: string, city: string, costPerNight: int)
      ensures this.id == id && this.ownerId == ownerId && this.title == title
      ensures this.city == city && this.costPerNight == costPerNight
    {
      this.id := id;
      this.ownerId := ownerId;
      this.title := title;
      this.city := city;
      this.costPerNight := costPerNight;
    }
  }

  /** The id addProperty hands out next: the number of keys plus one. */
  function NextId<V>(m: map<int, V>): int {
    |m.Keys| + 1
  }

  /** The keys of `m` are exactly 1, 2, ..., n. */
  ghost predicate KeysAreOneTo<V>(m: map<int, V>, n: nat) {
    forall k :: k in m <==> 1 <= k <= n
  }

  /** A set of integers that is exactly 1..n has n elements. */
  lemma {:induction false} RangeSize(s: set<int>, n: nat)
    requires forall k :: k in s <==> 1 <= k <= n
    ensures |s| == n
    decreases n
  {
    if n == 0 {
      assert forall k :: k !in s;
      assert s == {};
    } else {
      var rest := s - {n};
      RangeSize(rest, n - 1);
      assert s == rest + {n};
    }
  }

  /**
   * When the keys are exactly 1..n, the next id is n + 1: it is not yet a key,
   * storing under it grows the mapping by exactly one, and the keys become 1..n+1.
   */
  lemma NextIdIsFresh<V>(m: map<int, V>, n: nat, v: V)
    requires KeysAreOneTo(m, n)
    ensures NextId(m) == n + 1 && NextId(m) !in m
    ensures |m[NextId(m) := v]| == |m| + 1
    ensures KeysAreOneTo(m[NextId(m) := v], n + 1)
  {
    RangeSize(m.Keys, n);
  }

  /**
   * Nothing stops the next id from being a key already once the keys have a gap:
   * with the single key 2 the next id is 2, and storing under it replaces that
   * entry instead of adding one.
   */
  lemma NextIdCollidesAfterGap<V>(a: V, b: V)
    ensures var m := map[2 := a];
      NextId(m) in m && m[NextId(m) := b] == map[2 := b] && |m[NextId(m) := b]| == |m|
  {
    var m := map[2 := a];
    assert m.Keys == {2};
  }

  /** The process-local mapping of fixture properties, keyed by id. */
  class PropertyTable {
    var rows: map<int, Property>

    /** Every stored property carries the key it is stored under as its id. */
    ghost predicate IdsMatchKeys()
      reads this, rows.Values
    {
      forall k :: k in rows ==> rows[k].id == k
    }

    constructor (seed: map<int, Property>)
      ensures rows == seed
    {
      rows := seed;
    }

    /**
     * addProperty: the new id is the number of keys plus one; it is written into
     * the caller's object, the object is stored under it and returned.
     */
    method AddProperty(property: Property) returns (r: Property)
      modifies this, property
      ensures r == property
      ensures property.id == NextId(old(rows))
      ensures rows == old(rows)[property.id := property]
      ensures forall k :: k in old(rows) && k != property.id ==> rows[k] == old(rows)[k]
      ensures forall n: nat :: KeysAreOneTo(old(rows), n) ==>
        property.id !in old(rows) && |rows| == n + 1 && KeysAreOneTo(rows, n + 1)
      ensures old(IdsMatchKeys()) && property !in old(rows.Values) ==> IdsMatchKeys()
    {
      var propertyId := |rows.Keys| + 1;
      property.id := propertyId;
      rows := rows[propertyId := property];
      r := property;
      forall n: nat | KeysAreOneTo(old(rows), n)
        ensures propertyId !in old(rows) && |rows| == n + 1 && KeysAreOneTo(rows, n + 1)
      {
        NextIdIsFresh(old(rows), n, property);
        RangeSize(old(rows).Keys, n);
      }
    }
  }

  /**
   * Two calls in a row after a gap hand out the same id: starting from the single
   * key 2, both new properties get id 2, and the second replaces the first.
   */
  method SameIdTwiceAfterGap(a: Property, p: Property, q: Property) returns (table: PropertyTable, first: int, second: int)
    modifies p, q
    ensures first == 2 && second == 2
    ensures p.id == 2 && q.id == 2
    ensures table.rows == map[2 := q]
  {
    table := new PropertyTable(map[2 := a]);
    assert table.rows.Keys == {2};
    var r1 := table.AddProperty(p);
    first := p.id;
    assert table.rows == map[2 := p];
    assert table.rows.Keys == {2};
    var r2 := table.AddProperty(q);
    second := q.id;
  }
}
