/** The in-memory property table behind `addProperty`: an object keyed by
    property id whose values are the property objects themselves, shared by
    reference with the callers that added them. */
module Store {

  /** A property object as a caller hands it over: the `id` that
      `addProperty` overwrites, and the listing details it leaves alone. */
  class Property {
    var id: int
    const details: map<string, string>

    constructor (id: int, details: map<string, string>)
      ensures this.id == id && this.details == details
    {
      this.id := id;
      this.details := details;
    }
  }

  /** The keys are exactly 1 .. the number of entries, as they are when every
      property was added through `addProperty` on a table numbered that way. */
  ghost predicate Contiguous(m: map<int, Property>) {
    forall k :: k in m <==> 1 <= k <= |m|
  }

  /** The id `addProperty` hands out: the number of keys plus one. */
  function NextId(m: map<int, Property>): int
  {
    |m| + 1
  }

  /** On a contiguously numbered table the next id names no property yet. */
  lemma {:induction false} NextIdFresh(m: map<int, Property>)
    requires Contiguous(m)
    ensures NextId(m) !in m
    ensures forall k :: k in m ==> k < NextId(m)
  {
  }

  /** Storing under the next id adds exactly one entry, keeps the numbering
      contiguous and leaves every earlier entry in place. */
  lemma {:induction false} AddKeepsContiguous(m: map<int, Property>, p: Property)
    requires Contiguous(m)
    ensures |m[NextId(m) := p]| == |m| + 1
    ensures Contiguous(m[NextId(m) := p])
    ensures forall k :: k in m ==> k in m[NextId(m) := p] && m[NextId(m) := p][k] == m[k]
  {
    NextIdFresh(m);
    var m' := m[NextId(m) := p];
    assert m'.Keys == m.Keys + {NextId(m)};
  }

  /** Without contiguous keys the key count plus one can be a key in use: on a
      table holding only id 2, the next id is 2 and the new property replaces
      the one stored there, so the table does not grow. */
  lemma {:induction false} GapOverwrites(stored: Property, p: Property)
    ensures var m := map[2 := stored];
      NextId(m) in m && |m[NextId(m) := p]| == |m| && m[NextId(m) := p][2] == p
  {
    var m := map[2 := stored];
    assert m.Keys == {2};
    assert m[NextId(m) := p].Keys == {2};
  }

  /** The module-level `properties` object of the data-access layer. */
  class PropertyStore {
    var properties: map<int, Property>

    ghost predicate Valid()
      reads this
    {
      Contiguous(properties)
    }

    /** Starts from the fixture's table, whatever its numbering. */
    constructor (properties: map<int, Property>)
      ensures this.properties == properties
    {
      this.properties := properties;
    }

    /** `addProperty`: numbers the property with the key count plus one,
        writes that id into the caller's object, stores the object under it
        and hands the same object back. */
    method AddProperty(property: Property) returns (r: Property)
      modifies this, property
      ensures r == property
      ensures property.id == NextId(old(properties))
      ensures properties == old(properties)[property.id := property]
      ensures old(Valid()) ==> Valid() && property.id !in old(properties)
      ensures old(Valid()) ==> |properties| == |old(properties)| + 1
    {
      var propertyId := |properties| + 1;
      property.id := propertyId;
      properties := properties[propertyId := property];
      r := property;
      if old(Valid()) {
        AddKeepsContiguous(old(properties), property);
        NextIdFresh(old(properties));
      }
    }
  }
}
