/**
 * The Zoho engagement mapper. `unify` accepts one provider object or an array of
 * them and maps each with the per-object mapper, handing every call the same
 * custom field mappings. The per-object mapper and `desunify` are stubs that
 * return nothing.
 */
module ZohoMappers {
  import opened Wrappers
  import opened EngagementModel

  /** One `{ slug, remote_id }` custom field mapping. */
  datatype CustomFieldMapping = CustomFieldMapping(slug: string, remoteId: string)

  /** A value that is either a single object or an array of objects. */
  datatype Shape<T> = Single(item: T) | Many(items: seq<T>)

  /** Array.prototype.map with a second argument shared by every call. */
  function MapEach<S, T>(s: seq<S>, f: (S, Option<seq<CustomFieldMapping>>) -> T, cfm: Option<seq<CustomFieldMapping>>): (r: seq<T>)
    ensures |r| == |s|
    ensures forall i :: 0 <= i < |s| ==> r[i] == f(s[i], cfm)
    decreases |s|
  {
    if s == [] then [] else [f(s[0], cfm)] + MapEach(s[1..], f, cfm)
  }

  /** The dispatch of `unify`, for any per-object mapper: a single object gives the
      single mapped object, an array gives the array of mapped objects in order. */
  function UnifyWith<S, T>(
    mapSingle: (S, Option<seq<CustomFieldMapping>>) -> T, source: Shape<S>, engagementType: string,
    cfm: Option<seq<CustomFieldMapping>>): (r: Shape<T>)
    ensures source.Single? <==> r.Single?
    ensures source.Single? ==> r.item == mapSingle(source.item, cfm)
    ensures source.Many? ==> |r.items| == |source.items|
    ensures source.Many? ==> forall i :: 0 <= i < |source.items| ==> r.items[i] == mapSingle(source.items[i], cfm)
  {
    match source
    case Single(item) => Single(mapSingle(item, cfm))
    case Many(items) => Many(MapEach(items, mapSingle, cfm))
  }

  /** The result does not depend on the engagement type argument. */
  lemma UnifyIgnoresEngagementType<S, T>(
    mapSingle: (S, Option<seq<CustomFieldMapping>>) -> T, source: Shape<S>, t1: string, t2: string,
    cfm: Option<seq<CustomFieldMapping>>)
    ensures UnifyWith(mapSingle, source, t1, cfm) == UnifyWith(mapSingle, source, t2, cfm)
  {
  }

  /** An array unifies element by element: unifying the array of the objects is the
      array of their single unifications. */
  lemma {:induction false} UnifyManyIsPointwise<S, T>(
    mapSingle: (S, Option<seq<CustomFieldMapping>>) -> T, items: seq<S>, engagementType: string,
    cfm: Option<seq<CustomFieldMapping>>)
    ensures |UnifyWith(mapSingle, Many(items), engagementType, cfm).items| == |items|
    ensures forall i :: 0 <= i < |items| ==>
              UnifyWith(mapSingle, Many(items), engagementType, cfm).items[i]
              == UnifyWith(mapSingle, Single(items[i]), engagementType, cfm).item
  {
    var many := UnifyWith(mapSingle, Many(items), engagementType, cfm);
    forall i | 0 <= i < |items| ensures many.items[i] == UnifyWith(mapSingle, Single(items[i]), engagementType, cfm).item {
      var one := UnifyWith(mapSingle, Single(items[i]), engagementType, cfm);
      assert one.item == mapSingle(items[i], cfm);
    }
  }

  /** A Zoho engagement as the Zoho API returns it. */
  type ZohoEngagementOutput = RawPayload

  /** The provider-side object desunify would build; no field of it is modelled. */
  datatype ZohoEngagementInput = ZohoEngagementInput(body: string)

  /** desunify: a stub that returns undefined. */
  function Desunify(source: EngagementInput, cfm: Option<seq<CustomFieldMapping>>): (r: Option<ZohoEngagementInput>)
    ensures r.None?
  {
    None
  }

  /** mapSingleEngagementToUnified: a stub that returns undefined. */
  function MapSingleEngagementToUnified(engagement: ZohoEngagementOutput, cfm: Option<seq<CustomFieldMapping>>): (r: Option<Fields>)
    ensures r.None?
  {
    None
  }

  /** ZohoEngagementMapper.unify. */
  function Unify(source: Shape<ZohoEngagementOutput>, engagementType: string, cfm: Option<seq<CustomFieldMapping>>)
    : (r: Shape<Option<Fields>>)
    ensures source.Single? <==> r.Single?
    ensures source.Many? ==> |r.items| == |source.items|
  {
    UnifyWith(MapSingleEngagementToUnified, source, engagementType, cfm)
  }

  /** With the stub mapper, a single object unifies to undefined and an array to an
      array of undefined of the same length. */
  lemma {:induction false} ZohoUnifyYieldsNothing(source: Shape<ZohoEngagementOutput>, engagementType: string, cfm: Option<seq<CustomFieldMapping>>)
    ensures source.Single? ==> Unify(source, engagementType, cfm) == Single(None)
    ensures source.Many? ==> Unify(source, engagementType, cfm) == Many(seq(|source.items|, _ => None))
  {
    var r := Unify(source, engagementType, cfm);
    if source.Many? {
      assert r.items == seq(|source.items|, _ => None);
    }
  }
}
