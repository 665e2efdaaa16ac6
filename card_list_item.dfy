/**
 * `CardListItem`, the list projection of a card, with its `Codable` wire mapping: `id`, `localId`
 * and `name` are required strings under their own names; `imageBaseURLString` is an optional
 * string carried under the key `"image"`.
 */
module CardListItemModel {
  import opened Wrappers
  import opened Json

  /** All fields are `let` constants: a decoded item is an immutable value. */
  datatype CardListItem = CardListItem(id: string, localId: string, name: string, imageBaseURLString: Option<string>)

  const IdKey := "id"
  const LocalIdKey := "localId"
  const NameKey := "name"
  const ImageKey := "image"

  /** The synthesised `init(from:)`. */
  function DecodeItem(v: Value): (r: Option<CardListItem>)
    ensures r.Some? <==>
              && v.Object?
              && IdKey in v.fields && v.fields[IdKey].Str?
              && LocalIdKey in v.fields && v.fields[LocalIdKey].Str?
              && NameKey in v.fields && v.fields[NameKey].Str?
              && (ImageKey !in v.fields || v.fields[ImageKey].Null? || v.fields[ImageKey].Str?)
    ensures r.Some? ==>
              && r.value.id == v.fields[IdKey].s
              && r.value.localId == v.fields[LocalIdKey].s
              && r.value.name == v.fields[NameKey].s
              && (r.value.imageBaseURLString.None? <==> ImageKey !in v.fields || v.fields[ImageKey].Null?)
              && (r.value.imageBaseURLString.Some? ==> r.value.imageBaseURLString.value == v.fields[ImageKey].s)
  {
    if !v.Object? then None
    else
      var f := v.fields;
      var id :- Required(f, IdKey, AsString);
      var localId :- Required(f, LocalIdKey, AsString);
      var name :- Required(f, NameKey, AsString);
      var image :- Optional(f, ImageKey, AsString);
      Some(CardListItem(id, localId, name, image))
  }

  /** The synthesised `encode(to:)`: an absent image writes no `"image"` key. */
  function EncodeItem(item: CardListItem): (v: Value)
    ensures v.Object?
    ensures v.fields.Keys == {IdKey, LocalIdKey, NameKey} + (if item.imageBaseURLString.Some? then {ImageKey} else {})
  {
    Object(map[IdKey := Str(item.id), LocalIdKey := Str(item.localId), NameKey := Str(item.name)]
           + EncodeIfPresent(ImageKey, item.imageBaseURLString))
  }

  /** `[CardListItem]` on the wire: a JSON array of item objects. */
  function DecodeItems(v: Value): (r: Option<seq<CardListItem>>)
    ensures r.Some? ==> v.Array? && |r.value| == |v.items|
    ensures r.Some? ==> forall i :: 0 <= i < |v.items| ==> DecodeItem(v.items[i]) == Some(r.value[i])
    ensures v.Array? && (forall i :: 0 <= i < |v.items| ==> DecodeItem(v.items[i]).Some?) ==> r.Some?
  {
    AsArrayOf(v, DecodeItem)
  }

  function EncodeItems(items: seq<CardListItem>): (v: Value)
    ensures v.Array? && |v.items| == |items|
    ensures forall i :: 0 <= i < |items| ==> v.items[i] == EncodeItem(items[i])
  {
    Array(seq(|items|, i requires 0 <= i < |items| => EncodeItem(items[i])))
  }

  /** Decoding an encoded item gives the same item back. */
  lemma ItemRoundTrip(item: CardListItem)
    ensures DecodeItem(EncodeItem(item)) == Some(item)
  {
    var f := EncodeItem(item).fields;
    assert f[IdKey] == Str(item.id) && f[LocalIdKey] == Str(item.localId) && f[NameKey] == Str(item.name);
    if item.imageBaseURLString.Some? {
      assert f[ImageKey] == Str(item.imageBaseURLString.value);
    } else {
      assert ImageKey !in f;
    }
  }

  /** The persisted list reads back as exactly the list that was written, order included. */
  lemma ItemsRoundTrip(items: seq<CardListItem>)
    ensures DecodeItems(EncodeItems(items)) == Some(items)
  {
    var v := EncodeItems(items);
    forall i | 0 <= i < |items|
      ensures DecodeItem(v.items[i]) == Some(items[i])
    {
      ItemRoundTrip(items[i]);
    }
    var r := DecodeItems(v);
    assert r.Some?;
    assert r.value == items;
  }

  /** A payload object missing any required key fails to decode. */
  lemma MissingRequiredKeyFails(fields: map<string, Value>, key: string)
    requires key in {IdKey, LocalIdKey, NameKey}
    ensures DecodeItem(Object(fields - {key})) == None
  {
  }

  /** An absent `"image"` key decodes to an absent `imageBaseURLString`. */
  lemma AbsentImageDecodesAsNone(id: string, localId: string, name: string)
    ensures DecodeItem(Object(map[IdKey := Str(id), LocalIdKey := Str(localId), NameKey := Str(name)]))
            == Some(CardListItem(id, localId, name, None))
  {
  }
}
