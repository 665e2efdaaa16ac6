/**
 * `Card`, the detail record of one card, and its nested records. Every property is optional except
 * `Legal.expanded`; the payload's attack damage is never decoded.
 */
module CardModel {
  import opened Wrappers
  import opened Json

  datatype CardCount = CardCount(official: Option<int>, total: Option<int>)

  /** `Card.Set`. */
  datatype CardSet = CardSet(cardCount: Option<CardCount>, id: Option<string>, logo: Option<string>,
                             name: Option<string>, symbol: Option<string>)

  datatype Variants = Variants(firstEdition: Option<bool>, holo: Option<bool>, normal: Option<bool>,
                               reverse: Option<bool>, wPromo: Option<bool>)

  /** No damage field: the upstream value is sometimes a number and sometimes text. */
  datatype Attack = Attack(cost: Option<seq<string>>, name: Option<string>, effect: Option<string>)

  /** `Card.Weekness` (the source's spelling). */
  datatype Weekness = Weekness(weaknessType: Option<string>, value: Option<string>)

  datatype Legal = Legal(standard: Option<bool>, expanded: bool)

  datatype Card = Card(
    category: Option<string>,
    id: Option<string>,
    illustrator: Option<string>,
    image: Option<string>,
    localId: Option<string>,
    name: Option<string>,
    rarity: Option<string>,
    cardSet: Option<CardSet>,
    variants: Option<Variants>,
    dexId: Option<seq<int>>,
    hp: Option<int>,
    types: Option<seq<string>>,
    evolveFrom: Option<string>,
    description: Option<string>,
    stage: Option<string>,
    attacks: Option<seq<Attack>>,
    weaknesses: Option<seq<Weekness>>,
    retreat: Option<int>,
    regulationMark: Option<string>,
    legal: Option<Legal>,
    updated: Option<string>)

  /** The card every property of which is absent. */
  const EmptyCard := Card(None, None, None, None, None, None, None, None, None, None, None,
                          None, None, None, None, None, None, None, None, None, None)

  function AsStrings(v: Value): Option<seq<string>> { AsArrayOf(v, AsString) }

  function AsInts(v: Value): Option<seq<int>> { AsArrayOf(v, AsInt) }

  function AsAttacks(v: Value): Option<seq<Attack>> { AsArrayOf(v, DecodeAttack) }

  function AsWeeknesses(v: Value): Option<seq<Weekness>> { AsArrayOf(v, DecodeWeekness) }

  function DecodeCardCount(v: Value): (r: Option<CardCount>)
    ensures r.Some? <==> v.Object? && Optional(v.fields, "official", AsInt).Some? && Optional(v.fields, "total", AsInt).Some?
    ensures r.Some? ==> r.value.official == Optional(v.fields, "official", AsInt).value
    ensures r.Some? ==> r.value.total == Optional(v.fields, "total", AsInt).value
  {
    if !v.Object? then None
    else
      var official :- Optional(v.fields, "official", AsInt);
      var total :- Optional(v.fields, "total", AsInt);
      Some(CardCount(official, total))
  }

  function DecodeSet(v: Value): (r: Option<CardSet>)
    ensures r.Some? <==> v.Object? && Optional(v.fields, "cardCount", DecodeCardCount).Some? && Optional(v.fields, "id", AsString).Some? && Optional(v.fields, "logo", AsString).Some? && Optional(v.fields, "name", AsString).Some? && Optional(v.fields, "symbol", AsString).Some?
    ensures r.Some? ==> r.value.cardCount == Optional(v.fields, "cardCount", DecodeCardCount).value
    ensures r.Some? ==> r.value.id == Optional(v.fields, "id", AsString).value
    ensures r.Some? ==> r.value.logo == Optional(v.fields, "logo", AsString).value
    ensures r.Some? ==> r.value.name == Optional(v.fields, "name", AsString).value
    ensures r.Some? ==> r.value.symbol == Optional(v.fields, "symbol", AsString).value
  {
    if !v.Object? then None
    else
      var f := v.fields;
      var cardCount :- Optional(f, "cardCount", DecodeCardCount);
      var id :- Optional(f, "id", AsString);
      var logo :- Optional(f, "logo", AsString);
      var name :- Optional(f, "name", AsString);
      var symbol :- Optional(f, "symbol", AsString);
      Some(CardSet(cardCount, id, logo, name, symbol))
  }

  function DecodeVariants(v: Value): (r: Option<Variants>)
    ensures r.Some? <==> v.Object? && Optional(v.fields, "firstEdition", AsBool).Some? && Optional(v.fields, "holo", AsBool).Some? && Optional(v.fields, "normal", AsBool).Some? && Optional(v.fields, "reverse", AsBool).Some? && Optional(v.fields, "wPromo", AsBool).Some?
    ensures r.Some? ==> r.value.firstEdition == Optional(v.fields, "firstEdition", AsBool).value
    ensures r.Some? ==> r.value.holo == Optional(v.fields, "holo", AsBool).value
    ensures r.Some? ==> r.value.normal == Optional(v.fields, "normal", AsBool).value
    ensures r.Some? ==> r.value.reverse == Optional(v.fields, "reverse", AsBool).value
    ensures r.Some? ==> r.value.wPromo == Optional(v.fields, "wPromo", AsBool).value
  {
    if !v.Object? then None
    else
      var f := v.fields;
      var firstEdition :- Optional(f, "firstEdition", AsBool);
      var holo :- Optional(f, "holo", AsBool);
      var normal :- Optional(f, "normal", AsBool);
      var reverse :- Optional(f, "reverse", AsBool);
      var wPromo :- Optional(f, "wPromo", AsBool);
      Some(Variants(firstEdition, holo, normal, reverse, wPromo))
  }

  function DecodeAttack(v: Value): (r: Option<Attack>)
    ensures r.Some? <==> v.Object? && Optional(v.fields, "cost", AsStrings).Some? && Optional(v.fields, "name", AsString).Some? && Optional(v.fields, "effect", AsString).Some?
    ensures r.Some? ==> r.value.cost == Optional(v.fields, "cost", AsStrings).value
    ensures r.Some? ==> r.value.name == Optional(v.fields, "name", AsString).value
    ensures r.Some? ==> r.value.effect == Optional(v.fields, "effect", AsString).value
  {
    if !v.Object? then None
    else
      var f := v.fields;
      var cost :- Optional(f, "cost", AsStrings);
      var name :- Optional(f, "name", AsString);
      var effect :- Optional(f, "effect", AsString);
      Some(Attack(cost, name, effect))
  }

  function DecodeWeekness(v: Value): (r: Option<Weekness>)
    ensures r.Some? <==> v.Object? && Optional(v.fields, "type", AsString).Some? && Optional(v.fields, "value", AsString).Some?
    ensures r.Some? ==> r.value.weaknessType == Optional(v.fields, "type", AsString).value
    ensures r.Some? ==> r.value.value == Optional(v.fields, "value", AsString).value
  {
    if !v.Object? then None
    else
      var weaknessType :- Optional(v.fields, "type", AsString);
      var value :- Optional(v.fields, "value", AsString);
      Some(Weekness(weaknessType, value))
  }

  /** `expanded` is required; `standard` may be absent. */
  function DecodeLegal(v: Value): (r: Option<Legal>)
    ensures r.Some? <==>
              v.Object? && "expanded" in v.fields && v.fields["expanded"].Bool? &&
              Optional(v.fields, "standard", AsBool).Some?
    ensures r.Some? ==> r.value.expanded == v.fields["expanded"].b
    ensures r.Some? ==> r.value.standard == Optional(v.fields, "standard", AsBool).value
  {
    if !v.Object? then None
    else
      var standard :- Optional(v.fields, "standard", AsBool);
      var expanded :- Required(v.fields, "expanded", AsBool);
      Some(Legal(standard, expanded))
  }

  /** The keys `Card` reads from its payload. */
  const CardKeys: set<string> := {"category", "id", "illustrator", "image", "localId", "name", "rarity", "set", "variants", "dexId", "hp", "types", "evolveFrom", "description", "stage", "attacks", "weaknesses", "retreat", "regulationMark", "legal", "updated"}

  /** Every property of a card payload decodes (each one present with the right type, or absent). */
  predicate CardFieldsDecode(f: map<string, Value>) {
    && Optional(f, "category", AsString).Some?
    && Optional(f, "id", AsString).Some?
    && Optional(f, "illustrator", AsString).Some?
    && Optional(f, "image", AsString).Some?
    && Optional(f, "localId", AsString).Some?
    && Optional(f, "name", AsString).Some?
    && Optional(f, "rarity", AsString).Some?
    && Optional(f, "set", DecodeSet).Some?
    && Optional(f, "variants", DecodeVariants).Some?
    && Optional(f, "dexId", AsInts).Some?
    && Optional(f, "hp", AsInt).Some?
    && Optional(f, "types", AsStrings).Some?
    && Optional(f, "evolveFrom", AsString).Some?
    && Optional(f, "description", AsString).Some?
    && Optional(f, "stage", AsString).Some?
    && Optional(f, "attacks", AsAttacks).Some?
    && Optional(f, "weaknesses", AsWeeknesses).Some?
    && Optional(f, "retreat", AsInt).Some?
    && Optional(f, "regulationMark", AsString).Some?
    && Optional(f, "legal", DecodeLegal).Some?
    && Optional(f, "updated", AsString).Some?
  }

  /** The card a payload's properties denote, each one decoded independently of the others. */
  function CardOf(f: map<string, Value>): Card
    requires CardFieldsDecode(f)
  {
    Card(
      Optional(f, "category", AsString).value,
      Optional(f, "id", AsString).value,
      Optional(f, "illustrator", AsString).value,
      Optional(f, "image", AsString).value,
      Optional(f, "localId", AsString).value,
      Optional(f, "name", AsString).value,
      Optional(f, "rarity", AsString).value,
      Optional(f, "set", DecodeSet).value,
      Optional(f, "variants", DecodeVariants).value,
      Optional(f, "dexId", AsInts).value,
      Optional(f, "hp", AsInt).value,
      Optional(f, "types", AsStrings).value,
      Optional(f, "evolveFrom", AsString).value,
      Optional(f, "description", AsString).value,
      Optional(f, "stage", AsString).value,
      Optional(f, "attacks", AsAttacks).value,
      Optional(f, "weaknesses", AsWeeknesses).value,
      Optional(f, "retreat", AsInt).value,
      Optional(f, "regulationMark", AsString).value,
      Optional(f, "legal", DecodeLegal).value,
      Optional(f, "updated", AsString).value)
  }

  /**
   * The decoder of `Card`: a JSON object decodes when each of its properties does; since the
   * properties are decoded independently the order of the checks does not matter.
   */
  function DecodeCard(v: Value): (r: Option<Card>)
    ensures r.Some? <==> v.Object? && CardFieldsDecode(v.fields)
    ensures r.Some? ==> r.value.category == Optional(v.fields, "category", AsString).value
    ensures r.Some? ==> r.value.id == Optional(v.fields, "id", AsString).value
    ensures r.Some? ==> r.value.illustrator == Optional(v.fields, "illustrator", AsString).value
    ensures r.Some? ==> r.value.image == Optional(v.fields, "image", AsString).value
    ensures r.Some? ==> r.value.localId == Optional(v.fields, "localId", AsString).value
    ensures r.Some? ==> r.value.name == Optional(v.fields, "name", AsString).value
    ensures r.Some? ==> r.value.rarity == Optional(v.fields, "rarity", AsString).value
    ensures r.Some? ==> r.value.cardSet == Optional(v.fields, "set", DecodeSet).value
    ensures r.Some? ==> r.value.variants == Optional(v.fields, "variants", DecodeVariants).value
    ensures r.Some? ==> r.value.dexId == Optional(v.fields, "dexId", AsInts).value
    ensures r.Some? ==> r.value.hp == Optional(v.fields, "hp", AsInt).value
    ensures r.Some? ==> r.value.types == Optional(v.fields, "types", AsStrings).value
    ensures r.Some? ==> r.value.evolveFrom == Optional(v.fields, "evolveFrom", AsString).value
    ensures r.Some? ==> r.value.description == Optional(v.fields, "description", AsString).value
    ensures r.Some? ==> r.value.stage == Optional(v.fields, "stage", AsString).value
    ensures r.Some? ==> r.value.attacks == Optional(v.fields, "attacks", AsAttacks).value
    ensures r.Some? ==> r.value.weaknesses == Optional(v.fields, "weaknesses", AsWeeknesses).value
    ensures r.Some? ==> r.value.retreat == Optional(v.fields, "retreat", AsInt).value
    ensures r.Some? ==> r.value.regulationMark == Optional(v.fields, "regulationMark", AsString).value
    ensures r.Some? ==> r.value.legal == Optional(v.fields, "legal", DecodeLegal).value
    ensures r.Some? ==> r.value.updated == Optional(v.fields, "updated", AsString).value
  {
    if v.Object? && CardFieldsDecode(v.fields) then Some(CardOf(v.fields)) else None
  }

  /** An empty payload object is a valid card with every property absent. */
  lemma EmptyObjectDecodes()
    ensures DecodeCard(Object(map[])) == Some(EmptyCard)
  {
  }

  /** After dropping `key`, every string property decodes as before, or as absent for `key` itself. */
  lemma StringFieldsAfterRemoval(f: map<string, Value>, key: string)
    ensures forall k :: Optional(f - {key}, k, AsString) == (if k == key then Some(None) else Optional(f, k, AsString))
  {
    forall k ensures Optional(f - {key}, k, AsString) == (if k == key then Some(None) else Optional(f, k, AsString)) {
      if k != key { OptionalIgnoresOtherKeys(f, key, k, AsString); }
    }
  }

  /** Dropping any key from a decodable card payload leaves it decodable: no property is required. */
  lemma DroppingAKeyStillDecodes(f: map<string, Value>, key: string)
    requires DecodeCard(Object(f)).Some?
    ensures DecodeCard(Object(f - {key})).Some?
  {
    OptionalStillDecodesWithout(f, key, "category", AsString);
    OptionalStillDecodesWithout(f, key, "id", AsString);
    OptionalStillDecodesWithout(f, key, "illustrator", AsString);
    OptionalStillDecodesWithout(f, key, "image", AsString);
    OptionalStillDecodesWithout(f, key, "localId", AsString);
    OptionalStillDecodesWithout(f, key, "name", AsString);
    OptionalStillDecodesWithout(f, key, "rarity", AsString);
    OptionalStillDecodesWithout(f, key, "set", DecodeSet);
    OptionalStillDecodesWithout(f, key, "variants", DecodeVariants);
    OptionalStillDecodesWithout(f, key, "dexId", AsInts);
    OptionalStillDecodesWithout(f, key, "hp", AsInt);
    OptionalStillDecodesWithout(f, key, "types", AsStrings);
    OptionalStillDecodesWithout(f, key, "evolveFrom", AsString);
    OptionalStillDecodesWithout(f, key, "description", AsString);
    OptionalStillDecodesWithout(f, key, "stage", AsString);
    OptionalStillDecodesWithout(f, key, "attacks", AsAttacks);
    OptionalStillDecodesWithout(f, key, "weaknesses", AsWeeknesses);
    OptionalStillDecodesWithout(f, key, "retreat", AsInt);
    OptionalStillDecodesWithout(f, key, "regulationMark", AsString);
    OptionalStillDecodesWithout(f, key, "legal", DecodeLegal);
    OptionalStillDecodesWithout(f, key, "updated", AsString);
  }

  /** Dropping a key the card does not read changes nothing. */
  lemma UnknownKeysIgnored(f: map<string, Value>, key: string)
    requires key !in CardKeys
    ensures DecodeCard(Object(f - {key})) == DecodeCard(Object(f))
  {
    StringFieldsAfterRemoval(f, key);
    OptionalIgnoresOtherKeys(f, key, "set", DecodeSet);
    OptionalIgnoresOtherKeys(f, key, "variants", DecodeVariants);
    OptionalIgnoresOtherKeys(f, key, "dexId", AsInts);
    OptionalIgnoresOtherKeys(f, key, "hp", AsInt);
    OptionalIgnoresOtherKeys(f, key, "types", AsStrings);
    OptionalIgnoresOtherKeys(f, key, "attacks", AsAttacks);
    OptionalIgnoresOtherKeys(f, key, "weaknesses", AsWeeknesses);
    OptionalIgnoresOtherKeys(f, key, "retreat", AsInt);
    OptionalIgnoresOtherKeys(f, key, "legal", DecodeLegal);
  }

  /** Without a `"name"` key the card decodes as before, with `name` absent. */
  lemma MissingNameDecodesAsAbsent(f: map<string, Value>)
    requires DecodeCard(Object(f)).Some?
    ensures DecodeCard(Object(f - {"name"})) == Some(DecodeCard(Object(f)).value.(name := None))
  {
    var g := f - {"name"};
    OptionalStillDecodesWithout(f, "name", "name", AsString);
    OptionalIgnoresOtherKeys(f, "name", "category", AsString);
    OptionalIgnoresOtherKeys(f, "name", "id", AsString);
    OptionalIgnoresOtherKeys(f, "name", "illustrator", AsString);
    OptionalIgnoresOtherKeys(f, "name", "image", AsString);
    OptionalIgnoresOtherKeys(f, "name", "localId", AsString);
    OptionalIgnoresOtherKeys(f, "name", "rarity", AsString);
    OptionalIgnoresOtherKeys(f, "name", "set", DecodeSet);
    OptionalIgnoresOtherKeys(f, "name", "variants", DecodeVariants);
    OptionalIgnoresOtherKeys(f, "name", "dexId", AsInts);
    OptionalIgnoresOtherKeys(f, "name", "hp", AsInt);
    OptionalIgnoresOtherKeys(f, "name", "types", AsStrings);
    OptionalIgnoresOtherKeys(f, "name", "evolveFrom", AsString);
    OptionalIgnoresOtherKeys(f, "name", "description", AsString);
    OptionalIgnoresOtherKeys(f, "name", "stage", AsString);
    OptionalIgnoresOtherKeys(f, "name", "attacks", AsAttacks);
    OptionalIgnoresOtherKeys(f, "name", "weaknesses", AsWeeknesses);
    OptionalIgnoresOtherKeys(f, "name", "retreat", AsInt);
    OptionalIgnoresOtherKeys(f, "name", "regulationMark", AsString);
    OptionalIgnoresOtherKeys(f, "name", "legal", DecodeLegal);
    OptionalIgnoresOtherKeys(f, "name", "updated", AsString);
    assert CardFieldsDecode(g);
    assert CardOf(g) == CardOf(f).(name := None);
  }

  /** Without an `"id"` key the card decodes as before, with `id` absent. */
  lemma MissingIdDecodesAsAbsent(f: map<string, Value>)
    requires DecodeCard(Object(f)).Some?
    ensures DecodeCard(Object(f - {"id"})) == Some(DecodeCard(Object(f)).value.(id := None))
  {
    var g := f - {"id"};
    OptionalStillDecodesWithout(f, "id", "id", AsString);
    OptionalIgnoresOtherKeys(f, "id", "category", AsString);
    OptionalIgnoresOtherKeys(f, "id", "illustrator", AsString);
    OptionalIgnoresOtherKeys(f, "id", "image", AsString);
    OptionalIgnoresOtherKeys(f, "id", "localId", AsString);
    OptionalIgnoresOtherKeys(f, "id", "name", AsString);
    OptionalIgnoresOtherKeys(f, "id", "rarity", AsString);
    OptionalIgnoresOtherKeys(f, "id", "set", DecodeSet);
    OptionalIgnoresOtherKeys(f, "id", "variants", DecodeVariants);
    OptionalIgnoresOtherKeys(f, "id", "dexId", AsInts);
    OptionalIgnoresOtherKeys(f, "id", "hp", AsInt);
    OptionalIgnoresOtherKeys(f, "id", "types", AsStrings);
    OptionalIgnoresOtherKeys(f, "id", "evolveFrom", AsString);
    OptionalIgnoresOtherKeys(f, "id", "description", AsString);
    OptionalIgnoresOtherKeys(f, "id", "stage", AsString);
    OptionalIgnoresOtherKeys(f, "id", "attacks", AsAttacks);
    OptionalIgnoresOtherKeys(f, "id", "weaknesses", AsWeeknesses);
    OptionalIgnoresOtherKeys(f, "id", "retreat", AsInt);
    OptionalIgnoresOtherKeys(f, "id", "regulationMark", AsString);
    OptionalIgnoresOtherKeys(f, "id", "legal", DecodeLegal);
    OptionalIgnoresOtherKeys(f, "id", "updated", AsString);
    assert CardFieldsDecode(g);
    assert CardOf(g) == CardOf(f).(id := None);
  }

  /** A `legal` object without `expanded` fails, and so does every card payload that carries it. */
  lemma LegalWithoutExpandedFails(f: map<string, Value>, legal: map<string, Value>)
    requires "legal" in f && f["legal"] == Object(legal) && "expanded" !in legal
    ensures DecodeLegal(Object(legal)) == None
    ensures DecodeCard(Object(f)) == None
  {
  }

  /** `standard` may be absent from a `legal` object. */
  lemma LegalWithoutStandardDecodes(expanded: bool)
    ensures DecodeLegal(Object(map["expanded" := Bool(expanded)])) == Some(Legal(None, expanded))
  {
  }

  /** An attack's `"damage"` key, whatever its value, has no effect on decoding. */
  lemma DamageIsNeverDecoded(f: map<string, Value>)
    ensures DecodeAttack(Object(f)) == DecodeAttack(Object(f - {"damage"}))
  {
    OptionalIgnoresOtherKeys(f, "damage", "cost", AsStrings);
    OptionalIgnoresOtherKeys(f, "damage", "name", AsString);
    OptionalIgnoresOtherKeys(f, "damage", "effect", AsString);
  }

  /** The nested records are all-optional: an empty object decodes with every field absent. */
  lemma NestedRecordsAllOptional()
    ensures DecodeSet(Object(map[])) == Some(CardSet(None, None, None, None, None))
    ensures DecodeCardCount(Object(map[])) == Some(CardCount(None, None))
    ensures DecodeVariants(Object(map[])) == Some(Variants(None, None, None, None, None))
    ensures DecodeWeekness(Object(map[])) == Some(Weekness(None, None))
    ensures DecodeAttack(Object(map[])) == Some(Attack(None, None, None))
  {
  }

  /** A number that does not fit Swift's 64-bit `Int` fails the whole card. */
  lemma OutOfRangeHpFails(f: map<string, Value>, n: int)
    requires "hp" in f && f["hp"] == Number(n) && !InInt64Range(n)
    ensures DecodeCard(Object(f)) == None
  {
  }
}
