/**
 * `CardDetailView.ViewModel`: the display strings of one card, each a function of the immutable
 * `card`. `localized` stands for `String(localized:)` (a key to its translation), `parseUrl` for
 * `URL(string:)` and `formatDate` for the ISO 8601 parse followed by medium-style formatting.
 */
module CardDetailView {
  import opened Wrappers
  import opened Text
  import opened Urls
  import opened Constants
  import opened CardModel

  /** `line` reads as the translated label `labelKey`, then `": "`, then `value`. */
  predicate LabelledLine(localized: string -> string, labelKey: string, line: string, value: string) {
    var prefix := localized(labelKey) + ": ";
    |prefix| <= |line| && line[..|prefix|] == prefix && line[|prefix|..] == value
  }

  /** A labelled line determines the value it shows. */
  lemma LabelledLineDeterminesValue(localized: string -> string, labelKey: string, line: string, v1: string, v2: string)
    requires LabelledLine(localized, labelKey, line, v1) && LabelledLine(localized, labelKey, line, v2)
    ensures v1 == v2
  {
  }

  /** `<label>: <value>`, the shape of every labelled line. */
  function Labelled(localized: string -> string, labelKey: string, value: string): (r: string)
    ensures LabelledLine(localized, labelKey, r, value)
  {
    var r := localized(labelKey) + ": " + value;
    assert r[..|localized(labelKey) + ": "|] == localized(labelKey) + ": ";
    assert r[|localized(labelKey) + ": "|..] == value;
    r
  }

  /** `cardName`. */
  function CardName(card: Card, localized: string -> string): (r: string)
    ensures card.name.Some? ==> r == card.name.value
    ensures card.name.None? ==> r == localized("unknown_card_name")
  {
    card.name.GetOr(localized("unknown_card_name"))
  }

  /** `imageURL`: the high-quality image, `<image>/high.png`. */
  function ImageURL(card: Card, parseUrl: string -> Option<Url>): (r: Option<Url>)
    ensures card.image.None? ==> r.None?
    ensures card.image.Some? ==> (r.Some? <==> parseUrl(card.image.value).Some?)
    ensures r.Some? ==> r.value == AppendPathComponent(parseUrl(card.image.value).value, "high.png")
    ensures r.Some? ==> EndsWith(r.value.absoluteString, "/high.png")
  {
    QualityImageUrl(card.image, HighQuality, parseUrl)
  }

  /** `illustrator`. */
  function Illustrator(card: Card, localized: string -> string): (r: string)
    ensures LabelledLine(localized, "illustrator_label", r,
              if card.illustrator.Some? then card.illustrator.value else localized("illustrator_label_default_value"))
  {
    Labelled(localized, "illustrator_label", card.illustrator.GetOr(localized("illustrator_label_default_value")))
  }

  /** `rarity`; its default reads the illustrator's default key. */
  function Rarity(card: Card, localized: string -> string): (r: string)
    ensures LabelledLine(localized, "rarity_label", r,
              if card.rarity.Some? then card.rarity.value else localized("illustrator_label_default_value"))
  {
    Labelled(localized, "rarity_label", card.rarity.GetOr(localized("illustrator_label_default_value")))
  }

  /** `setName`. */
  function SetName(card: Card, localized: string -> string): (r: string)
    ensures LabelledLine(localized, "set_label", r,
              if card.cardSet.Some? && card.cardSet.value.name.Some? then card.cardSet.value.name.value
              else localized("set_label_default_value"))
  {
    var name := if card.cardSet.Some? then card.cardSet.value.name else None;
    Labelled(localized, "set_label", name.GetOr(localized("set_label_default_value")))
  }

  /** `setSymbolURL`. */
  function SetSymbolURL(card: Card, parseUrl: string -> Option<Url>): (r: Option<Url>)
    ensures card.cardSet.None? || card.cardSet.value.symbol.None? ==> r.None?
    ensures card.cardSet.Some? && card.cardSet.value.symbol.Some? ==> r == parseUrl(card.cardSet.value.symbol.value)
  {
    if card.cardSet.Some? && card.cardSet.value.symbol.Some? then parseUrl(card.cardSet.value.symbol.value) else None
  }

  /** `hp`: an absent value shows as `0`. */
  function Hp(card: Card, localized: string -> string): (r: string)
    ensures LabelledLine(localized, "hp_label", r, IntToDecimal(card.hp.GetOr(0)))
    ensures card.hp.None? ==> r == localized("hp_label") + ": 0"
  {
    Labelled(localized, "hp_label", IntToDecimal(card.hp.GetOr(0)))
  }

  /** `types`: the list joined by `", "`, or the default when the list is absent. */
  function Types(card: Card, localized: string -> string): (r: string)
    ensures LabelledLine(localized, "type_label", r,
              if card.types.Some? then Join(card.types.value, ", ") else localized("type_label_default_value"))
    ensures card.types == Some([]) ==> r == localized("type_label") + ": "
  {
    Labelled(localized, "type_label",
             if card.types.Some? then Join(card.types.value, ", ") else localized("type_label_default_value"))
  }

  /** `evolveFrom`: not applicable when the value is missing or empty. */
  function EvolveFrom(card: Card, localized: string -> string): (r: string)
    ensures card.evolveFrom.None? || card.evolveFrom.value == "" ==> r == localized("n_a")
    ensures card.evolveFrom.Some? && card.evolveFrom.value != "" ==>
              r == localized("evolves_from_label") + ": " + card.evolveFrom.value
  {
    if card.evolveFrom.None? || card.evolveFrom.value == "" then localized("n_a")
    else Labelled(localized, "evolves_from_label", card.evolveFrom.GetOr(localized("evolves_from_label_default_value")))
  }

  /** `description`: the text alone, without a label. */
  function Description(card: Card, localized: string -> string): (r: string)
    ensures card.description.Some? ==> r == card.description.value
    ensures card.description.None? ==> r == localized("description_label_default_value")
  {
    card.description.GetOr(localized("description_label_default_value"))
  }

  /** `stage`. */
  function Stage(card: Card, localized: string -> string): (r: string)
    ensures LabelledLine(localized, "stage_label", r,
              if card.stage.Some? then card.stage.value else localized("stage_label_default_value"))
  {
    Labelled(localized, "stage_label", card.stage.GetOr(localized("stage_label_default_value")))
  }

  /** `retreatCost`: an absent value shows as `0`. */
  function RetreatCost(card: Card, localized: string -> string): (r: string)
    ensures LabelledLine(localized, "retreat_cost_label", r, IntToDecimal(card.retreat.GetOr(0)))
    ensures card.retreat.None? ==> r == localized("retreat_cost_label") + ": 0"
  {
    Labelled(localized, "retreat_cost_label", IntToDecimal(card.retreat.GetOr(0)))
  }

  /** `regulationMark`. */
  function RegulationMark(card: Card, localized: string -> string): (r: string)
    ensures LabelledLine(localized, "regulation_mark_label", r,
              if card.regulationMark.Some? then card.regulationMark.value
              else localized("regulation_mark_label_default_value"))
  {
    Labelled(localized, "regulation_mark_label",
             card.regulationMark.GetOr(localized("regulation_mark_label_default_value")))
  }

  /** Whether the card is legal in the standard and in the expanded format; absent flags are false. */
  predicate StandardLegal(card: Card) { card.legal.Some? && card.legal.value.standard == Some(true) }

  predicate ExpandedLegal(card: Card) { card.legal.Some? && card.legal.value.expanded }

  /** The formats a card is legal in, standard first. */
  function LegalFormats(card: Card, localized: string -> string): (r: seq<string>)
    ensures |r| == (if StandardLegal(card) then 1 else 0) + (if ExpandedLegal(card) then 1 else 0)
    ensures StandardLegal(card) ==> r[0] == localized("legal_status_label_standard_value")
    ensures ExpandedLegal(card) ==> r[|r| - 1] == localized("legal_status_label_expanded_value")
  {
    (if StandardLegal(card) then [localized("legal_status_label_standard_value")] else [])
    + (if ExpandedLegal(card) then [localized("legal_status_label_expanded_value")] else [])
  }

  /** `legalStatus`. */
  function LegalStatus(card: Card, localized: string -> string): (r: string)
    ensures StandardLegal(card) && ExpandedLegal(card) ==>
              r == localized("legal_status_label_standard_value") + ", " + localized("legal_status_label_expanded_value")
    ensures StandardLegal(card) && !ExpandedLegal(card) ==> r == localized("legal_status_label_standard_value")
    ensures !StandardLegal(card) && ExpandedLegal(card) ==> r == localized("legal_status_label_expanded_value")
    ensures !StandardLegal(card) && !ExpandedLegal(card) ==> r == localized("legal_status_label_none_value")
  {
    var formats := LegalFormats(card, localized);
    if formats == [] then localized("legal_status_label_none_value") else Join(formats, ", ")
  }

  /** `legalStatus` as the source computes it, appending one status at a time. */
  method ComputeLegalStatus(card: Card, localized: string -> string) returns (status: string)
    ensures status == LegalStatus(card, localized)
  {
    var statuses: seq<string> := [];
    if card.legal.Some? && card.legal.value.standard.GetOr(false) {
      JoinAppend(statuses, localized("legal_status_label_standard_value"), ", ");
      statuses := statuses + [localized("legal_status_label_standard_value")];
    }
    if card.legal.Some? && card.legal.value.expanded {
      JoinAppend(statuses, localized("legal_status_label_expanded_value"), ", ");
      statuses := statuses + [localized("legal_status_label_expanded_value")];
    }
    assert statuses == LegalFormats(card, localized);
    status := if statuses == [] then localized("legal_status_label_none_value") else Join(statuses, ", ");
  }

  /** `legalities`. */
  function Legalities(card: Card, localized: string -> string): (r: string)
    ensures LabelledLine(localized, "legalities_label", r, LegalStatus(card, localized))
  {
    Labelled(localized, "legalities_label", LegalStatus(card, localized))
  }

  /**
   * `formattedDate`: the formatted date when `updated` parses; otherwise the raw `updated` text,
   * or the default when there is none.
   */
  function FormattedDate(card: Card, localized: string -> string, formatDate: string -> Option<string>): (r: string)
    ensures formatDate(card.updated.GetOr("")).Some? ==> r == formatDate(card.updated.GetOr("")).value
    ensures formatDate(card.updated.GetOr("")).None? && card.updated.Some? ==> r == card.updated.value
    ensures formatDate(card.updated.GetOr("")).None? && card.updated.None? ==> r == localized("date_label_default_value")
  {
    match formatDate(card.updated.GetOr(""))
    case Some(text) => text
    case None => card.updated.GetOr(localized("date_label_default_value"))
  }

  /** `lastUpdated`: label and date separated by a single space. */
  function LastUpdated(card: Card, localized: string -> string, formatDate: string -> Option<string>): (r: string)
    ensures r == localized("updated_label") + " " + FormattedDate(card, localized, formatDate)
  {
    localized("updated_label") + " " + FormattedDate(card, localized, formatDate)
  }

  /** `AttackViewModel`. */
  datatype AttackViewModel = AttackViewModel(name: string, effect: string, damage: string, cost: string)

  function AttackView(attack: Attack, localized: string -> string): (r: AttackViewModel)
    ensures r.damage == "??"
    ensures r.name == if attack.name.Some? then attack.name.value else localized("attacks_label_unknown_attack_value")
    ensures r.effect == if attack.effect.Some? then attack.effect.value else localized("attacks_label_no_effect_value")
    ensures r.cost == if attack.cost.Some? then Join(attack.cost.value, ", ") else localized("attacks_label_no_cost_value")
  {
    AttackViewModel(
      attack.name.GetOr(localized("attacks_label_unknown_attack_value")),
      attack.effect.GetOr(localized("attacks_label_no_effect_value")),
      "??",
      if attack.cost.Some? then Join(attack.cost.value, ", ") else localized("attacks_label_no_cost_value"))
  }

  /** `attacks`: one view per attack, in order; none when the card has no attack list. */
  function Attacks(card: Card, localized: string -> string): (r: seq<AttackViewModel>)
    ensures card.attacks.None? ==> r == []
    ensures card.attacks.Some? ==> |r| == |card.attacks.value|
    ensures card.attacks.Some? ==> forall i :: 0 <= i < |r| ==> r[i] == AttackView(card.attacks.value[i], localized)
  {
    if card.attacks.None? then []
    else seq(|card.attacks.value|, i requires 0 <= i < |card.attacks.value| => AttackView(card.attacks.value[i], localized))
  }

  /** `WeaknessViewModel`. */
  datatype WeaknessViewModel = WeaknessViewModel(weaknessType: string, value: string)

  function WeaknessView(weakness: Weekness, localized: string -> string): (r: WeaknessViewModel)
    ensures r.weaknessType == if weakness.weaknessType.Some? then weakness.weaknessType.value
                              else localized("weakness_label_unknown_type_value")
    ensures r.value == if weakness.value.Some? then weakness.value.value else localized("weakness_label_no_weakness_value")
  {
    WeaknessViewModel(weakness.weaknessType.GetOr(localized("weakness_label_unknown_type_value")),
                      weakness.value.GetOr(localized("weakness_label_no_weakness_value")))
  }

  /** `weaknesses`: one view per weakness, in order; none when the card has no weakness list. */
  function Weaknesses(card: Card, localized: string -> string): (r: seq<WeaknessViewModel>)
    ensures card.weaknesses.None? ==> r == []
    ensures card.weaknesses.Some? ==> |r| == |card.weaknesses.value|
    ensures card.weaknesses.Some? ==> forall i :: 0 <= i < |r| ==> r[i] == WeaknessView(card.weaknesses.value[i], localized)
  {
    if card.weaknesses.None? then []
    else seq(|card.weaknesses.value|, i requires 0 <= i < |card.weaknesses.value| => WeaknessView(card.weaknesses.value[i], localized))
  }

  /** With neither an illustrator nor a rarity, both lines show the same default text. */
  lemma RarityDefaultIsIllustratorDefault(card: Card, localized: string -> string)
    requires card.illustrator.None? && card.rarity.None?
    ensures LabelledLine(localized, "rarity_label", Rarity(card, localized), localized("illustrator_label_default_value"))
    ensures LabelledLine(localized, "illustrator_label", Illustrator(card, localized), localized("illustrator_label_default_value"))
  {
  }

  /**
   * The hit points shown are the card's own: `0` when absent, otherwise the text after the label
   * is the digits of the value, behind a minus sign when it is negative, and reads back as it.
   */
  lemma HpShownIsRecoverable(card: Card, localized: string -> string, shown: string)
    requires LabelledLine(localized, "hp_label", Hp(card, localized), shown)
    ensures card.hp.None? ==> shown == "0"
    ensures card.hp.GetOr(0) >= 0 ==>
              (forall i :: 0 <= i < |shown| ==> IsDigit(shown[i])) &&
              DecimalValue(shown) == card.hp.GetOr(0)
    ensures card.hp.GetOr(0) < 0 ==>
              |shown| >= 2 && shown[0] == '-' &&
              (forall i :: 1 <= i < |shown| ==> IsDigit(shown[i])) &&
              DecimalValue(shown[1..]) == -card.hp.GetOr(0)
  {
    var hp := card.hp.GetOr(0);
    LabelledLineDeterminesValue(localized, "hp_label", Hp(card, localized), shown, IntToDecimal(hp));
    if hp >= 0 {
      DecimalRoundTrip(hp);
    } else {
      DecimalRoundTrip(-hp);
      assert shown[1..] == NatToDecimal(-hp);
    }
  }

  /** The detail test's image: the base URL of card swsh3-136 with `high.png` appended. */
  lemma ImageUrlExample(card: Card, parseUrl: string -> Option<Url>)
    requires card.image == Some("https://assets.tcgdex.net/en/swsh/swsh3/136")
    requires parseUrl("https://assets.tcgdex.net/en/swsh/swsh3/136") == Some(Url("https://assets.tcgdex.net/en/swsh/swsh3/136"))
    ensures ImageURL(card, parseUrl) == Some(Url("https://assets.tcgdex.net/en/swsh/swsh3/136/high.png"))
  {
    var base := "https://assets.tcgdex.net/en/swsh/swsh3/136";
    assert !EndsWith(base, "/") by { assert base[|base| - 1] == '6'; }
    assert base + "/" + "high.png" == "https://assets.tcgdex.net/en/swsh/swsh3/136/high.png";
  }

  /** The detail test's legalities: a card legal in the expanded format only. */
  lemma LegalitiesExample(card: Card, localized: string -> string)
    requires card.legal == Some(Legal(Some(false), true))
    requires localized("legalities_label") == "Legalities"
    requires localized("legal_status_label_expanded_value") == "Expanded"
    ensures Legalities(card, localized) == "Legalities: Expanded"
  {
  }

  /** The hit point line ends in the digits, so no translation makes it read `"110 HP"`. */
  lemma HpNever110HP(card: Card, localized: string -> string)
    requires card.hp == Some(110)
    ensures Hp(card, localized) != "110 HP"
  {
    var digits := IntToDecimal(110);
    assert digits == NatToDecimal(11) + [DigitChar(0)];
    assert digits[|digits| - 1] == '0';
    var line := Hp(card, localized);
    assert line == localized("hp_label") + ": " + digits;
    assert line[|line| - 1] == digits[|digits| - 1];
    assert "110 HP"[5] == 'P';
  }
}
