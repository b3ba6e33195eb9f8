/**
 * The inventory quick form (farm_quick_inventory): from the values a user
 * submits it composes the name of an inventory adjustment log, drafts the log
 * with its single inventory-adjustment quantity, and, before submission,
 * refuses a log type that cannot be created.
 *
 * The services the form calls are parameters: the asset and taxonomy term
 * storages become the lookups of a `Storage`, the log entity's own validation
 * becomes a violation count per log type, and the date element's timestamp is
 * given as an integer.
 */
module InventoryQuickForm {
  import opened Wrappers
  import opened Php

  /** An asset entity: only its id and label matter here. */
  datatype Asset = Asset(id: nat, name: string)

  /** A term of the `unit` vocabulary. */
  datatype UnitTerm = UnitTerm(id: nat, name: string)

  /** The `asset` form value: an asset entity already, or a raw value (normally its id). */
  datatype AssetValue = AssetEntity(entity: Asset) | AssetId(raw: Scalar)

  /** The value of a `text_format` element. */
  datatype RichText = RichText(value: string, format: string)

  /** The submitted form values the form reads. */
  datatype Submission = Submission(
    date: int,              // timestamp of the submitted `date`
    asset: AssetValue,      // `asset`
    quantityValue: Text,    // `quantity][value`
    quantityUnits: Text,    // `quantity][units` (a term id)
    quantityMeasure: Text,  // `quantity][measure`
    adjustment: Text,       // `inventory_adjustment`
    logType: Text,          // `log_type`
    notes: Option<RichText>,// `notes`
    done: Scalar,           // `done` checkbox
    customName: Scalar,     // `custom_name` checkbox
    name: Text              // `name`; None when the form has no (non-NULL) value for it
  )

  /** Entity storage loads: `load()` returns the entity or NULL. */
  datatype Storage = Storage(
    loadAsset: AssetValue -> Option<Asset>,
    loadTerm: string -> Option<UnitTerm>
  )

  /** The quantity record handed to log creation. */
  datatype QuantityDraft = QuantityDraft(
    measure: Text,
    value: Text,
    units: Option<UnitTerm>,
    adjustment: Text,
    asset: Option<Asset>
  )

  /** The log record handed to log creation. */
  datatype LogDraft = LogDraft(
    logType: Text,
    timestamp: int,
    quantities: seq<QuantityDraft>,
    notes: Option<RichText>,
    status: string,
    name: string
  )

  /** A form error attached to an element. */
  datatype FormError = FormError(element: string, message: string)

  const IncrementTemplate: string := "Increment inventory of @asset by @quantity"
  const DecrementTemplate: string := "Decrement inventory of @asset by @quantity"
  const ResetTemplate: string := "Reset inventory of @asset to @quantity"

  const LogTypeError: string :=
    "The selected log type cannot be created. It may have required fields that this form is unable to populate."

  // -----------------------------------------------------------------------
  // Name generation
  // -----------------------------------------------------------------------

  /**
   * The asset the name is about: an asset value is used as it is, a numeric
   * value is loaded, and anything else (or a failed load) is no asset.
   */
  function ResolveAsset(v: AssetValue, loadAsset: AssetValue -> Option<Asset>): (r: Option<Asset>)
    ensures v.AssetEntity? ==> r == Some(v.entity)
    ensures v.AssetId? && !IsNumeric(v.raw) ==> r == None
    ensures v.AssetId? && IsNumeric(v.raw) ==> r == loadAsset(v)
  {
    match v
    case AssetEntity(a) => Some(a)
    case AssetId(raw) => if IsNumeric(raw) then loadAsset(v) else None
  }

  /** The units term: loaded only when a units value is given (truthy), NULL otherwise. */
  function LoadUnits(units: Text, loadTerm: string -> Option<UnitTerm>): (r: Option<UnitTerm>)
    ensures !TextTruthy(units) ==> r == None
    ensures TextTruthy(units) ==> r == loadTerm(units.value)
  {
    if TextTruthy(units) then loadTerm(units.value) else None
  }

  /**
   * The quantity summary: the value, then " <unit label>" if a units term
   * was given and loads, then " (<measure>)" if a measure is given.
   */
  function QuantitySummary(value: Text, units: Text, measure: Text, loadTerm: string -> Option<UnitTerm>): (r: string)
    ensures TextOf(value) <= r
    ensures TextTruthy(measure) ==> |r| > 0 && r[|r| - 1] == ')'
    ensures LoadUnits(units, loadTerm).None? && !TextTruthy(measure) ==> r == TextOf(value)
  {
    var summary := TextOf(value);
    var summary := match LoadUnits(units, loadTerm)
      case Some(term) => summary + " " + term.name
      case None => summary;
    if TextTruthy(measure) then summary + " (" + measure.value + ")" else summary
  }

  /** The `switch` on the adjustment type: one template per known type, none otherwise. */
  function Template(adjustment: Text): (r: Option<string>)
    ensures r.Some? <==> adjustment in {Some("increment"), Some("decrement"), Some("reset")}
  {
    match adjustment
    case Some("increment") => Some(IncrementTemplate)
    case Some("decrement") => Some(DecrementTemplate)
    case Some("reset") => Some(ResetTemplate)
    case _ => None
  }

  /** Placeholder substitution into a message (a single `strtr` pass, longest key first). */
  function Format(template: string, assetLabel: string, quantity: string): (r: string)
    ensures '@' !in template ==> r == template
  {
    if '@' !in template then
      KeyFreeWithoutAt(template, assetLabel, quantity);
      StrtrCopies(template, [], Placeholders(assetLabel, quantity));
      assert template + [] == template;
      Strtr(template, Placeholders(assetLabel, quantity))
    else
      Strtr(template, Placeholders(assetLabel, quantity))
  }

  /** `generateLogName`. */
  function GenerateLogName(s: Submission, storage: Storage): (r: string)
    ensures ResolveAsset(s.asset, storage.loadAsset).None? ==> r == ""
    ensures Template(s.adjustment).None? ==> r == ""
  {
    match ResolveAsset(s.asset, storage.loadAsset)
    case None => ""
    case Some(asset) =>
      var quantity := QuantitySummary(s.quantityValue, s.quantityUnits, s.quantityMeasure, storage.loadTerm);
      match Template(s.adjustment)
      case None => ""
      case Some(template) => Format(template, asset.name, quantity)
  }

  // -----------------------------------------------------------------------
  // Submission and validation
  // -----------------------------------------------------------------------

  /** The log status: "done" when the `done` value is truthy, "pending" otherwise. */
  function Status(done: Scalar): (r: string)
    ensures r == "done" || r == "pending"
    ensures r == "done" <==> Truthy(done)
  {
    if Truthy(done) then "done" else "pending"
  }

  /** The log name: the submitted name when customising is on and a name is set, else the generated one. */
  function LogName(s: Submission, storage: Storage): (r: string)
    ensures Truthy(s.customName) && s.name.Some? ==> r == s.name.value
    ensures !Truthy(s.customName) || s.name.None? ==> r == GenerateLogName(s, storage)
  {
    var name := GenerateLogName(s, storage);
    if Truthy(s.customName) && s.name.Some? then s.name.value else name
  }

  /** `submitForm`: the log it hands to log creation. */
  function SubmitForm(s: Submission, storage: Storage): (r: LogDraft)
    ensures |r.quantities| == 1
    ensures r.quantities[0].measure == s.quantityMeasure && r.quantities[0].value == s.quantityValue
    ensures r.quantities[0].units == LoadUnits(s.quantityUnits, storage.loadTerm)
    ensures r.quantities[0].adjustment == s.adjustment
    ensures r.quantities[0].asset == storage.loadAsset(s.asset)
    ensures r.logType == s.logType && r.timestamp == s.date && r.notes == s.notes
    ensures r.status == Status(s.done)
    ensures r.name == LogName(s, storage)
  {
    var asset := storage.loadAsset(s.asset);
    var units := LoadUnits(s.quantityUnits, storage.loadTerm);
    var quantity := QuantityDraft(s.quantityMeasure, s.quantityValue, units, s.adjustment, asset);
    LogDraft(s.logType, s.date, [quantity], s.notes, Status(s.done), LogName(s, storage))
  }

  /** `validateForm`: one error on `log_type` when a minimal log of that type has violations. */
  function ValidateForm(s: Submission, violations: Text -> nat): (errors: seq<FormError>)
    ensures errors != [] <==> violations(s.logType) > 0
    ensures |errors| <= 1
    ensures forall e :: e in errors ==> e == FormError("log_type", LogTypeError)
  {
    if violations(s.logType) > 0 then [FormError("log_type", LogTypeError)] else []
  }

  // -----------------------------------------------------------------------
  // Properties
  // -----------------------------------------------------------------------


  /** The two placeholders a name template substitutes, the longer key first. */
  function Placeholders(assetLabel: string, quantity: string): (pairs: seq<(string, string)>)
    ensures ValidPairs(pairs)
  {
    [("@quantity", quantity), ("@asset", assetLabel)]
  }

  lemma KeyFreeWithoutAt(p: string, assetLabel: string, quantity: string)
    requires '@' !in p
    ensures KeyFree(p, Placeholders(assetLabel, quantity))
  {
  }

  /** "@asset" at the front is replaced by the asset label. */
  lemma FormatAssetFirst(tail: string, assetLabel: string, quantity: string)
    ensures Strtr("@asset" + tail, Placeholders(assetLabel, quantity))
         == assetLabel + Strtr(tail, Placeholders(assetLabel, quantity))
  {
    var pairs := Placeholders(assetLabel, quantity);
    var s := "@asset" + tail;
    assert FirstMatch(s, pairs) == Some(1) by {
      assert s[1] == 'a';
      assert !(pairs[0].0 <= s);
      assert pairs[1].0 <= s;
    }
    StrtrReplaces(1, tail, pairs);
  }

  /** "<middle>@quantity" becomes the middle followed by the quantity. */
  lemma FormatQuantityLast(middle: string, assetLabel: string, quantity: string)
    requires '@' !in middle
    ensures Strtr(middle + "@quantity", Placeholders(assetLabel, quantity)) == middle + quantity
  {
    var pairs := Placeholders(assetLabel, quantity);
    KeyFreeWithoutAt(middle, assetLabel, quantity);
    StrtrCopies(middle, "@quantity", pairs);
    assert FirstMatch("@quantity" + [], pairs) == Some(0) by {
      assert pairs[0].0 <= "@quantity" + [];
    }
    StrtrReplaces(0, [], pairs);
    assert "@quantity" + [] == "@quantity";
  }

  /** Substituting into "<prefix>@asset<middle>@quantity" when prefix and middle hold no '@'. */
  lemma FormatTwoPlaceholders(prefix: string, middle: string, assetLabel: string, quantity: string)
    requires '@' !in prefix && '@' !in middle
    ensures Format(prefix + "@asset" + middle + "@quantity", assetLabel, quantity)
         == prefix + assetLabel + middle + quantity
  {
    assert prefix + "@asset" + middle + "@quantity" == prefix + ("@asset" + (middle + "@quantity"));
    StrtrTwoPlaceholders(prefix, middle, assetLabel, quantity);
    assert prefix + (assetLabel + (middle + quantity)) == prefix + assetLabel + middle + quantity;
  }

  lemma StrtrTwoPlaceholders(prefix: string, middle: string, assetLabel: string, quantity: string)
    requires '@' !in prefix && '@' !in middle
    ensures Strtr(prefix + ("@asset" + (middle + "@quantity")), Placeholders(assetLabel, quantity))
         == prefix + (assetLabel + (middle + quantity))
  {
    var pairs := Placeholders(assetLabel, quantity);
    KeyFreeWithoutAt(prefix, assetLabel, quantity);
    StrtrCopies(prefix, "@asset" + (middle + "@quantity"), pairs);
    FormatAssetFirst(middle + "@quantity", assetLabel, quantity);
    FormatQuantityLast(middle, assetLabel, quantity);
  }

  lemma IncrementName(assetLabel: string, quantity: string)
    ensures Format(IncrementTemplate, assetLabel, quantity)
         == "Increment inventory of " + assetLabel + " by " + quantity
  {
    assert IncrementTemplate == "Increment inventory of " + "@asset" + " by " + "@quantity";
    FormatTwoPlaceholders("Increment inventory of ", " by ", assetLabel, quantity);
  }

  lemma DecrementName(assetLabel: string, quantity: string)
    ensures Format(DecrementTemplate, assetLabel, quantity)
         == "Decrement inventory of " + assetLabel + " by " + quantity
  {
    assert DecrementTemplate == "Decrement inventory of " + "@asset" + " by " + "@quantity";
    FormatTwoPlaceholders("Decrement inventory of ", " by ", assetLabel, quantity);
  }

  lemma ResetName(assetLabel: string, quantity: string)
    ensures Format(ResetTemplate, assetLabel, quantity)
         == "Reset inventory of " + assetLabel + " to " + quantity
  {
    assert ResetTemplate == "Reset inventory of " + "@asset" + " to " + "@quantity";
    FormatTwoPlaceholders("Reset inventory of ", " to ", assetLabel, quantity);
  }

  /** The three names, with the asset label and quantity summary substituted; only "reset" says "to". */
  lemma GeneratedNames(s: Submission, storage: Storage, asset: Asset)
    requires ResolveAsset(s.asset, storage.loadAsset) == Some(asset)
    ensures var q := QuantitySummary(s.quantityValue, s.quantityUnits, s.quantityMeasure, storage.loadTerm);
      && (s.adjustment == Some("increment") ==>
            GenerateLogName(s, storage) == "Increment inventory of " + asset.name + " by " + q)
      && (s.adjustment == Some("decrement") ==>
            GenerateLogName(s, storage) == "Decrement inventory of " + asset.name + " by " + q)
      && (s.adjustment == Some("reset") ==>
            GenerateLogName(s, storage) == "Reset inventory of " + asset.name + " to " + q)
  {
    var q := QuantitySummary(s.quantityValue, s.quantityUnits, s.quantityMeasure, storage.loadTerm);
    if s.adjustment == Some("increment") {
      GeneratedNameIs(s, storage, asset, IncrementTemplate);
      IncrementName(asset.name, q);
    } else if s.adjustment == Some("decrement") {
      GeneratedNameIs(s, storage, asset, DecrementTemplate);
      DecrementName(asset.name, q);
    } else if s.adjustment == Some("reset") {
      GeneratedNameIs(s, storage, asset, ResetTemplate);
      ResetName(asset.name, q);
    }
  }

  /** With a resolved asset and a known adjustment type, the name is that type's template, filled in. */
  lemma GeneratedNameIs(s: Submission, storage: Storage, asset: Asset, template: string)
    requires ResolveAsset(s.asset, storage.loadAsset) == Some(asset)
    requires Template(s.adjustment) == Some(template)
    ensures GenerateLogName(s, storage)
         == Format(template, asset.name,
                   QuantitySummary(s.quantityValue, s.quantityUnits, s.quantityMeasure, storage.loadTerm))
  {
  }

  /** The generated name is empty exactly when there is no asset or the adjustment type is unknown. */
  lemma GeneratedNameEmptyIff(s: Submission, storage: Storage)
    ensures GenerateLogName(s, storage) == ""
        <==> ResolveAsset(s.asset, storage.loadAsset).None? || Template(s.adjustment).None?
  {
    match ResolveAsset(s.asset, storage.loadAsset)
    case None =>
    case Some(asset) =>
      GeneratedNames(s, storage, asset);
  }

  /** The quantity summary, segment by segment and in this order. */
  lemma QuantitySummaryExact(value: Text, units: Text, measure: Text, loadTerm: string -> Option<UnitTerm>)
    ensures QuantitySummary(value, units, measure, loadTerm)
         == TextOf(value)
          + (if TextTruthy(units) && loadTerm(units.value).Some? then " " + loadTerm(units.value).value.name else "")
          + (if TextTruthy(measure) then " (" + measure.value + ")" else "")
  {
    var v := TextOf(value);
    var measurePart := if TextTruthy(measure) then " (" + measure.value + ")" else "";
    if TextTruthy(units) && loadTerm(units.value).Some? {
      var term := loadTerm(units.value).value;
      assert LoadUnits(units, loadTerm) == Some(term);
      SummaryAppends(v + " " + term.name, measure);
    } else {
      assert LoadUnits(units, loadTerm) == None;
      SummaryAppends(v, measure);
      assert v + "" == v;
    }
  }

  /** The measure step of the summary. */
  lemma SummaryAppends(withUnits: string, measure: Text)
    ensures (if TextTruthy(measure) then withUnits + " (" + measure.value + ")" else withUnits)
         == withUnits + (if TextTruthy(measure) then " (" + measure.value + ")" else "")
  {
    if !TextTruthy(measure) {
      assert withUnits + "" == withUnits;
    }
  }

  /** A units id that fails to load adds nothing: the summary is as if no units were given. */
  lemma UnitsLoadFailureIsSilent(value: Text, units: Text, measure: Text, loadTerm: string -> Option<UnitTerm>)
    requires TextTruthy(units) && loadTerm(units.value).None?
    ensures QuantitySummary(value, units, measure, loadTerm) == QuantitySummary(value, None, measure, loadTerm)
  {
  }

  /** Three sample summaries, for a term storage where "3" is kg and "9" is missing. */
  lemma QuantitySummaryExamples(loadTerm: string -> Option<UnitTerm>)
    requires loadTerm("3") == Some(UnitTerm(3, "kg")) && loadTerm("9") == None
    ensures QuantitySummary(Some("5"), Some("3"), Some("weight"), loadTerm) == "5 kg (weight)"
    ensures QuantitySummary(Some("5"), Some("9"), Some("weight"), loadTerm) == "5 (weight)"
    ensures QuantitySummary(Some("5"), None, Some(""), loadTerm) == "5"
  {
    assert TextTruthy(Some("3")) && TextTruthy(Some("9")) && TextTruthy(Some("weight"));
    assert !TextTruthy(None) && !TextTruthy(Some(""));
  }

  /**
   * When the asset value is a numeric id, the generated name and the quantity
   * are about the same loaded asset, whichever known adjustment type is chosen.
   */
  lemma NameAndQuantityShareAsset(s: Submission, storage: Storage, asset: Asset, template: string)
    requires s.asset.AssetId? && IsNumeric(s.asset.raw)
    requires storage.loadAsset(s.asset) == Some(asset)
    requires Template(s.adjustment) == Some(template) && !Truthy(s.customName)
    ensures var log := SubmitForm(s, storage);
      && log.quantities[0].asset == Some(asset)
      && log.name == Format(template, asset.name,
                            QuantitySummary(s.quantityValue, s.quantityUnits, s.quantityMeasure, storage.loadTerm))
  {
    GeneratedNameIs(s, storage, asset, template);
  }

  /** An increment of asset 7 ("Tractor") by 10, completed, with no units. */
  lemma SubmitExample(s: Submission, storage: Storage, tractor: Asset)
    requires s.asset == AssetId(Int(7)) && tractor.name == "Tractor"
    requires storage.loadAsset(AssetId(Int(7))) == Some(tractor)
    requires s.quantityValue == Some("10") && s.quantityUnits == None && s.quantityMeasure == Some("")
    requires s.adjustment == Some("increment") && s.done == Int(1) && s.customName == Int(0)
    ensures SubmitForm(s, storage).name == "Increment inventory of Tractor by 10"
    ensures SubmitForm(s, storage).status == "done"
    ensures SubmitForm(s, storage).quantities
         == [QuantityDraft(Some(""), Some("10"), None, Some("increment"), Some(tractor))]
  {
    var q := QuantitySummary(s.quantityValue, s.quantityUnits, s.quantityMeasure, storage.loadTerm);
    assert q == "10";
    assert ResolveAsset(s.asset, storage.loadAsset) == Some(tractor) by {
      assert IsNumeric(Int(7));
    }
    GeneratedNames(s, storage, tractor);
    var name := GenerateLogName(s, storage);
    assert name == "Increment inventory of " + tractor.name + " by " + q;
    TractorName(tractor.name, q);
    assert !Truthy(s.customName);
    assert LogName(s, storage) == name;
  }

  lemma TractorName(assetLabel: string, quantity: string)
    requires assetLabel == "Tractor" && quantity == "10"
    ensures "Increment inventory of " + assetLabel + " by " + quantity == "Increment inventory of Tractor by 10"
  {
  }

  /** The same submission with a custom name: the custom name wins. */
  lemma SubmitCustomNameExample(s: Submission, storage: Storage)
    requires s.customName == Int(1) && s.name == Some("Morning count")
    ensures SubmitForm(s, storage).name == "Morning count"
  {
  }
}
