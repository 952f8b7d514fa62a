/**
 The record-cleansing pipeline of `DataNormalizationService`. A batch of
 tokenised rows goes through two passes, each of which builds a fresh record
 entry by entry: every string value is stripped of surrounding whitespace,
 then every string value that starts with a digit loses its leading '0's.
 The production, quality and shipping entry points run the same loop.
 */
module DataNormalizationService {
  import opened Records
  import opened Text

  /** What the trim pass does to one value: strings are stripped, anything
      else is kept. */
  function TrimValue(v: Value): Value
  {
    match v
    case Str(s) => Str(Strip(s))
    case _ => v
  }

  /** What the leading-zero pass does to one value. */
  function ZeroValue(v: Value): Value
  {
    match v
    case Str(s) => Str(StripLeadingZeros(s))
    case _ => v
  }

  /** Both passes in their order: trim first, then strip zeros. */
  function CleanValue(v: Value): Value
  {
    ZeroValue(TrimValue(v))
  }

  /** The record one call of a `normalize_*_data` loop body produces. */
  function NormalizeRecord(r: Record): Record
  {
    MapValues(MapValues(r, TrimValue), ZeroValue)
  }

  // ---------------------------------------------------------------------------
  // The passes, as the service runs them

  /** `_trim_whitespace`: a fresh record with the same keys in the same
      order, every string value stripped, every other value kept. */
  method TrimWhitespace(record: Record) returns (trimmed: Record)
    requires DistinctKeys(record)
    ensures trimmed == MapValues(record, TrimValue)
    ensures Keys(trimmed) == Keys(record) && DistinctKeys(trimmed)
    ensures forall k :: Get(trimmed, k) == match Get(record, k) { case None => None case Some(v) => Some(TrimValue(v)) }
  {
    trimmed := [];
    for i := 0 to |record|
      invariant |trimmed| == i
      invariant forall k :: 0 <= k < i ==> trimmed[k] == Entry(record[k].key, TrimValue(record[k].value))
    {
      var key, value := record[i].key, record[i].value;
      NextKeyIsNew(record, trimmed, i);
      ghost var before := trimmed;
      match value {
        case Str(s) =>
          trimmed := Put(trimmed, key, Str(Strip(s)));
        case _ =>
          trimmed := Put(trimmed, key, value);
      }
      assert trimmed == before + [Entry(key, TrimValue(value))];
    }
    BuiltByMapValues(record, TrimValue, trimmed);
  }

  /** `_remove_leading_zeros`: a fresh record with the same keys in the same
      order; a non-empty string value whose first character is a digit loses
      its leading '0's, becoming "0" if nothing else is left; every other
      value is kept. */
  method RemoveLeadingZeros(record: Record) returns (processed: Record)
    requires DistinctKeys(record)
    ensures processed == MapValues(record, ZeroValue)
    ensures Keys(processed) == Keys(record) && DistinctKeys(processed)
    ensures forall k :: Get(processed, k) == match Get(record, k) { case None => None case Some(v) => Some(ZeroValue(v)) }
  {
    processed := [];
    for i := 0 to |record|
      invariant |processed| == i
      invariant forall k :: 0 <= k < i ==> processed[k] == Entry(record[k].key, ZeroValue(record[k].value))
    {
      var key, value := record[i].key, record[i].value;
      NextKeyIsNew(record, processed, i);
      ghost var before := processed;
      match value {
        case Str(s) =>
          if s != [] && IsDigit(s[0]) {
            var t := LStripZeros(s);
            processed := Put(processed, key, Str(if t == [] then "0" else t));
          } else {
            processed := Put(processed, key, value);
          }
        case _ =>
          processed := Put(processed, key, value);
      }
      assert processed == before + [Entry(key, ZeroValue(value))];
    }
    BuiltByMapValues(record, ZeroValue, processed);
  }

  /** `normalize_production_data`: one output record per input record, in input order, each
      trimmed and then stripped of leading zeros. */
  method NormalizeProductionData(rawRecords: seq<Record>) returns (normalized: seq<Record>)
    requires forall i :: 0 <= i < |rawRecords| ==> DistinctKeys(rawRecords[i])
    ensures |normalized| == |rawRecords|
    ensures forall i :: 0 <= i < |rawRecords| ==> normalized[i] == NormalizeRecord(rawRecords[i])
  {
    normalized := [];
    for i := 0 to |rawRecords|
      invariant |normalized| == i
      invariant forall k :: 0 <= k < i ==> normalized[k] == NormalizeRecord(rawRecords[k])
    {
      var normalizedRecord := TrimWhitespace(rawRecords[i]);
      normalizedRecord := RemoveLeadingZeros(normalizedRecord);
      normalized := normalized + [normalizedRecord];
    }
  }

  /** `normalize_quality_data`: one output record per input record, in input order, each
      trimmed and then stripped of leading zeros. */
  method NormalizeQualityData(rawRecords: seq<Record>) returns (normalized: seq<Record>)
    requires forall i :: 0 <= i < |rawRecords| ==> DistinctKeys(rawRecords[i])
    ensures |normalized| == |rawRecords|
    ensures forall i :: 0 <= i < |rawRecords| ==> normalized[i] == NormalizeRecord(rawRecords[i])
  {
    normalized := [];
    for i := 0 to |rawRecords|
      invariant |normalized| == i
      invariant forall k :: 0 <= k < i ==> normalized[k] == NormalizeRecord(rawRecords[k])
    {
      var normalizedRecord := TrimWhitespace(rawRecords[i]);
      normalizedRecord := RemoveLeadingZeros(normalizedRecord);
      normalized := normalized + [normalizedRecord];
    }
  }

  /** `normalize_shipping_data`: one output record per input record, in input order, each
      trimmed and then stripped of leading zeros. */
  method NormalizeShippingData(rawRecords: seq<Record>) returns (normalized: seq<Record>)
    requires forall i :: 0 <= i < |rawRecords| ==> DistinctKeys(rawRecords[i])
    ensures |normalized| == |rawRecords|
    ensures forall i :: 0 <= i < |rawRecords| ==> normalized[i] == NormalizeRecord(rawRecords[i])
  {
    normalized := [];
    for i := 0 to |rawRecords|
      invariant |normalized| == i
      invariant forall k :: 0 <= k < i ==> normalized[k] == NormalizeRecord(rawRecords[k])
    {
      var normalizedRecord := TrimWhitespace(rawRecords[i]);
      normalizedRecord := RemoveLeadingZeros(normalizedRecord);
      normalized := normalized + [normalizedRecord];
    }
  }

  /** The three entry points compute the same function of their input. */
  method EntryPointsAgree(rawRecords: seq<Record>) returns (production: seq<Record>, quality: seq<Record>, shipping: seq<Record>)
    requires forall i :: 0 <= i < |rawRecords| ==> DistinctKeys(rawRecords[i])
    ensures production == quality == shipping
  {
    production := NormalizeProductionData(rawRecords);
    quality := NormalizeQualityData(rawRecords);
    shipping := NormalizeShippingData(rawRecords);
  }

  // ---------------------------------------------------------------------------
  // What the passes mean

  /** A normalised record has the input's keys, in the input's order, and
      keeps them distinct. */
  lemma NormalizeRecordKeys(r: Record)
    ensures Keys(NormalizeRecord(r)) == Keys(r)
    ensures DistinctKeys(r) ==> DistinctKeys(NormalizeRecord(r))
  {
    MapValuesKeys(r, TrimValue);
    MapValuesKeys(MapValues(r, TrimValue), ZeroValue);
  }

  /** Entry i of a normalised record is entry i of the input with its value
      cleaned: the trimmed and zero-stripped string, or the untouched
      non-string. */
  lemma NormalizeRecordAt(r: Record, i: nat)
    requires i < |r|
    ensures |NormalizeRecord(r)| == |r|
    ensures NormalizeRecord(r)[i] == Entry(r[i].key, CleanValue(r[i].value))
  {
  }

  /** Looked up by key, a normalised record holds the cleaned input value,
      and has no key the input lacks. */
  lemma NormalizeRecordGet(r: Record, k: string)
    ensures Get(NormalizeRecord(r), k) ==
            match Get(r, k) { case None => None case Some(v) => Some(CleanValue(v)) }
    ensures Get(NormalizeRecord(r), k).Some? <==> k in Keys(r)
  {
    GetSome(r, k);
    MapValuesGet(r, TrimValue, k);
    MapValuesGet(MapValues(r, TrimValue), ZeroValue, k);
  }

  /** A field's cleaned value is found under the same key after normalisation. */
  lemma FieldCleaned(r: Record, key: string, raw: Value, clean: Value)
    requires Get(r, key) == Some(raw) && CleanValue(raw) == clean
    ensures Get(NormalizeRecord(r), key) == Some(clean)
  {
    NormalizeRecordGet(r, key);
  }

  /** The cleaned form of one value. A non-string is untouched. A string is
      never lengthened, is empty only if it was all whitespace, never ends
      in whitespace, and is "0" or does not start with '0'. */
  lemma CleanValueMeaning(v: Value)
    ensures !v.Str? ==> CleanValue(v) == v
    ensures v.Str? ==> CleanValue(v).Str?
    ensures v.Str? ==> |CleanValue(v).s| <= |v.s|
    ensures v.Str? ==> (CleanValue(v).s == [] <==> AllSpace(v.s))
    ensures v.Str? ==> CleanValue(v).s == [] || !IsSpace(CleanValue(v).s[|CleanValue(v).s| - 1])
    ensures v.Str? ==> CleanValue(v).s == [] || CleanValue(v).s == "0" || CleanValue(v).s[0] != '0'
  {
    if v.Str? {
      CleanStringMeaning(v.s);
    }
  }

  /** `_trim_whitespace` applied to its own output changes nothing. */
  lemma TrimPassIdempotent(r: Record)
    ensures MapValues(MapValues(r, TrimValue), TrimValue) == MapValues(r, TrimValue)
  {
    forall v ensures TrimValue(TrimValue(v)) == TrimValue(v) {
      if v.Str? { StripIdempotent(v.s); }
    }
    MapValuesIdempotent(r, TrimValue);
  }

  /** `_remove_leading_zeros` applied to its own output changes nothing. */
  lemma ZeroPassIdempotent(r: Record)
    ensures MapValues(MapValues(r, ZeroValue), ZeroValue) == MapValues(r, ZeroValue)
  {
    forall v ensures ZeroValue(ZeroValue(v)) == ZeroValue(v) {
      if v.Str? { StripLeadingZerosIdempotent(v.s); }
    }
    MapValuesIdempotent(r, ZeroValue);
  }

  /** Neither pass lengthens a string value or turns it into a non-string. */
  lemma PassesNeverLengthen(v: Value)
    ensures v.Str? ==> TrimValue(v).Str? && |TrimValue(v).s| <= |v.s|
    ensures v.Str? ==> ZeroValue(v).Str? && |ZeroValue(v).s| <= |v.s|
    ensures !v.Str? ==> TrimValue(v) == v && ZeroValue(v) == v
  {
  }

  /** Trimming comes first, so padded numeric text loses both its padding
      and its zeros; in the other order the padding would hide the zeros. */
  lemma TrimBeforeZeros()
    ensures CleanValue(Str("  95  ")) == Str("95")
    ensures CleanValue(Str("  007 ")) == Str("7")
    ensures TrimValue(ZeroValue(Str("  007 "))) == Str("007")
  {
    PaddedNinetyFive();
    PaddedSeven();
    PaddingHidesZeros();
  }

  /** Dates are not standardised: a slash date is only trimmed and
      zero-stripped, so its leading zero goes and its format stays. */
  lemma SlashDateNotStandardised()
    ensures CleanValue(Str("02/10/2026")) == Str("2/10/2026")
  {
    SlashDateLosesZero();
  }

  /** Cleaning twice is not always cleaning once: zero-stripping can expose
      whitespace that the trim pass, which ran first, could not see. */
  lemma CleanseNotIdempotent()
    ensures CleanValue(Str("0 5")) == Str(" 5")
    ensures CleanValue(Str(" 5")) == Str("5")
  {
    ZeroBeforeSpaceTrimmed();
    ZeroBeforeSpaceStripped();
    SpaceBeforeFive();
  }

  /** The production row of the service's unit test. */
  function ProductionTestRow(): Record
  {
    [ Entry("lot_code", Str("  LOT001  ")),
      Entry("production_line_id", Str(" LINE_A ")),
      Entry("shift", Str("  FIRST  ")),
      Entry("units_planned", Int(100)),
      Entry("units_actual", Str("  95  ")) ]
  }

  /** The test row is a dict, and each field cleans to what the test expects. */
  lemma ProductionTestRowFields()
    ensures DistinctKeys(ProductionTestRow())
    ensures Get(ProductionTestRow(), "lot_code") == Some(Str("  LOT001  "))
    ensures Get(ProductionTestRow(), "production_line_id") == Some(Str(" LINE_A "))
    ensures Get(ProductionTestRow(), "shift") == Some(Str("  FIRST  "))
    ensures Get(ProductionTestRow(), "units_planned") == Some(Int(100))
    ensures Get(ProductionTestRow(), "units_actual") == Some(Str("  95  "))
  {
  }

  /** The service's unit test on any row holding the test's values, as
      ProductionTestRow does: string fields lose their padding, the integer
      field is untouched, and one record comes back for one record in. */
  method ProductionRowScenario(row: Record) returns (result: seq<Record>)
    requires DistinctKeys(row)
    requires Get(row, "lot_code") == Some(Str("  LOT001  "))
    requires Get(row, "production_line_id") == Some(Str(" LINE_A "))
    requires Get(row, "shift") == Some(Str("  FIRST  "))
    requires Get(row, "units_planned") == Some(Int(100))
    requires Get(row, "units_actual") == Some(Str("  95  "))
    ensures |result| == 1
    ensures Get(result[0], "lot_code") == Some(Str("LOT001"))
    ensures Get(result[0], "production_line_id") == Some(Str("LINE_A"))
    ensures Get(result[0], "shift") == Some(Str("FIRST"))
    ensures Get(result[0], "units_planned") == Some(Int(100))
    ensures Get(result[0], "units_actual") == Some(Str("95"))
  {
    result := NormalizeProductionData([row]);
    PaddedLotCode();
    FieldCleaned(row, "lot_code", Str("  LOT001  "), Str("LOT001"));
    PaddedLine();
    FieldCleaned(row, "production_line_id", Str(" LINE_A "), Str("LINE_A"));
    PaddedShift();
    FieldCleaned(row, "shift", Str("  FIRST  "), Str("FIRST"));
    FieldCleaned(row, "units_planned", Int(100), Int(100));
    PaddedNinetyFive();
    FieldCleaned(row, "units_actual", Str("  95  "), Str("95"));
  }
}
