# Record cleansing of `DataNormalizationService`, in Dafny

This project models the record-cleansing pipeline of the manufacturing-lot
reconciliation system's `DataNormalizationService`, and proves what it does.
The pipeline takes a batch of tokenised rows. Each row is a dict from field
name to a cell value. It returns a new batch built in two passes over every
row:

1. **Trim** (`_trim_whitespace`): every string value is stripped of
   whitespace on both sides.
2. **Leading-zero strip** (`_remove_leading_zeros`): every non-empty string
   value whose first character is a digit loses its leading `'0'`s, and
   becomes `"0"` if nothing else is left.

Non-string values and keys pass through unchanged. The entry points
`normalize_production_data`, `normalize_quality_data` and
`normalize_shipping_data` run the same loop.

Files:

- `records.dfy`, module `Records`: the cell `Value` (a string, or an
  integer, real, date or null that is never rewritten), and a row (`Record`)
  as the sequence of its `(key, value)` entries in dict insertion order.
  `Get` models `d.get(k)`, `Put` models `d[k] = v`, and `MapValues` is the
  rebuild-every-value pattern both passes follow.
- `text.dfy`, module `Text`: `str.strip()` (`Strip`, built from `TrimStart`
  and `TrimEnd`), `str.lstrip('0')` (`LStripZeros`) and the per-value
  zero rule (`StripLeadingZeros`). It also holds a loop-free description of
  stripping (`IsStripOf`), proved equivalent to `Strip` in both directions,
  and the string-level facts.
- `data_normalization_service.dfy`, module `DataNormalizationService`: the
  two passes and the three entry points as methods with loops, as the
  service writes them. Each is proved against a specification function
  (`MapValues(r, TrimValue)`, `MapValues(r, ZeroValue)`,
  `NormalizeRecord`), and the properties of those functions are proved as
  lemmas.

Modelling decisions:

- A Python `dict` always has distinct keys. The methods therefore require
  `DistinctKeys` of their input. The two passes ensure it of their output;
  for the entry points it follows through `NormalizeRecordKeys`. With
  distinct keys, `trimmed[key] = ...` inside the loop appends a new entry,
  so the output has the input's keys in the input's order.
- Whitespace is the ASCII part of what `str.strip()` removes: U+0009 to
  U+000D, U+001C to U+001F, and the space. A digit is `'0'..'9'`. Python's
  `str.isdigit()` also accepts other Unicode digits. `Text.DigitSetIrrelevant`
  proves this makes no difference: `lstrip('0')` changes a string only when
  it starts with `'0'`, so any digit set that contains `'0'` gives the same
  result.
- Inputs are values, so "the input is left unmodified" holds by construction.
- Only the first character is tested. So `"00A"` becomes `"A"`, although
  the service's comment speaks of "numeric strings". The model follows the
  code.
- Proved observation: the two passes are each idempotent, but their
  composition is not. Zero-stripping can expose whitespace that the earlier
  trim could not see: `"0 5"` cleans to `" 5"`, and cleaning again gives
  `"5"` (`CleanseNotIdempotent`). The code does not promise more, so this
  is reported as a property of the code, not as a defect.
- The docstrings of the three entry points (src/services/data_normalization_service.py:18,
  :40 and :62) also promise to standardise dates to YYYY-MM-DD. The loops never
  call `_standardize_date`, whose body is `pass`, as are those of
  `_standardize_lot_id` and `validate_normalized_record`. The model follows
  the code. A slash date is therefore only trimmed and zero-stripped:
  `"02/10/2026"` becomes `"2/10/2026"` (`SlashDateNotStandardised`).

## Model

| member | source | states |
|---|---|---|
| `Records.Keys` | src/services/data_normalization_service.py:80 | the keys of a record in the order `dict.items()` yields them (no contract of its own; `KeysAt` below gives it position by position) |
| `Records.KeysAt` | src/services/data_normalization_service.py:80 | the key sequence has one key per entry, and key i is the key of entry i |
| `Records.Get` | tests/unit/services/test_data_normalization_service.py:31-35 | `d.get(k)`: the value of the first entry holding `k`, or nothing (no contract of its own; `GetSome` below says when it finds something) |
| `Records.GetSome` | tests/unit/services/test_data_normalization_service.py:31-35 | a lookup finds a value exactly when the key is among the record's keys |
| `Records.Put` | src/services/data_normalization_service.py:82-84 | dict assignment: afterwards the key maps to the new value and every other key to what it held before; a new key is appended at the end, and an existing key keeps the key sequence unchanged |
| `Records.MapValues` | src/services/data_normalization_service.py:79-85 | rebuilding a record value by value gives the same length, with entry i holding the original key i and the image of the original value i |
| `Records.MapValuesKeys` | src/services/data_normalization_service.py:80 | the rebuilt record has the original's key sequence, and distinct keys stay distinct |
| `Records.MapValuesGet` | src/services/data_normalization_service.py:80-84 | looking a key up in the rebuilt record gives the image of the original value, or nothing when the original lacks the key |
| `Records.BuiltByMapValues` | src/services/data_normalization_service.py:79-85 | a record built entry by entry, each entry holding the original key and the image of the original value, is the rebuild: it has the original's key sequence, keeps keys distinct, and under each key holds the image of the original value |
| `Text.IsSpace` | src/services/data_normalization_service.py:82 | the whitespace `str.strip()` removes: U+0009 to U+000D, U+001C to U+001F and the space (no contract of its own) |
| `Text.IsDigit` | src/services/data_normalization_service.py:94 | the digit test `value[0].isdigit()`, on `'0'..'9'` (no contract of its own; `DigitSetIrrelevant` shows the choice does not matter) |
| `Text.TrimStart` | src/services/data_normalization_service.py:82 | the leading half of `strip()`: drops whitespace from the front until a non-whitespace character or the end (no contract of its own; `TrimStartShape` states its meaning) |
| `Text.TrimEnd` | src/services/data_normalization_service.py:82 | the trailing half of `strip()`: drops whitespace from the back until a non-whitespace character or the start (no contract of its own; `TrimEndShape` states its meaning) |
| `Text.TrimStartShape` | src/services/data_normalization_service.py:82 | what is left is a suffix of the input, everything cut is whitespace, and the rest does not start with whitespace |
| `Text.TrimEndShape` | src/services/data_normalization_service.py:82 | what is left is a prefix of the input, everything cut is whitespace, and the rest does not end with whitespace |
| `Text.Strip` | src/services/data_normalization_service.py:82 | `strip()` never lengthens a string and leaves no whitespace at either end |
| `Text.StripIsStripOf` | src/services/data_normalization_service.py:82 | `strip()` returns a contiguous slice of the input, with only whitespace cut on either side and no whitespace left at either end |
| `Text.StripOfIsStrip` | src/services/data_normalization_service.py:82 | any slice with that description equals `strip()`, which makes the description and `Strip` equivalent |
| `Text.StripAt` | src/services/data_normalization_service.py:82 | given bounds where only whitespace lies outside and no whitespace is at either edge inside, `strip()` returns exactly the slice between them |
| `Text.StripEmpty` | src/services/data_normalization_service.py:82 | `strip()` returns the empty string exactly when the input is all whitespace |
| `Text.StripIdempotent` | src/services/data_normalization_service.py:82 | stripping twice equals stripping once |
| `Text.LStripZeros` | src/services/data_normalization_service.py:95 | `value.lstrip('0')`: drops `'0'`s from the front until another character or the end (no contract of its own; `LStripZerosShape` states its meaning) |
| `Text.LStripZerosShape` | src/services/data_normalization_service.py:95 | `lstrip('0')` leaves a suffix of the input, everything cut is `'0'`, and the rest does not start with `'0'` |
| `Text.StripLeadingZeros` | src/services/data_normalization_service.py:94-97 | the zero rule returns empty exactly for empty input, never lengthens, and its result is `"0"` or does not start with `'0'` |
| `Text.StripLeadingZerosShape` | src/services/data_normalization_service.py:94-95 | the rule returns `"0"` exactly for a non-empty all-`'0'` value; any other result is the suffix left after a run of `'0'`s |
| `Text.DigitSetIrrelevant` | src/services/data_normalization_service.py:94 | the rule with any digit test that accepts `'0'` (Python's Unicode `isdigit` among them) gives the same result as with `'0'..'9'` |
| `Text.StripLeadingZerosIdempotent` | src/services/data_normalization_service.py:94-95 | applying the zero rule twice equals applying it once |
| `Text.ZerosBeforeLetter` | src/services/data_normalization_service.py:94-95 | only the first character is tested: `"00A"` becomes `"A"` and `"00LOT123"` becomes `"LOT123"` |
| `Text.AllZerosKeepOne` | src/services/data_normalization_service.py:95 | `"000"` becomes `"0"`: a value never collapses to the empty string |
| `Text.LetterFirstKept` | src/services/data_normalization_service.py:96-97 | `"LOT001"` starts with a letter and is kept, zeros and all |
| `Text.PaddedNinetyFive` | tests/unit/services/test_data_normalization_service.py:24-35 | `"  95  "` strips to `"95"`, which the zero rule keeps |
| `Text.PaddedSeven` | src/services/data_normalization_service.py:28-29 | `"  007 "` strips to `"007"`, which the zero rule turns into `"7"` |
| `Text.PaddingHidesZeros` | src/services/data_normalization_service.py:28-29 | without trimming first, `"  007 "` would pass the zero rule untouched |
| `Text.SlashDateLosesZero` | src/services/data_normalization_service.py:82 | `"02/10/2026"` has no padding, so `strip()` keeps it, and the zero rule turns it into `"2/10/2026"` |
| `Text.CleanStringMeaning` | src/services/data_normalization_service.py:28-29 | a string after both passes is never longer, is empty exactly when it was all whitespace, never ends in whitespace, and is `"0"` or does not start with `'0'` |
| `DataNormalizationService.TrimValue` | src/services/data_normalization_service.py:81-84 | what the trim pass does to one value: a string is stripped, anything else is kept (no contract of its own; `PassesNeverLengthen` and `TrimPassIdempotent` state its properties) |
| `DataNormalizationService.ZeroValue` | src/services/data_normalization_service.py:91-99 | what the zero pass does to one value: a string goes through the zero rule, anything else is kept (no contract of its own; `PassesNeverLengthen` and `ZeroPassIdempotent` state its properties) |
| `DataNormalizationService.CleanValue` | src/services/data_normalization_service.py:28-29 | one value after both passes, trimmed first and then zero-stripped (no contract of its own; `CleanValueMeaning` states its meaning) |
| `DataNormalizationService.NormalizeRecord` | src/services/data_normalization_service.py:28-29 | one record after both passes: the trim rebuild, then the zero rebuild (no contract of its own; `NormalizeRecordKeys`, `NormalizeRecordAt` and `NormalizeRecordGet` state its meaning) |
| `DataNormalizationService.TrimWhitespace` | src/services/data_normalization_service.py:77-85 | the loop builds the value-by-value rebuild with `TrimValue`: the same keys in the same order, distinct keys kept, and under every key the stripped string or the untouched non-string |
| `DataNormalizationService.RemoveLeadingZeros` | src/services/data_normalization_service.py:87-100 | the loop builds the value-by-value rebuild with `ZeroValue`: the same keys in the same order, distinct keys kept, and under every key the zero-stripped string or the untouched value |
| `DataNormalizationService.NormalizeProductionData` | src/services/data_normalization_service.py:26-31 | the result has the input's length, and element i is record i trimmed and then zero-stripped |
| `DataNormalizationService.NormalizeQualityData` | src/services/data_normalization_service.py:48-53 | the result has the input's length, and element i is record i trimmed and then zero-stripped |
| `DataNormalizationService.NormalizeShippingData` | src/services/data_normalization_service.py:70-75 | the result has the input's length, and element i is record i trimmed and then zero-stripped |
| `DataNormalizationService.EntryPointsAgree` | src/services/data_normalization_service.py:11-75 | the three entry points return the same batch for the same input |
| `DataNormalizationService.NormalizeRecordKeys` | src/services/data_normalization_service.py:28-30 | a normalised record keeps the input's key sequence, so its keys and their order, and keeps them distinct |
| `DataNormalizationService.NormalizeRecordAt` | src/services/data_normalization_service.py:28-30 | a normalised record has the input's length, and entry i is input entry i with its value trimmed and then zero-stripped |
| `DataNormalizationService.NormalizeRecordGet` | src/services/data_normalization_service.py:28-30 | looked up by key, a normalised record holds the cleaned input value; it finds a value exactly for the keys of the input, so it has no key the input lacks |
| `DataNormalizationService.FieldCleaned` | src/services/data_normalization_service.py:28-30 | a field that holds a value before normalisation holds that value's cleaned form under the same key afterwards |
| `DataNormalizationService.CleanValueMeaning` | src/services/data_normalization_service.py:28-29 | a non-string is untouched; a string stays a string, is not lengthened, is empty exactly when it was all whitespace, does not end in whitespace, and is `"0"` or does not start with `'0'` |
| `DataNormalizationService.TrimPassIdempotent` | src/services/data_normalization_service.py:79-85 | the trim pass applied to its own output changes nothing |
| `DataNormalizationService.ZeroPassIdempotent` | src/services/data_normalization_service.py:89-100 | the zero pass applied to its own output changes nothing |
| `DataNormalizationService.PassesNeverLengthen` | src/services/data_normalization_service.py:81-99 | neither pass lengthens a string or changes its kind, and both leave non-strings alone |
| `DataNormalizationService.TrimBeforeZeros` | src/services/data_normalization_service.py:28-29 | trimming runs first: `"  95  "` cleans to `"95"` and `"  007 "` to `"7"`, while in the other order `"  007 "` would end as `"007"` |
| `DataNormalizationService.SlashDateNotStandardised` | src/services/data_normalization_service.py:18 | dates are not standardised, whatever the docstring says: `"02/10/2026"` cleans to `"2/10/2026"`, not to `"2026-02-10"` |
| `DataNormalizationService.CleanseNotIdempotent` | src/services/data_normalization_service.py:28-29 | the two passes together are not idempotent: `"0 5"` cleans to `" 5"`, and cleaning that gives `"5"` |
| `DataNormalizationService.ProductionTestRowFields` | tests/unit/services/test_data_normalization_service.py:18-26 | the unit test's row has distinct keys and holds the padded values the test starts from |
| `DataNormalizationService.ProductionRowScenario` | tests/unit/services/test_data_normalization_service.py:16-35 | for any dict holding the test row's values (which `ProductionTestRowFields` shows the literal row does), normalising that one row gives one record, with `lot_code` `"LOT001"`, `production_line_id` `"LINE_A"`, `shift` `"FIRST"`, `units_planned` the integer 100 and `units_actual` `"95"` |

## Left out

- `_standardize_date`, `_standardize_lot_id` and `validate_normalized_record` (src/services/data_normalization_service.py:102-112): their bodies are `pass`, so there is no behaviour to model.
- Validation, integration, conflict resolution and the integrated view (src/services/*.py apart from the normalisation service): every method is a stub.
- Data access, file ingestion, configuration, the dashboard and main.py: storage, file and environment I/O, UI rendering, or empty orchestration.
- Non-ASCII whitespace (such as U+0085, U+00A0 and U+2000..U+200A) that Python's `str.strip()` also removes: Unicode character classes are abstracted to the ASCII set.
- Cell values of kinds other than string, integer, real, date and null: every non-string passes through both passes unchanged, so more kinds would add nothing.
- Object identity of the returned dicts and lists: the model works on values. It therefore does not show that the service returns fresh containers, only that the inputs are never changed.
