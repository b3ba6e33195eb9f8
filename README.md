# Inventory quick form: log name and draft log

This project models the inventory quick form of farmOS (`farm_quick_inventory`).
The form records an adjustment (increment, decrement or reset) of an asset's
inventory as a log. The model covers its three pieces of logic:

- **Name generation** (`generateLogName`). The form resolves the asset value:
  an asset is used as it is, a numeric value is loaded by id, and anything else
  counts as no asset. It then summarises the quantity as the value, an optional
  unit label and an optional `(measure)`. Finally it fills one of three fixed
  message templates, chosen by adjustment type. With no asset, or with an
  unknown adjustment type, the name is `""`.
- **Draft log** (`submitForm`). The form builds one inventory-adjustment
  quantity (measure, value, units term, adjustment type, asset) and a log
  (type, timestamp, the one quantity, notes, status `done` or `pending`). The
  log's name is the generated one, unless "customize log name" is on and a
  name was submitted.
- **Log type gate** (`validateForm`). The form creates a minimal log of the
  chosen type and validates it. If there is any violation, it sets exactly one
  error on `log_type`.

Everything is a pure function. The services the form calls are parameters:

- The asset storage and the taxonomy term storage are the two lookups of a
  `Storage` value. Each `load()` returns the entity or nothing.
- The log entity's validation is a violation count for each log type.
- The date element's `getTimestamp()` is the integer `Submission.date`.
- The call to `createLog` becomes the returned `LogDraft`.

Files:

- `wrappers.dfy`: the `Option` type.
- `php.dfy`: the PHP semantics the form relies on. These are truthiness (`if
  ($x)`, `$x ? … : …`, `empty()`), `is_numeric` on strings under PHP 8's rules
  for numeric strings, NULL in string concatenation, and `strtr` with an array
  of replacements. `strtr` is how a translated message substitutes its
  `@placeholder` arguments.
- `inventory.dfy`: the form itself and its properties.

An empty custom name `""` also replaces the generated name. `Inventory.php:344`
tests that `custom_name` is truthy and that `FormState::hasValue('name')` holds,
and `hasValue` only asks whether the value is set and not NULL. `LogName`
models this.

## Model

| member | source | states |
|---|---|---|
| `InventoryQuickForm.ResolveAsset` | modules/quick/inventory/src/Plugin/QuickForm/Inventory.php:252-258 | An asset value is used unchanged. A value that `is_numeric` accepts gives whatever the asset storage loads for it. Any other value gives no asset. |
| `InventoryQuickForm.LoadUnits` | modules/quick/inventory/src/Plugin/QuickForm/Inventory.php:316-319 | The units term is looked up only when the units value is truthy, and then it is the lookup's result. Otherwise it is NULL. |
| `InventoryQuickForm.QuantitySummary` | modules/quick/inventory/src/Plugin/QuickForm/Inventory.php:261-270 | The summary starts with the quantity value (NULL reads as `""`). It ends in `)` when a measure is given. It is just the value when no unit loads and no measure is given. |
| `InventoryQuickForm.QuantitySummaryExact` | modules/quick/inventory/src/Plugin/QuickForm/Inventory.php:261-270 | The summary is the value, then `" " + unit label` if the units value is truthy and the term loads, then `" (" + measure + ")"` if the measure is truthy, in that order. |
| `InventoryQuickForm.UnitsLoadFailureIsSilent` | modules/quick/inventory/src/Plugin/QuickForm/Inventory.php:262-266 | A units id that is given but does not load changes nothing. The summary is the same as with no units at all, and there is no error. |
| `InventoryQuickForm.QuantitySummaryExamples` | modules/quick/inventory/src/Plugin/QuickForm/Inventory.php:261-270 | `5` with unit `kg` and measure `weight` gives `"5 kg (weight)"`. An unknown unit id gives `"5 (weight)"`. No units and an empty measure give `"5"`. |
| `InventoryQuickForm.Template` | modules/quick/inventory/src/Plugin/QuickForm/Inventory.php:273-285 | A template is chosen exactly for `increment`, `decrement` and `reset`. Every other value, NULL included, falls through the `switch`. |
| `InventoryQuickForm.Format` | modules/quick/inventory/src/Plugin/QuickForm/Inventory.php:275-283 | A message is filled by one `strtr` pass over the `@quantity` and `@asset` placeholders, longest key first. A template with no `@` comes back unchanged. Its values on the three templates are stated by `IncrementName`, `DecrementName` and `ResetName`. |
| `InventoryQuickForm.FormatTwoPlaceholders` | modules/quick/inventory/src/Plugin/QuickForm/Inventory.php:275-283 | One left-to-right `strtr` pass over `<prefix>@asset<middle>@quantity`, with no `@` in the prefix or middle, gives `prefix + asset label + middle + quantity`. This holds even when the label or quantity contains a placeholder. |
| `InventoryQuickForm.IncrementName` | modules/quick/inventory/src/Plugin/QuickForm/Inventory.php:274-276 | The increment template becomes `"Increment inventory of " + label + " by " + quantity`. |
| `InventoryQuickForm.DecrementName` | modules/quick/inventory/src/Plugin/QuickForm/Inventory.php:278-280 | The decrement template becomes `"Decrement inventory of " + label + " by " + quantity`. |
| `InventoryQuickForm.ResetName` | modules/quick/inventory/src/Plugin/QuickForm/Inventory.php:282-284 | The reset template becomes `"Reset inventory of " + label + " to " + quantity`. |
| `InventoryQuickForm.GenerateLogName` | modules/quick/inventory/src/Plugin/QuickForm/Inventory.php:248-288 | With no resolved asset, the name is `""` whatever the quantity and adjustment are. With an adjustment type outside the three known ones, the name is `""` as well. |
| `InventoryQuickForm.GeneratedNames` | modules/quick/inventory/src/Plugin/QuickForm/Inventory.php:273-285 | With a resolved asset, `increment`, `decrement` and `reset` give their three names, with the asset label and the quantity summary substituted. Only `reset` says "to"; the other two say "by". |
| `InventoryQuickForm.GeneratedNameEmptyIff` | modules/quick/inventory/src/Plugin/QuickForm/Inventory.php:249-287 | The generated name is `""` if and only if there is no asset or the adjustment type is unknown. |
| `InventoryQuickForm.Status` | modules/quick/inventory/src/Plugin/QuickForm/Inventory.php:332 | The status is always `"done"` or `"pending"`. It is `"done"` exactly when the `done` value is truthy. |
| `InventoryQuickForm.LogName` | modules/quick/inventory/src/Plugin/QuickForm/Inventory.php:343-346 | The name is the submitted one when `custom_name` is truthy and `name` holds a value. Otherwise it is the generated name. |
| `InventoryQuickForm.SubmitForm` | modules/quick/inventory/src/Plugin/QuickForm/Inventory.php:310-346 | The draft log has exactly one quantity. That quantity carries the submitted measure, value and adjustment type unchanged, the loaded units term (or none) and the asset storage's result for the asset value. Type, timestamp and notes pass through. The status and name follow `Status` and `LogName`. |
| `InventoryQuickForm.NameAndQuantityShareAsset` | modules/quick/inventory/src/Plugin/QuickForm/Inventory.php:313-343 | Take a numeric asset id that loads, any known adjustment type and no custom name. The quantity's asset is the loaded asset, and the log name is that adjustment's template filled with the same asset's label and the quantity summary. |
| `InventoryQuickForm.SubmitExample` | modules/quick/inventory/src/Plugin/QuickForm/Inventory.php:310-346 | Take asset 7 ("Tractor"), value `10`, no units, an empty measure, `increment`, done and no custom name. The log is then named `"Increment inventory of Tractor by 10"`, its status is `"done"`, and its one quantity is the submitted one with the loaded asset. |
| `InventoryQuickForm.SubmitCustomNameExample` | modules/quick/inventory/src/Plugin/QuickForm/Inventory.php:343-346 | With `custom_name` on and the name `"Morning count"`, the log's name is `"Morning count"`. |
| `InventoryQuickForm.ValidateForm` | modules/quick/inventory/src/Plugin/QuickForm/Inventory.php:293-305 | At most one error is raised. There is an error exactly when the minimal log of the chosen type has a non-zero violation count. The error sits on `log_type` with the fixed message. |
| `Php.Truthy` | modules/quick/inventory/src/Plugin/QuickForm/Inventory.php:332 | A scalar is false in `if (...)`, `?:` and `empty()` exactly when it is NULL, `false`, `0`, `""` or `"0"`. |
| `Php.TextTruthy` | modules/quick/inventory/src/Plugin/QuickForm/Inventory.php:262-268 | A text form value is false exactly when it is NULL, `""` or `"0"`. |
| `Php.TextTruthyIff` | modules/quick/inventory/src/Plugin/QuickForm/Inventory.php:262 | A text value passes `if (...)` exactly when it is a string other than `""` and `"0"`, so NULL, `""` and `"0"` all count as absent. |
| `Php.IsNumeric` | modules/quick/inventory/src/Plugin/QuickForm/Inventory.php:253 | `is_numeric` under PHP 8: an integer is numeric, NULL and booleans are not, and a string is numeric when, after leading and trailing white space, it is an optionally signed integer or decimal with an optional exponent. Whatever passes is an integer or a string that holds a digit. |
| `Php.DigitStringIsNumeric` | modules/quick/inventory/src/Plugin/QuickForm/Inventory.php:253 | Every non-empty string of decimal digits (an entity id) passes `is_numeric`, so it is loaded. |
| `Php.NumericStringHasDigit` | modules/quick/inventory/src/Plugin/QuickForm/Inventory.php:253 | A string that passes `is_numeric` holds at least one digit. So `""`, white space and text without digits are never loaded. |
| `Php.FirstMatchIsLongest` | modules/quick/inventory/src/Plugin/QuickForm/Inventory.php:275-283 | Where several keys start the text, `strtr` picks the longest one. |
| `Php.StrtrCopies` | modules/quick/inventory/src/Plugin/QuickForm/Inventory.php:275-283 | Text in which no key can start is copied through `strtr` unchanged, and the rest is substituted on its own. |
| `Php.StrtrReplaces` | modules/quick/inventory/src/Plugin/QuickForm/Inventory.php:275-283 | A key that `strtr` picks is replaced, and scanning resumes after it, so the replacement is never rescanned. |

## Left out

- `buildForm` is not modelled. It is form render arrays, AJAX wiring, the default date and the filtering of log types by create access.
- The constructor, `create` and `logNameCallback` are not modelled. They are dependency injection and AJAX glue.
- `modules/log/lab_test/src/Plugin/Log/LogType/LabTest.php` is not part of this model. It only declares field definitions for the host platform's field system.
- Log creation is not modelled. `createLog` persists the log; the model returns the `LogDraft` it would be given.
- Validation of the minimal log is a parameter. `Log::create(...)->validate()` becomes a violation count per log type.
- Date conversion is outside the model. `DrupalDateTime::getTimestamp()` becomes the given integer `Submission.date`.
- Translation is not modelled. The templates are substituted as written, in English.
- InventoryQuickForm.GeneratedNames: the HTML escaping that `t()` applies to `@quantity` is not modelled, so a unit label or measure containing `&`, `<`, `>`, `"` or `'` is substituted unescaped. `Markup::create` marks the asset label as safe, so that label is not escaped in the source either.
- Floating-point scalars are not modelled. Form values here are strings, integers, booleans or NULL.
- The asset storage's handling of non-id values is a parameter. `submitForm` passes the raw asset value to `load()` unconditionally; what storage returns for a value that is not an id (an asset object, a non-numeric string) is whatever `Storage.loadAsset` says.
- The array value of a units term created on the fly is not modelled. That is the `#autocreate` setting of the units autocomplete; the units value is a term id, a string or NULL.
- PHP's `switch` compares loosely. For the string or NULL adjustment values modelled here, that is the exact string match of `Template`.
