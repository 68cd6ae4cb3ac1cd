# Pebble tip calculator: the calculation engine and input handling, in Dafny

The Pebble tip calculator keeps one bill, a tip percentage and a number of
people splitting. From them it derives the tip, the total and each person's
share, all in whole cents. Each value sits in an editable field, and the
watch's up, down, select and back buttons step the focused field and move the
focus from field to field.

The repository holds two revisions, and they disagree on rounding, defaults,
persistence keys and text formats, so each gets its own modules:

- `project/src/calculator.c` becomes **ProjectCalculator**. It rounds half
  up (`divide_and_round`) and has `calc_manip_*(delta)` editors. Those editors
  jump to the other end of a field's range when the step overshoots. It
  persists the bill and the tip percentage.
- `project/src/tipcalc.c` becomes **ProjectTipcalc**. It has the accelerated
  step of a held button (`get_click_accelerated_delta`), signed-step dispatch
  to the focused field, and the select/back focus machine. That machine
  recomputes the totals as it moves.
- `src/calculator.c` becomes **SrcCalculator**. It rounds up (`ceil`) and has
  `calc_inc_*`/`calc_dec_*` single-step editors that recompute after every
  step. Its defaults are $444.44, 34% and 4 people. It uses its own keys and
  the `%3d`, `%2d` and `%4d.%2d/` formats.
- `src/tipcalc.c` becomes **SrcTipcalc**. One press is one step, with no
  acceleration, and the focus machine leaves the engine alone.

Shared modules:

- **CArith**: C's truncating `/` and `%`.
- **Currency**: `CurrencyAmount` and its conversions to and from cents. The
  code is the same in both revisions (project/src/calculator.c:33-41,
  src/calculator.c:29-37).
- **Text**: `%d`, `%Nd`, `%0Nd` and `snprintf` truncation, with
  `DecimalValue` as the reading-back partner.
- **Persist**: the device's key-value store, as a `map<int, StoredValue>`
  where the last write to a key wins.
- **Revisions**: compares the two rounding rules.

State maps onto Dafny like this:

- The module-level statics of each `calculator.c` become the fields of a
  `Calculator` class.
- `current_input_idx` and the `is_selected` flags of `input_fields` become
  an `InputPanel` class. The flags are held in an `array<bool>`.
- The editing and recomputing methods' contracts tie the new state to
  `ComputeTotals`, `Wrapped`, `Incremented` or `Decremented` of the old
  state. The persistence methods give the store key by key, and the reads
  give the inputs through `ReadBill` and `ReadInt`. The focus methods give
  the new index and keep `Valid()`.
  Lemmas state what those functions promise: exact rounding bounds,
  round-trips, ranges, cycles, and how the two revisions' tips compare.

## Model

| member | source | states |
|---|---|---|
| `CArith.Quot` | project/src/calculator.c:39 | C `/`: agrees with Euclidean division on non-negative operands, and its sign follows the operands' signs |
| `CArith.Rem` | project/src/calculator.c:40 | C `%`: `a == b*Quot(a,b) + r`, with the remainder smaller than the divisor and taking the sign of the dividend |
| `Currency.FromCents` | project/src/calculator.c:38-41 | `currency_amount_set_from_cents` followed by `get_in_cents` gives the cents back. The amount is normal (dollars ≥ 0, cents in [0,99]) exactly when the input is non-negative |
| `Currency.FromInCents` | src/calculator.c:29-37 | The other round trip: `currency_amount_get_as_cents` (`get_in_cents` at project/src/calculator.c:33-35) of a normal amount, split again, rebuilds it |
| `Text.FormatInt` | project/src/calculator.c:91-116 | printf `%d`, `%Nd`, `%0Nd`: for n ≥ 0 the digits of n right-aligned in max(width, digit count); space padding puts blanks in front, zero padding gives digits that read back as n; a negative n carries a '-' |
| `Text.Snprintf` | project/src/calculator.c:93 | `snprintf` into a buffer of `size` bytes: a prefix of the text shorter than `size`, equal to the text exactly when the text fits |
| `Text.SpacePaddedFits` | src/calculator.c:78-96 | `%Nd` of a non-negative number of at most N digits is exactly N characters: blanks, then the digits |
| `Persist.ReadIntAfterWrite` | src/calculator.c:55-66 | `persist_read_int` after a write: the integer last written to that key, 0 after a bill record was written there, and a write to another key changes nothing |
| `Persist.ReadBillAfterWrite` | src/calculator.c:58-64 | `persist_read_data` after a write: the bill record last written to that key, the buffer unchanged after an integer was written there, and a write to another key changes nothing |
| `ProjectCalculator.RoundsHalfUpUnique` | project/src/calculator.c:27-30 | Only one integer rounds num/den half up, so the rounding rule fully determines the result |
| `ProjectCalculator.DivideAndRoundIsHalfUp` | project/src/calculator.c:27-30 | For d ≥ 0 and k ≥ 1, `divide_and_round` (the function `DivideAndRound`) gives r ≥ 0 with r·k ≤ d + k/2 < (r+1)·k, so it rounds d/k half up: −k ≤ 2·(d − r·k) < k, which only one integer meets |
| `ProjectCalculator.ComputeTotals` | project/src/calculator.c:44-55 | The total is the bill plus the tip, exactly, in cents |
| `ProjectCalculator.ComputeTotalsRounding` | project/src/calculator.c:44-55 | The tip is bill·percentage/100 rounded half up. The share is total/people rounded half up. All three amounts have cents in [0,99] |
| `ProjectCalculator.TotalsInDisplayRange` | project/src/calculator.c:47-54 | For in-range inputs: tip ≤ $400.00, total ≤ $1399.99, and the share never exceeds the total |
| `ProjectCalculator.TotalsFitDisplay` | project/src/calculator.c:126-137 | For in-range inputs with current totals, the total and share dollars have at most four digits |
| `ProjectCalculator.Wrapped` | project/src/calculator.c:142-150 | The manip rule stays in [lo,hi]. It equals v+delta exactly when that is in range, jumps to lo past the top, and to hi below the bottom |
| `ProjectCalculator.FullRangeDeltaLandsOnMin` | project/src/calculator.c:143-144 | A step of the whole range's width does not return a field to its value: it lands on the minimum |
| `ProjectCalculator.MoneyText` | project/src/calculator.c:119-123 | `%d.%02d` in 9 bytes: for normal amounts under 100000 dollars, dollars, a point and two digits whose reading is the amount in cents, untruncated |
| `ProjectCalculator.Calculator.constructor` | project/src/calculator.c:19-24 | The statics start at zero |
| `ProjectCalculator.Calculator.UpdateTotals` | project/src/calculator.c:44-55 | Leaves the inputs alone and makes the derived amounts equal `ComputeTotals` of them. It is idempotent |
| `ProjectCalculator.Calculator.ResetToDefaults` | project/src/calculator.c:58-63 | Sets $10.00, 15% and 1 person, in range. The tip becomes $1.50 and the total and share $11.50 |
| `ProjectCalculator.Calculator.PersistStore` | project/src/calculator.c:69-73 | Writes version 1 to key 100, the tip percentage to 300 and the bill record to 200. No other key changes |
| `ProjectCalculator.Calculator.PersistRead` | project/src/calculator.c:76-85 | If a bill is saved, takes the bill and tip from the store, sets 1 person and recomputes. Otherwise resets to the defaults. In range when the saved values are |
| `ProjectCalculator.Calculator.BillDollarsText` | project/src/calculator.c:91-95 | `%d` in 4 bytes: for in-range dollars, exactly their digits, reading back as the dollars |
| `ProjectCalculator.Calculator.BillCentsText` | project/src/calculator.c:98-102 | `%02d` in 3 bytes: for in-range cents, two digits reading back as the cents |
| `ProjectCalculator.Calculator.TipPercentText` | project/src/calculator.c:105-109 | `%d` in 3 bytes: the percentage's digits, untruncated |
| `ProjectCalculator.Calculator.NumSplittingText` | project/src/calculator.c:112-116 | `%d` in 2 bytes: one digit, reading back as the count |
| `ProjectCalculator.Calculator.TipText` | project/src/calculator.c:119-123 | A money text reading back as the tip in cents, at most 6 characters |
| `ProjectCalculator.Calculator.TotalText` | project/src/calculator.c:126-130 | A money text reading back as the total in cents, at most 7 characters |
| `ProjectCalculator.Calculator.TotalPerPersonText` | project/src/calculator.c:133-137 | A money text reading back as the share in cents, at most 7 characters |
| `ProjectCalculator.Calculator.ManipBillDollars` | project/src/calculator.c:142-150 | Dollars become `Wrapped(old, delta, 1, 999)`. Only the bill's dollars change, with no recomputation. Range is kept |
| `ProjectCalculator.Calculator.ManipBillCents` | project/src/calculator.c:153-161 | Cents become `Wrapped(old, delta, 0, 99)`. The dollars never change and nothing is recomputed |
| `ProjectCalculator.Calculator.ManipTipPercent` | project/src/calculator.c:164-173 | The percentage becomes `Wrapped(old, delta, 1, 40)`. The other inputs are unchanged and the totals are current |
| `ProjectCalculator.Calculator.ManipNumSplitting` | project/src/calculator.c:176-185 | The count becomes `Wrapped(old, delta, 1, 9)`. The other inputs are unchanged and the totals are current |
| `ProjectCalculator.SaveThenReload` | project/src/calculator.c:69-85 | A store, then a read, restores the bill and tip and resets the split to 1. The result is in range with current totals |
| `ProjectCalculator.RoundingEdgeExample` | project/src/calculator.c:47 | $10.01 at 15%: tip $1.50, total $11.51 |
| `ProjectCalculator.EvenSplitExample` | project/src/calculator.c:53 | $50.00 at 20% split two ways: $10.00, $60.00, $30.00 each |
| `ProjectTipcalc.AcceleratedDelta` | project/src/tipcalc.c:174-187 | Always 0, 1, 10 or 100. It is 1 exactly for n ≤ 50. For 50 < n ≤ 100 it is 10 exactly when 3 divides n. Past 100 it is 100 exactly when 5 divides n |
| `ProjectTipcalc.HeldTotalFirstBand` | project/src/tipcalc.c:177-178 | The steps that ticks 1..n of a hold pass to `manipulate` sum to n for n ≤ 50 |
| `ProjectTipcalc.HeldTotalSecondBand` | project/src/tipcalc.c:179-180 | From tick 51 to tick 100 every third step is 10, so the steps passed to `manipulate` sum to 50 + 10·(n/3 − 16) |
| `ProjectTipcalc.HeldTotalThirdBand` | project/src/tipcalc.c:181-182 | Past tick 100 every fifth step is 100, so the steps sum to 220 + 100·(n/5 − 20). These are the steps passed to `manipulate` up to tick 255 (see Left out) |
| `ProjectTipcalc.ClickDelta` | project/src/tipcalc.c:194-198 | The step is always 0, 1, 10 or 100, and it is 1 exactly for a single press or within the first 50 ticks of a hold |
| `ProjectTipcalc.InputPanel.constructor` | project/src/tipcalc.c:388-391 | The focus is on bill dollars, the only field selected |
| `ProjectTipcalc.InputPanel.Manipulate` | project/src/tipcalc.c:199 | Only the focused field's input changes, by `Wrapped`. The bill editors leave the totals stale; the tip and split editors make them current |
| `ProjectTipcalc.InputPanel.UpClick` | project/src/tipcalc.c:190-201 | The focused field is edited by +1, or by +accelerated while held |
| `ProjectTipcalc.InputPanel.DownClick` | project/src/tipcalc.c:204-215 | The focused field is edited by −1, or by −accelerated while held |
| `ProjectTipcalc.InputPanel.SelectClick` | project/src/tipcalc.c:219-227 | Below the last field, the focus and the selection move one on and the totals become current. On the last field nothing changes. Exactly the focused field stays selected |
| `ProjectTipcalc.InputPanel.BackClick` | project/src/tipcalc.c:230-240 | Exits exactly at the first field. Otherwise the focus and the selection move one back. The totals are current either way |
| `ProjectTipcalc.EditDollarsThenSelect` | project/src/tipcalc.c:219-227 | After a dollars edit, a select brings the totals back in line with the new bill |
| `SrcCalculator.RoundsUpUnique` | src/calculator.c:43 | Only one integer r has (r−1)·den < num ≤ r·den, so rounding up fully determines the result |
| `SrcCalculator.CeilDivIsCeiling` | src/calculator.c:43-49 | The `ceil` of the quotient at lines 43 and 49 (the function `CeilDiv`): for b ≥ 1 it rounds a/b up in that sense, and it is non-negative for non-negative a |
| `SrcCalculator.ComputeTotals` | src/calculator.c:40-51 | The total is the bill plus the tip, exactly, in cents |
| `SrcCalculator.ComputeTotalsCeiling` | src/calculator.c:40-51 | The tip is the least whole cent at or above bill·percentage/100. The share is the least at or above total/people. All cents are in [0,99] |
| `SrcCalculator.TotalsFitDisplay` | src/calculator.c:106-117 | For in-range inputs: tip ≤ $400.00, total ≤ $1399.99, share ≤ total, with dollars of at most four digits |
| `SrcCalculator.Incremented` | src/calculator.c:123-129 | The inc step: stays in [lo,hi], is v+1 below the top, and lo at the top |
| `SrcCalculator.Decremented` | src/calculator.c:132-138 | The dec step: stays in [lo,hi], is v−1 above the bottom, and hi at the bottom |
| `SrcCalculator.StepsUndoEachOther` | src/calculator.c:123-138 | In range, dec undoes inc and inc undoes dec |
| `SrcCalculator.IncrementedTimesClimbs` | src/calculator.c:124 | Below the top, k increments add exactly k |
| `SrcCalculator.IncrementedTimesAdd` | src/calculator.c:123-129 | a increments followed by b increments are a+b increments |
| `SrcCalculator.FullCycle` | src/calculator.c:123-129 | As many increments as the range has values return a field to its value |
| `SrcCalculator.SlashedMoneyText` | src/calculator.c:108 | `%4d.%2d/` in 9 bytes: for normal amounts with dollars of at most four digits, 8 characters. The dollars are right-aligned in 4, then '.', the cents space-padded in 2, then '/' |
| `SrcCalculator.SlashedMoneyTextExample` | src/calculator.c:108 | $10.05 renders as `  10. 5/` |
| `SrcCalculator.Calculator.constructor` | src/calculator.c:21-26 | The statics start at zero |
| `SrcCalculator.Calculator.UpdateTotals` | src/calculator.c:40-51 | Leaves the inputs alone and makes the derived amounts equal `ComputeTotals` of them. It is idempotent |
| `SrcCalculator.Calculator.PersistStore` | src/calculator.c:54-59 | As written: version 1 to key 100 and the bill record to 200, the tip and count having been overwritten there. Keys 300 and 400 are untouched |
| `SrcCalculator.Calculator.PersistStoreFixed` | src/calculator.c:54-59 | Writes the version to 100, the bill record to 200, the tip percentage to 300 and the count to 400. No other key changes |
| `SrcCalculator.Calculator.PersistRead` | src/calculator.c:62-72 | If a bill is saved, reads the bill from 200, the tip from 300 and the count from 400. Otherwise sets $444.44, 34% and 4, in range. It touches only the three inputs, with no recomputation |
| `SrcCalculator.Calculator.BillDollarsText` | src/calculator.c:78-82 | `%3d` in 4 bytes: for in-range dollars, exactly 3 characters, spaces then the digits |
| `SrcCalculator.Calculator.BillCentsText` | src/calculator.c:85-89 | `%02d` in 3 bytes: two digits reading back as the cents |
| `SrcCalculator.Calculator.TipPercentText` | src/calculator.c:92-96 | `%2d` in 3 bytes: exactly 2 characters, a space then the digit for single-digit percentages |
| `SrcCalculator.Calculator.NumSplittingText` | src/calculator.c:99-103 | `%d` in 2 bytes: one digit reading back as the count |
| `SrcCalculator.Calculator.TotalText` | src/calculator.c:106-110 | Exactly 8 characters for in-range inputs with current totals: the total's dollars right-aligned in 4 with blanks, '.', its cents right-aligned in 2 with a blank, '/' |
| `SrcCalculator.Calculator.TotalPerPersonText` | src/calculator.c:113-117 | The same layout for the share: its dollars and cents, blank-padded, between '.' and '/' |
| `SrcCalculator.Calculator.IncBillDollars` | src/calculator.c:123-129 | Dollars become `Incremented(old, 1, 999)`. The cents and other inputs are unchanged, the totals are current, and range is kept |
| `SrcCalculator.Calculator.DecBillDollars` | src/calculator.c:132-138 | Dollars become `Decremented(old, 1, 999)`. The cents and other inputs are unchanged, the totals are current, and range is kept |
| `SrcCalculator.Calculator.IncBillCents` | src/calculator.c:141-147 | Cents become `Incremented(old, 0, 99)`. The dollars never change and the totals are current |
| `SrcCalculator.Calculator.DecBillCents` | src/calculator.c:150-156 | Cents become `Decremented(old, 0, 99)`. The dollars never change and the totals are current |
| `SrcCalculator.Calculator.IncTipPercent` | src/calculator.c:159-165 | The percentage becomes `Incremented(old, 1, 40)`. The other inputs are unchanged and the totals are current |
| `SrcCalculator.Calculator.DecTipPercent` | src/calculator.c:168-174 | The percentage becomes `Decremented(old, 1, 40)`. The other inputs are unchanged and the totals are current |
| `SrcCalculator.Calculator.IncNumSplitting` | src/calculator.c:177-183 | The count becomes `Incremented(old, 1, 9)`. The other inputs are unchanged and the totals are current |
| `SrcCalculator.Calculator.DecNumSplitting` | src/calculator.c:186-192 | The count becomes `Decremented(old, 1, 9)`. The other inputs are unchanged and the totals are current |
| `SrcCalculator.SaveThenReloadAsWritten` | src/calculator.c:56-57 | After the as-written store and a read, the tip and count are whatever keys 300 and 400 held. On a store without them, both are 0 and out of range |
| `SrcCalculator.SaveThenReloadFixed` | src/calculator.c:62-66 | With the corrected store, the bill, tip and count all survive a save and a read, in range |
| `SrcCalculator.CeilingExample` | src/calculator.c:43 | $10.01 at 15%: tip $1.51, total $11.52 |
| `SrcTipcalc.InputPanel.constructor` | src/tipcalc.c:364-367 | The focus is on bill dollars, the only field selected |
| `SrcTipcalc.InputPanel.UpClick` | src/tipcalc.c:178-181 | Exactly the focused input takes one `Incremented` step, and the totals are current |
| `SrcTipcalc.InputPanel.DownClick` | src/tipcalc.c:184-187 | Exactly the focused input takes one `Decremented` step, and the totals are current |
| `SrcTipcalc.InputPanel.SelectClick` | src/tipcalc.c:192-199 | Below the last field, the focus and the selection move one on. Otherwise nothing changes. The engine is never touched |
| `SrcTipcalc.InputPanel.BackClick` | src/tipcalc.c:202-211 | Exits exactly at the first field. Otherwise the focus and the selection move one back. The engine is never touched |
| `SrcTipcalc.Launch` | src/tipcalc.c:394-395 | At launch the inputs are read but the tip, total and share stay $0.00. Without a saved bill the inputs are in range but the totals are not current |
| `SrcTipcalc.UpThenDown` | src/tipcalc.c:178-187 | Up then down on any focused field restores every input and leaves the totals current |
| `Revisions.TipRoundingDiffers` | src/calculator.c:43 | For the same inputs, the rounded-up tip is at least the half-up tip of project/src/calculator.c:47 and at most one cent more |

## Left out

- Pebble rendering and layout, fonts, layers and `layer_mark_dirty`. Pushing the window is not modelled; popping it is modelled only as `BackClick`'s `exit` result.
- Event wiring: `click_config_provider`, the accelerometer subscription, and `init`/`deinit`/`main`. The handlers are modelled as methods called directly.
- The project revision's `accel_tap_handler` (project/src/tipcalc.c:251-254) only calls `calc_reset_to_defaults`, which is `ProjectCalculator.Calculator.ResetToDefaults`.
- The src revision's `deinit` has `calc_persist_store` commented out, so that revision never saves as shipped. The store is modelled as it would behave if enabled.
- `click_recognizer_is_repeating` and `click_number_of_clicks_counted` are host calls. Their results are the `repeating` and `numClicks` parameters.
- ProjectTipcalc.HeldTotalThirdBand: the band formula holds for every n, but it describes the handler only while the click count the host reports equals the tick number. `click_number_of_clicks_counted` returns an 8-bit count, so from tick 256 on the count no longer equals the tick and the formula stops describing what is passed to `manipulate`. The model takes the count as an unbounded parameter.
- The `persist_*` API and the binary layout of the saved `CurrencyAmount` blob. The store is a map from keys to integers or bill records. A bill-record key read as an integer gives 0, and a bill read from an absent or integer key leaves the buffer unchanged.
- Stored values are not range-checked on read, in either revision. Staying in range after a read is stated only for stores whose saved values are in range.
- Floating point: `ceil((double)…)` in src/calculator.c:43,49 is modelled as exact integer ceiling division. That is exact here because the operands are below 2^23 and the divisors are at most 100.
- C `int` overflow: all integers are unbounded. Very large deltas or click counts, which would overflow `num_clicks * 100` or `v + delta` in C, are not modelled.
- Formatters return a string value. The shared `static` buffer each C formatter hands out, and its reuse between calls, is not modelled. Neither is writing through a `CurrencyAmount *` argument, which is modelled as assigning the whole field.
- src/tipcalc.c refers to `calc_get_tip_txt` and `calc_get_total_per_person_txt`, but src/calculator.c defines no tip text and names its total formatters `calc_total_txt` and `calc_total_per_person_txt`. The src revision does not link as it stands. Only the formatters src/calculator.c defines are modelled.
- Header files and `utils.c` (debug logging) are not part of this model.
- A step the width of a field's whole range does not bring the field back: `calc_manip_*` jumps to the minimum (project/src/calculator.c:143-144). `ProjectCalculator.FullRangeDeltaLandsOnMin` states this.

## Findings

| source | as written | input that shows it | evidently intended | confidence | as-written member | corrected member |
|---|---|---|---|---|---|---|
| src/calculator.c:56-57 | `calc_persist_store` writes the tip percentage and then the number of people to the bill key (200). The bill record written next overwrites both. Keys 300 and 400, which `calc_persist_read` reads them from, are never written | Save $444.44, 34%, 4 people to an empty store, then read. The bill returns, but the tip and count read as 0. An `update_totals` before the count is edited divides the total by 0 in `double`, and converting the resulting infinity to `int` is undefined. An edit of the count first moves it to 1 or 9 (src/calculator.c:177-192). As shipped `deinit` never calls the store (src/tipcalc.c:408), so the defect stays latent | Write the tip percentage to key 300 and the count to key 400 | high; not executed | `SrcCalculator.SaveThenReloadAsWritten` | `SrcCalculator.SaveThenReloadFixed` |
