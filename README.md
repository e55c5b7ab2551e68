# fufopi power station: a verified model

This is a Dafny model of the Home Assistant integration `integration_fufopi`. The integration watches and switches a small off-grid power station. Its parts are:

- a Victron SmartSolar MPPT charge controller that reports over the VE.Direct serial text protocol;
- a four-relay board driven through GPIO;
- a fridge on relay 1;
- the charger's load output (the "power distribution" sensors);
- power lanes, each an ACS712 current sensor plus a relay;
- four ACS712 current sensors on an ADS1115 converter;
- an HMC5883L compass.

The model covers the coordinators that hold the charger's readings and the entities that turn those readings into what Home Assistant shows:

- **VE.Direct records.** The `key<TAB>value` lines are split. Known keys take the value as text, or as a decimal when the field is numeric. Lines whose key is unknown and lines without a tab only produce warnings. A value that is not a numeral raises.
- **Coordinators.** `SmartSolarCoordinator` keeps a string table. `VEDirectCoordinator` keeps a record per field: value, unit conversion, value list and icon. Without a serial port `VEDirectCoordinator` polls a simulated buffer; `SmartSolarCoordinator` keeps its table unchanged.
- **Sensor display.** A numeric reading is scaled by its unit conversion and rounded to thousandths. A coded value is looked up in its value list.
- **Derived values.** Battery and solar-panel voltage, current, power and yield are computed from the charger's millivolt, milliampere and hundredth-of-kWh readings. The battery percentage is a linear interpolation over a seven-point table. The fridge and load sensors follow the relays.
- **Relays.** The relays are active-low: each is driven by one GPIO level, and only that pin changes.
- **Current sensors.** ACS712 currents are `(mV - 2500) / 185` amperes, rounded to hundredths.
- **Compass.** The HMC5883L mode registers are shown as names, and the field, read in milligauss, is shown in gauss.

Python's `Decimal` is modelled by `real`. `quantize` is round-half-even to a `Quantum` (tenths, hundredths or thousandths), and `Decimal(str)` is the partial parser `ParseDecimal`. Dictionaries are `map`s. Objects whose fields the source updates in place are classes with `modifies` frames. The coordinator update loops are methods proved against the functions `ApplyLines` and `ApplyRecords`. The battery percentage loop and the MPPT interpolation loop are methods proved against `ChargePercent` and `PercentOfMillivolts`.

Files: `wrappers.dfy` (Option, Result), `decimals.dfy`, `strings.dfy`, `tables.dfy`, `interpolation.dfy`, `smart_solar.dfy`, `ve_direct.dfy`, `sensor_old.dfy`, `battery.dfy`, `smart_solar_mppt.dfy`, `solar_panel.dfy`, `relay_board.dfy`, `fridge.dfy`, `power_distribution.dfy`, `hmc5883l.dfy`, `acs714.dfy`, `power_lane.dfy`.

## Model

| member | source | states |
|---|---|---|
| Decimals.RoundHalfEven | custom_components/integration_fufopi/battery.py:37 | the integer chosen is within one half of the argument, and on an exact tie it is even (Decimal's default rounding) |
| Decimals.RoundHalfEvenUnique | custom_components/integration_fufopi/battery.py:37 | any integer within one half that is even on ties is the rounding, so the rounding is determined by those two properties |
| Decimals.RoundHalfEvenMonotone | custom_components/integration_fufopi/battery.py:37 | rounding never reverses the order of two numbers |
| Decimals.Quantize | custom_components/integration_fufopi/battery.py:37 | `quantize(q)` lands on the grid of q and is at most half a step from its argument |
| Decimals.QuantizeOnGrid | custom_components/integration_fufopi/battery.py:52 | a value already on the grid is left unchanged |
| Decimals.QuantizeIdempotent | custom_components/integration_fufopi/battery.py:67 | quantizing twice is quantizing once |
| Decimals.QuantizeMonotone | custom_components/integration_fufopi/power_distribution.py:75-77 | quantizing never reverses the order of two values |
| Decimals.QuantizeZero | custom_components/integration_fufopi/power_distribution.py:75-77 | zero quantizes to zero |
| Decimals.QuantizeSign | custom_components/integration_fufopi/power_distribution.py:75-77 | quantizing keeps a non-negative value non-negative and a non-positive value non-positive |
| Decimals.QuantizeBelow | custom_components/integration_fufopi/battery.py:74-100 | quantizing a value below a grid point never rises above that point |
| Decimals.QuantizeError | custom_components/integration_fufopi/power_distribution.py:75-77 | the result is within half a step of the argument, in absolute terms |
| Decimals.QuantizeThousandths | custom_components/integration_fufopi/hmc5883L.py:289-291 | a whole number of thousandths quantizes to itself at `1.000` |
| Decimals.NatToString | custom_components/integration_fufopi/__init__.py:286-297 | the decimal digits of a natural number: non-empty, all digits, denoting the number, with no leading zero |
| Decimals.ParseIntToString | custom_components/integration_fufopi/__init__.py:257 | `Decimal` of an integer's formatted digits gives back that integer, so simulated numeric lines always parse |
| Decimals.ParseNatToString | custom_components/integration_fufopi/__init__.py:257 | the digits written for a natural number parse back to that number |
| Decimals.IntToStringEdges | custom_components/integration_fufopi/__init__.py:257 | a written integer has no whitespace at its ends and starts with a digit, or with a minus sign before the digits of its magnitude |
| Decimals.IntToStringInjective | custom_components/integration_fufopi/acs714.py:40 | different integers are formatted differently |
| Decimals.IntToStringNoTab | custom_components/integration_fufopi/__init__.py:286-297 | a formatted integer contains no tab, so it stays one field when a line is split |
| Decimals.IntToString | custom_components/integration_fufopi/__init__.py:286-297 | `f"{n}"` of an integer is never empty; `ParseIntToString`, `IntToStringEdges` and `IntToStringInjective` state that it reads back, how it starts and that it is injective |
| Decimals.Strip | custom_components/integration_fufopi/battery.py:58 | `Decimal` ignores surrounding whitespace: the stripped text is no longer than the original and neither starts nor ends with whitespace |
| Decimals.StripClean | custom_components/integration_fufopi/battery.py:58 | a text without whitespace at its ends is left as it is |
| Decimals.ParseUnsigned | custom_components/integration_fufopi/battery.py:58 | an unsigned numeral denotes a non-negative value |
| Decimals.ParseDecimal | custom_components/integration_fufopi/battery.py:58 | `Decimal(str)`: blank text is invalid, a numeral with a minus sign is not positive and one without is not negative; `ParseIntToString` and `ParseNatToString` state that written integers read back |
| Decimals.Convert | custom_components/integration_fufopi/battery.py:54-62 | a setter's conversion: a Decimal is stored as is, a string succeeds exactly when it is a numeral, and anything else raises ValueError |
| Decimals.ConvertScales | custom_components/integration_fufopi/battery.py:54-60 | a numeral string is stored as its value times the setter's factor, for the factors 0.001, 0.01 and 1 |
| Strings.DecodeAscii | custom_components/integration_fufopi/SmartSolar.py:257 | `decode("ascii", "ignore")` keeps at most the bytes given, and every character kept is ASCII |
| Strings.DecodeAsciiConcat | custom_components/integration_fufopi/SmartSolar.py:257 | decoding distributes over concatenation |
| Strings.DecodeEncodeAscii | custom_components/integration_fufopi/SmartSolar.py:257 | decoding the encoding of an ASCII string gives it back |
| Strings.DecodeAsciiDropsHighByte | custom_components/integration_fufopi/SmartSolar.py:257 | a byte of 128 or more is dropped without disturbing its neighbours |
| Strings.Find | custom_components/integration_fufopi/SmartSolar.py:257 | the first occurrence of a separator at or after a position, or its absence |
| Strings.Split | custom_components/integration_fufopi/SmartSolar.py:262 | `str.split(sep)` gives at least one piece |
| Strings.JoinSplit | custom_components/integration_fufopi/SmartSolar.py:262 | joining the pieces with the separator rebuilds the string |
| Strings.SplitPiecesFree | custom_components/integration_fufopi/SmartSolar.py:262 | no piece contains the separator |
| Strings.SplitWithoutSeparator | custom_components/integration_fufopi/__init__.py:251-252 | a string without the separator splits to itself alone |
| Strings.SplitHead | custom_components/integration_fufopi/SmartSolar.py:257-259 | a piece free of the separator's first character, followed by the separator, is the first piece |
| Strings.SplitTabPair | custom_components/integration_fufopi/__init__.py:251-254 | `key<TAB>value` with tab-free parts splits into exactly those two fields |
| Strings.SplitTabFields | custom_components/integration_fufopi/SmartSolar.py:262-265 | a record with further tabs keeps its key and value as its first two fields |
| Strings.SplitTabSingle | custom_components/integration_fufopi/__init__.py:251-252 | a tab-free line is a single field |
| Tables.Lookup | custom_components/integration_fufopi/SmartSolar.py:132-139 | the value list's entry when the code is listed, and nothing otherwise |
| Tables.PidCodesDrawable | custom_components/integration_fufopi/SmartSolar.py:27 | the product-id table lists 0xA060, and none of its codes contains a tab |
| Tables.CsCodesDrawable | custom_components/integration_fufopi/SmartSolar.py:29-44 | the state-of-operation table lists code 0, and none of its codes contains a tab |
| Tables.MpptCodesDrawable | custom_components/integration_fufopi/SmartSolar.py:46-50 | the tracker-mode table lists code 0, and none of its codes contains a tab |
| Tables.OrCodesDrawable | custom_components/integration_fufopi/SmartSolar.py:52-63 | the off-reason table lists 0x00000000, and none of its codes contains a tab |
| Tables.CsTableGaps | custom_components/integration_fufopi/SmartSolar.py:29-44 | codes 1, 8 and 10 have no state name, while 3 is "Bulk" |
| Tables.OffReasonIsNotBitmask | custom_components/integration_fufopi/SmartSolar.py:52-63 | off reasons are looked up as whole strings: a combination of two reasons, or a short spelling of one, has no name |
| Tables.EmptyCodeUnknown | custom_components/integration_fufopi/SmartSolar.py:27-63 | the empty code is listed in none of the value tables |
| SmartSolar.InitialData | custom_components/integration_fufopi/SmartSolar.py:101-122 | the initial table holds exactly the known keys |
| SmartSolar.InitialDataDrawn | custom_components/integration_fufopi/SmartSolar.py:101-122 | the product id is 0xA060, and CS, MPPT, OR and ERR hold the codes drawn at start-up |
| SmartSolar.InitialDataDay | custom_components/integration_fufopi/SmartSolar.py:101-122 | HSDS holds the day number drawn, written so that it parses back to that number |
| SmartSolar.InitialValue | custom_components/integration_fufopi/SmartSolar.py:101-122 | the start-up value of each key: fixed texts for PID, FW, SER#, Checksum and LOAD, the drawn codes for CS, MPPT, OR, HSDS and ERR, and "0" for the rest; `InitialDataDrawn` and `InitialDataDay` state what the table then holds |
| SmartSolar.Records | custom_components/integration_fufopi/SmartSolar.py:257-259 | the buffer decoded as ASCII, split at CR LF, without the last piece; `NoCrlfNoRecords`, `OneCompleteRecord` and `RecordsIgnoreHighBytes` state what it yields |
| SmartSolar.RecordWarnings | custom_components/integration_fufopi/SmartSolar.py:266-271 | one record logs at most one warning |
| SmartSolar.RecordWarningsNone | custom_components/integration_fufopi/SmartSolar.py:262-271 | a record logs nothing exactly when it has a second field and a known key, and a record that logs changes no value |
| SmartSolar.Warnings | custom_components/integration_fufopi/SmartSolar.py:261-271 | the records of a poll log at most one warning each |
| SmartSolar.ApplyRecord | custom_components/integration_fufopi/SmartSolar.py:262-271 | applying one record never adds or removes a key |
| SmartSolar.ApplyRecords | custom_components/integration_fufopi/SmartSolar.py:261-271 | applying records in order never adds or removes a key |
| SmartSolar.PlainKey | custom_components/integration_fufopi/SmartSolar.py:141-250 | every plain accessor reads a key the table holds |
| SmartSolar.SmartSolarCoordinator.constructor | custom_components/integration_fufopi/SmartSolar.py:92-130 | the coordinator starts from the initial table, and simulates when no port could be opened |
| SmartSolar.SmartSolarCoordinator.Update | custom_components/integration_fufopi/SmartSolar.py:252-273 | a simulating coordinator keeps its table; otherwise the table is the old one with the records of the decoded buffer applied in order, and the warnings are those of the records |
| SmartSolar.SmartSolarCoordinator.ProductId | custom_components/integration_fufopi/SmartSolar.py:132-139 | the product name exactly when the PID code is listed |
| SmartSolar.SmartSolarCoordinator.StateOfOperation | custom_components/integration_fufopi/SmartSolar.py:151-158 | the state name exactly when the CS code is listed |
| SmartSolar.SmartSolarCoordinator.TrackerOperationMode | custom_components/integration_fufopi/SmartSolar.py:160-167 | the tracker mode exactly when the MPPT code is listed |
| SmartSolar.SmartSolarCoordinator.OffReason | custom_components/integration_fufopi/SmartSolar.py:169-176 | the off reason exactly when the OR code is listed |
| SmartSolar.SmartSolarCoordinator.ErrorReason | custom_components/integration_fufopi/SmartSolar.py:193-200 | the error text exactly when the ERR code is listed |
| SmartSolar.SmartSolarCoordinator.Raw | custom_components/integration_fufopi/SmartSolar.py:202-250 | a plain accessor returns the stored string of its key |
| SmartSolar.RecordsIgnoreHighBytes | custom_components/integration_fufopi/SmartSolar.py:257 | non-ASCII bytes in the serial buffer change no record |
| SmartSolar.NoCrlfNoRecords | custom_components/integration_fufopi/SmartSolar.py:257-259 | a buffer without a CR LF yields no record and leaves the table unchanged, because the last, incomplete piece is dropped |
| SmartSolar.OneCompleteRecord | custom_components/integration_fufopi/SmartSolar.py:257-259 | a line ended by CR LF and followed by a partial line yields exactly that line |
| SmartSolar.KnownKeyTakesValue | custom_components/integration_fufopi/SmartSolar.py:262-267 | a record with a known key stores its second field, ignores any further fields, and warns about nothing |
| SmartSolar.MalformedRecordIgnored | custom_components/integration_fufopi/SmartSolar.py:270-271 | a record without a tab changes nothing and warns that the field structure is not valid |
| SmartSolar.UnknownKeyIgnored | custom_components/integration_fufopi/SmartSolar.py:266-269 | a record with an unknown key changes nothing and warns that the key is not defined |
| SmartSolar.UntouchedKeyKept | custom_components/integration_fufopi/SmartSolar.py:261-267 | a key no record sets keeps its value |
| SmartSolar.LastRecordWins | custom_components/integration_fufopi/SmartSolar.py:261-267 | a key takes the value of the last record that sets it |
| SmartSolar.NoWarningsForGoodRecords | custom_components/integration_fufopi/SmartSolar.py:261-271 | records that all have a known key and a tab produce no warning |
| VEDirect.KeyOf | custom_components/integration_fufopi/__init__.py:255 | a token names a key exactly when it is that key's name |
| VEDirect.Name | custom_components/integration_fufopi/__init__.py:108-239 | the string each key is declared under; `NameKeyOf`, `KeyOfExact` and `KeyHasNoTab` state that it is found back exactly and holds no tab |
| VEDirect.NameKeyOf | custom_components/integration_fufopi/__init__.py:108-239 | every key is found by its own name |
| VEDirect.KeyOfExact | custom_components/integration_fufopi/__init__.py:255 | the key lookup is exact in both directions |
| VEDirect.KeyHasNoTab | custom_components/integration_fufopi/__init__.py:108-239 | no key name contains a tab |
| VEDirect.KeyOrderComplete | custom_components/integration_fufopi/__init__.py:108-239 | the declaration order lists every key |
| VEDirect.Template | custom_components/integration_fufopi/__init__.py:108-239 | a field is numeric exactly when it has a unit conversion, and numeric fields have neither value list nor icon |
| VEDirect.ConformsUpdate | custom_components/integration_fufopi/__init__.py:256-260 | replacing a record by one of the same shape keeps the table well-formed |
| VEDirect.InitialData | custom_components/integration_fufopi/__init__.py:108-239 | the initial table is well-formed and every record is its template stamped with the start time |
| VEDirect.Step | custom_components/integration_fufopi/__init__.py:251-264 | one line never adds or removes a key |
| VEDirect.LineWarnings | custom_components/integration_fufopi/__init__.py:261-264 | one line logs at most one warning |
| VEDirect.Next | custom_components/integration_fufopi/__init__.py:250-264 | each step of the loop keeps the set of keys |
| VEDirect.ApplyLines | custom_components/integration_fufopi/__init__.py:250-266 | the whole loop keeps the keys of the table |
| VEDirect.StepShape | custom_components/integration_fufopi/__init__.py:251-264 | one line never changes the shape of a record: unit conversion, value list, icon and kind of value stay |
| VEDirect.NextShape | custom_components/integration_fufopi/__init__.py:250-264 | each step of the loop keeps the shape of every record |
| VEDirect.ApplyLinesShape | custom_components/integration_fufopi/__init__.py:250-266 | the whole loop keeps the shape of every record |
| VEDirect.ApplyLast | custom_components/integration_fufopi/__init__.py:250 | a non-empty loop is the loop over all but the last line followed by a step on the last |
| VEDirect.NextClean | custom_components/integration_fufopi/__init__.py:250-264 | a step that leaves no error found none before it and took the table the line gives |
| VEDirect.ApplySnoc | custom_components/integration_fufopi/__init__.py:250 | the loop over one more line is one more step |
| VEDirect.NumericKeysGetRanges | custom_components/integration_fufopi/__init__.py:286-297 | the simulation draws a numeric field from a non-empty integer range, and only numeric fields |
| VEDirect.FixedTextsClean | custom_components/integration_fufopi/__init__.py:280-285 | the fixed identity texts are non-empty and tab-free |
| VEDirect.ChoiceKeys | custom_components/integration_fufopi/__init__.py:298-301 | the simulation picks a code from a value list for CS, MPPT and OR, and only for them |
| VEDirect.ChoicesClean | custom_components/integration_fufopi/__init__.py:298-301 | every value list the simulation picks from is non-empty and its codes are tab-free |
| VEDirect.SilentKeys | custom_components/integration_fufopi/__init__.py:279-302 | HSDS and Checksum, and only they, get no simulated line |
| VEDirect.Generator | custom_components/integration_fufopi/__init__.py:279-302 | the branch `simulate_buffer` takes for a key: a fixed text, an integer range, a pick from the value list, or no line; `SilentKeys`, `ChoiceKeys`, `NumericKeysGetRanges` and `GeneratorReadsValueList` state which key takes which |
| VEDirect.GeneratorReadsValueList | custom_components/integration_fufopi/__init__.py:298 | what the simulation emits for a key depends on the record's value list alone |
| VEDirect.GeneratorOfDeclaredKey | custom_components/integration_fufopi/__init__.py:279-302 | a record with the declared value list is simulated like its template, and every emitting generator can produce a value |
| VEDirect.Draw | custom_components/integration_fufopi/__init__.py:287-301 | a drawn value is one its generator can produce |
| VEDirect.EmittedKeys | custom_components/integration_fufopi/__init__.py:279-302 | the keys that get a simulated line all have an emitting generator |
| VEDirect.EmittedStep | custom_components/integration_fufopi/__init__.py:279 | the emitted keys grow by one key exactly when that key emits |
| VEDirect.SimLinesSnoc | custom_components/integration_fufopi/__init__.py:279-302 | appending a key's generated line extends a simulated buffer |
| VEDirect.VEDirectCoordinator.constructor | custom_components/integration_fufopi/__init__.py:91-239 | the coordinator starts from the initial table, and simulates when no port could be opened |
| VEDirect.VEDirectCoordinator.ConfigReady | custom_components/integration_fufopi/__init__.py:268-274 | ready exactly when PID, FW and SER# all hold a non-empty text |
| VEDirect.Ready | custom_components/integration_fufopi/__init__.py:268-274 | PID, FW and SER# all hold a non-empty text; `InitialNotReady` and `SimulatedUpdateReady` state when it holds |
| VEDirect.VEDirectCoordinator.SimulateBuffer | custom_components/integration_fufopi/__init__.py:276-302 | the buffer has one generated line per emitting key, in declaration order |
| VEDirect.VEDirectCoordinator.ApplyLine | custom_components/integration_fufopi/__init__.py:251-264 | the table after the line is the one `Step` gives; on a raise the table is unchanged; the warnings are the line's |
| VEDirect.VEDirectCoordinator.ApplyBuffer | custom_components/integration_fufopi/__init__.py:250-266 | the loop leaves the table, warnings and outcome that `ApplyLines` gives |
| VEDirect.VEDirectCoordinator.Update | custom_components/integration_fufopi/__init__.py:241-266 | reads the serial lines, taken as text, or a simulated buffer and applies it; the warnings are the logged buffer followed by the warnings of each line; a simulated update succeeds, adds only the buffer warning and leaves the configuration ready |
| VEDirect.VEDirectCoordinator.UpdateAsWritten | custom_components/integration_fufopi/__init__.py:244-251 | as written, with a port: the buffer is logged, the poll raises TypeError exactly when the port returned a line, and the table is unchanged; without a port it is the simulated update |
| VEDirect.StepText | custom_components/integration_fufopi/__init__.py:258-260 | a known text field takes the second field and the current time |
| VEDirect.StepNumber | custom_components/integration_fufopi/__init__.py:256-257 | a known numeric field takes the parsed second field, or the line raises when it is not a numeral |
| VEDirect.StepIgnored | custom_components/integration_fufopi/__init__.py:261-264 | a line without a known key and a second field changes nothing and logs one warning |
| VEDirect.NextSteps | custom_components/integration_fufopi/__init__.py:250-264 | a step that succeeds carries the new table and appends its warnings |
| VEDirect.NextRaises | custom_components/integration_fufopi/__init__.py:256-257 | a step that raises keeps the table and records the error |
| VEDirect.ConformsShapes | custom_components/integration_fufopi/__init__.py:250-266 | a table with the same keys and shapes as a well-formed one is well-formed |
| VEDirect.ConformsAfter | custom_components/integration_fufopi/__init__.py:250-266 | every update keeps the table well-formed |
| VEDirect.FailureSticks | custom_components/integration_fufopi/__init__.py:256-257 | once a line raises, later lines change nothing |
| VEDirect.StepKeeps | custom_components/integration_fufopi/__init__.py:255 | a line leaves every record it does not name unchanged |
| VEDirect.StepSets | custom_components/integration_fufopi/__init__.py:255-260 | a line naming a record sets it from its second field |
| VEDirect.UntouchedRecordKept | custom_components/integration_fufopi/__init__.py:250-266 | a record no line names keeps its value and time stamp |
| VEDirect.LastLineWins | custom_components/integration_fufopi/__init__.py:250-266 | a record takes the value of the last line that names it |
| VEDirect.SingleLineApplied | custom_components/integration_fufopi/__init__.py:250-266 | a buffer of one text line for a known key sets that key and nothing else |
| VEDirect.InvalidNumberRaises | custom_components/integration_fufopi/__init__.py:256-257 | a non-numeral for a numeric key raises InvalidDecimal and discards that line and all later ones |
| VEDirect.BadLineChangesNothing | custom_components/integration_fufopi/__init__.py:261-264 | an unusable line changes nothing and logs exactly one warning |
| VEDirect.GoodLinesApplyCleanly | custom_components/integration_fufopi/__init__.py:250-264 | lines with known keys, tab-free parts and valid numerals raise nothing and warn about nothing |
| VEDirect.InitialNotReady | custom_components/integration_fufopi/__init__.py:268-274 | before any update the configuration is not ready |
| VEDirect.SimLineIsGood | custom_components/integration_fufopi/__init__.py:276-302 | every simulated line splits into its key and its value, names its key, and applies cleanly |
| VEDirect.EmittedKeysConcat | custom_components/integration_fufopi/__init__.py:279 | the emitted keys of a concatenation are the concatenation of the emitted keys |
| VEDirect.EmittedKeysPrefix | custom_components/integration_fufopi/__init__.py:279 | the lines emitted for a prefix of the key order come first, in the same order |
| VEDirect.IdentityEmitted | custom_components/integration_fufopi/__init__.py:280-285 | PID, FW and SER# all emit a line |
| VEDirect.SimulationStartsWithIdentity | custom_components/integration_fufopi/__init__.py:280-285 | the simulated buffer starts with PID, FW and SER#, in that order |
| VEDirect.SimulationSkipsDayAndChecksum | custom_components/integration_fufopi/__init__.py:279-302 | no simulated line sets HSDS or Checksum |
| VEDirect.LastSetter | custom_components/integration_fufopi/__init__.py:250-266 | the last line that names a key exists and nothing after it names the key |
| VEDirect.SetTextStaysNonEmpty | custom_components/integration_fufopi/__init__.py:258-259 | a text field set only to non-empty values ends non-empty |
| VEDirect.SimulatedLinesGood | custom_components/integration_fufopi/__init__.py:276-302 | every simulated line is a good line naming the emitted key at its position |
| VEDirect.SimulatedIdentityNonEmpty | custom_components/integration_fufopi/__init__.py:280-285 | the simulated PID, FW and SER# values are non-empty |
| VEDirect.SimulatedIdentitySet | custom_components/integration_fufopi/__init__.py:280-285 | the first three simulated lines set PID, FW and SER# |
| VEDirect.SimulatedTextSet | custom_components/integration_fufopi/__init__.py:280-285 | after a simulated update PID, FW and SER# are non-empty |
| VEDirect.SimulatedUpdateReady | custom_components/integration_fufopi/__init__.py:268-302 | a simulated update raises nothing, logs no per-line warning and leaves the configuration ready |
| VEDirect.EmittedContains | custom_components/integration_fufopi/__init__.py:279-302 | every emitting key in the key order gets a line |
| VEDirect.SimulatedKeySet | custom_components/integration_fufopi/__init__.py:279-302 | every key but HSDS and Checksum is set by some simulated line |
| VEDirect.SimulatedTextValue | custom_components/integration_fufopi/__init__.py:296-301 | after a simulated update a text field holds a value its generator can produce |
| SensorOld.NativeValue | custom_components/integration_fufopi/sensor_old.py:198-212 | a number is scaled and rounded to thousandths (KeyError without a unit conversion); a coded text is looked up in its value list (KeyError for an unlisted code); plain text is shown as is |
| SensorOld.Icon | custom_components/integration_fufopi/sensor_old.py:214-221 | a field's own icon exactly when it is textual and has one |
| SensorOld.SensorAttributes | custom_components/integration_fufopi/sensor_old.py:185-196 | the name, and the device class and unit exactly when the record has them |
| SensorOld.NumberIsRounded | custom_components/integration_fufopi/sensor_old.py:202-207 | a number is shown on the thousandths grid, within half a thousandth of its scaled value |
| SensorOld.DecimalBeforeTable | custom_components/integration_fufopi/sensor_old.py:201-207 | a numeric value is scaled even when the record also has a value list |
| SensorOld.StoreNumbersScale | custom_components/integration_fufopi/sensor_old.py:201-207 | in a well-formed table every numeric field can be displayed |
| SensorOld.FreshCodesRaise | custom_components/integration_fufopi/sensor_old.py:209-210 | before the first update the empty CS and PID codes are not in their value lists, so displaying them raises |
| SensorOld.SimulatedPollDisplays | custom_components/integration_fufopi/sensor_old.py:198-212 | after a simulated update every field can be displayed |
| SensorOld.CodedKeys | custom_components/integration_fufopi/__init__.py:108-239 | exactly PID, CS, MPPT and OR carry a value list |
| SensorOld.SimulatedCodeInTable | custom_components/integration_fufopi/sensor_old.py:209-212 | a code the simulation draws for a coded field is in that field's value list |
| Interpolation.Scale | custom_components/integration_fufopi/battery.py:102-107 | the value lies on the line through both points |
| Interpolation.ScaleEndpoints | custom_components/integration_fufopi/battery.py:102-107 | the interpolation passes through its two points |
| Interpolation.ScaleBetween | custom_components/integration_fufopi/battery.py:102-107 | between rising points the value stays between theirs |
| Interpolation.ScaleOnLine | custom_components/integration_fufopi/battery.py:102-107 | two points of a line interpolate to that line |
| Interpolation.ChordOnLine | custom_components/integration_fufopi/smart_solar_MPPT.py:556-569 | any chord of a table on one line gives the line's value |
| Battery.PerCentTableFacts | custom_components/integration_fufopi/battery.py:77-85 | the table has seven increasing breakpoints from 9 V to 15 V, all on the line 20 % per volt from 9 V |
| Battery.ChargePercent | custom_components/integration_fufopi/battery.py:74-100 | 20 % per volt above 9 V, rounded to tenths, from 9 V to 15 V, and 0 elsewhere; `PerCent` computes it with the source's loop and the `ChargePercent` lemmas state its breakpoints, range and monotonicity |
| Battery.BatteryCoordinator.constructor | custom_components/integration_fufopi/battery.py:30-32 | zero volts, zero amperes, not charging |
| Battery.BatteryCoordinator.Voltage | custom_components/integration_fufopi/battery.py:34-37 | the stored voltage to the nearest millivolt |
| Battery.BatteryCoordinator.Current | custom_components/integration_fufopi/battery.py:49-52 | the stored current to the nearest milliampere |
| Battery.BatteryCoordinator.Power | custom_components/integration_fufopi/battery.py:64-67 | the product of the unrounded voltage and current, to the nearest milliwatt |
| Battery.BatteryCoordinator.IsCharging | custom_components/integration_fufopi/battery.py:69-72 | the stored current is positive; `PowerSplit` and `BatteryStateFollowsCurrent` state what follows from it |
| Battery.BatteryCoordinator.SetVoltage | custom_components/integration_fufopi/battery.py:39-47 | as written: a numeral string is stored as its value, unscaled; a Decimal is stored as is; a non-numeral leaves the voltage and anything else raises; the current is untouched |
| Battery.BatteryCoordinator.SetVoltageFromMillivolts | custom_components/integration_fufopi/battery.py:39-47 | as intended: a numeral string is stored as its value times 0.001, millivolts as volts; the same error cases apply |
| Battery.BatteryCoordinator.SetCurrent | custom_components/integration_fufopi/battery.py:54-62 | a numeral string is stored as its value times 0.001, milliamperes as amperes; a Decimal as is; anything else raises; the voltage is untouched |
| Battery.BatteryCoordinator.PerCent | custom_components/integration_fufopi/battery.py:74-100 | the loop returns the charge percentage of the stored voltage |
| Battery.PowerToBatt | custom_components/integration_fufopi/battery.py:203-208 | the battery power while charging, zero otherwise |
| Battery.PowerFromBatt | custom_components/integration_fufopi/battery.py:228-233 | the negated battery power while not charging, zero otherwise |
| Battery.PowerSplit | custom_components/integration_fufopi/battery.py:203-233 | one of the two power sensors reads zero, and in minus out is the battery power |
| Battery.PowersNonNegative | custom_components/integration_fufopi/battery.py:203-233 | with a non-negative voltage neither power sensor is negative |
| Battery.BatteryState | custom_components/integration_fufopi/battery.py:252-255 | the charging binary sensor reads the coordinator's `is_charging`; `BatteryStateFollowsCurrent` states that it is on exactly for a positive current |
| Battery.BatteryStateFollowsCurrent | custom_components/integration_fufopi/battery.py:252-255 | charging exactly when the current is positive |
| Battery.PowerExamples | custom_components/integration_fufopi/battery.py:203-233 | 12 V at 5 A is 60 W in; 12 V at -3 A is 36 W out |
| Battery.ChargePercentAtBreakpoint | custom_components/integration_fufopi/battery.py:88-90 | at a breakpoint the percentage is the breakpoint's |
| Battery.ChargePercentBetween | custom_components/integration_fufopi/battery.py:92-95 | between neighbouring breakpoints it is their interpolation, rounded to tenths |
| Battery.ChargePercentOutOfRange | custom_components/integration_fufopi/battery.py:86-100 | outside 9 V to 15 V it is zero |
| Battery.ChargePercentMonotone | custom_components/integration_fufopi/battery.py:74-100 | within the table's range it never falls as the voltage rises |
| Battery.ChargePercentRange | custom_components/integration_fufopi/battery.py:74-100 | every voltage reads a percentage from 0 to 120 |
| Battery.ChargePercentExamples | custom_components/integration_fufopi/battery.py:74-100 | 12 V is 60 %, 12.5 V is 70 %, 9 V and 8 V are 0 % |
| Battery.UnscaledVoltageOffTable | custom_components/integration_fufopi/battery.py:39-47 | as written, any millivolt reading above 15 is stored as that many volts and reads 0 % |
| Battery.ScaledVoltageOnTable | custom_components/integration_fufopi/battery.py:39-47 | scaled from millivolts, readings from 9000 to 15000 fall on the table's line, and 12000 mV reads 60 % |
| SmartSolarMppt.MillivoltTableFacts | custom_components/integration_fufopi/smart_solar_MPPT.py:541-549 | seven increasing breakpoints from 9000 mV to 15000 mV on one line |
| SmartSolarMppt.PercentOfMillivolts | custom_components/integration_fufopi/smart_solar_MPPT.py:541-569 | 0.02 % per millivolt above 9000 mV, rounded to tenths, from 9000 mV to 15000 mV, and 0 elsewhere; `Interpolate` computes it with the source's loop and the `Percent` lemmas state its properties |
| SmartSolarMppt.Interpolate | custom_components/integration_fufopi/smart_solar_MPPT.py:556-569 | the loop computes the percentage function of the millivolt reading |
| SmartSolarMppt.BatteryPerCentSensor.constructor | custom_components/integration_fufopi/smart_solar_MPPT.py:521-525 | no value before the first update |
| SmartSolarMppt.BatteryPerCentSensor.HandleCoordinatorUpdate | custom_components/integration_fufopi/smart_solar_MPPT.py:538-571 | a numeral is shown as its percentage; a non-numeral raises and leaves the value unchanged |
| SmartSolarMppt.EveryWriteIsTheLine | custom_components/integration_fufopi/smart_solar_MPPT.py:558-569 | every chord the loop may write inside the range gives the final value, so overwriting by later breakpoints is harmless |
| SmartSolarMppt.PercentAtBreakpoint | custom_components/integration_fufopi/smart_solar_MPPT.py:558-569 | at a breakpoint the percentage is the breakpoint's |
| SmartSolarMppt.PercentBetween | custom_components/integration_fufopi/smart_solar_MPPT.py:558-569 | between neighbouring breakpoints it is their interpolation, rounded to tenths |
| SmartSolarMppt.PercentMonotone | custom_components/integration_fufopi/smart_solar_MPPT.py:556-569 | within the range it never falls as the voltage rises |
| SmartSolarMppt.PercentOnGrid | custom_components/integration_fufopi/smart_solar_MPPT.py:556-569 | inside the range a line value that is a whole number of tenths is shown exactly |
| SmartSolarMppt.PercentExamples | custom_components/integration_fufopi/smart_solar_MPPT.py:541-569 | 12000 mV is 60 %, 12500 mV 70 %, 15000 mV 120 %, and 9000, 8000 and 16000 mV are 0 % |
| SmartSolarMppt.AgreesWithBatteryPercent | custom_components/integration_fufopi/smart_solar_MPPT.py:541-569 | the sensor's millivolt table shows the same percentage as the battery coordinator's volt table |
| SolarPanel.SolarPanelCoordinator.constructor | custom_components/integration_fufopi/solar_panel.py:24-28 | all four quantities start at zero |
| SolarPanel.SolarPanelCoordinator.Voltage | custom_components/integration_fufopi/solar_panel.py:30-33 | the stored voltage to the nearest millivolt |
| SolarPanel.SolarPanelCoordinator.Power | custom_components/integration_fufopi/solar_panel.py:53-56 | the stored power to the nearest milliwatt |
| SolarPanel.SolarPanelCoordinator.YieldToday | custom_components/integration_fufopi/solar_panel.py:68-71 | the stored yield to the nearest watt-hour |
| SolarPanel.SolarPanelCoordinator.MaxPowerToday | custom_components/integration_fufopi/solar_panel.py:83-86 | the stored maximum power to the nearest milliwatt |
| SolarPanel.SolarPanelCoordinator.Current | custom_components/integration_fufopi/solar_panel.py:45-51 | zero without a positive voltage, otherwise power over voltage to the nearest milliampere |
| SolarPanel.SolarPanelCoordinator.SetVoltage | custom_components/integration_fufopi/solar_panel.py:35-43 | a numeral string is stored as its value times 0.001, millivolts as volts; a Decimal as is; anything else raises; nothing else changes |
| SolarPanel.SolarPanelCoordinator.SetPower | custom_components/integration_fufopi/solar_panel.py:58-66 | a numeral string is stored as its value in watts, a Decimal as is, anything else raises; nothing else changes |
| SolarPanel.SolarPanelCoordinator.SetYieldToday | custom_components/integration_fufopi/solar_panel.py:73-81 | as written: a numeral string is stored times 0.01 as the power, and the yield is untouched |
| SolarPanel.SolarPanelCoordinator.SetYieldTodayIntended | custom_components/integration_fufopi/solar_panel.py:73-81 | as intended: a numeral string in hundredths of a kWh is stored times 0.01 as the yield, and the power is untouched |
| SolarPanel.SolarPanelCoordinator.SetMaxPowerToday | custom_components/integration_fufopi/solar_panel.py:88-96 | a numeral string is stored as its value in watts, a Decimal as is, anything else raises; nothing else changes |
| SolarPanel.NoCurrentWithoutVoltage | custom_components/integration_fufopi/solar_panel.py:48-51 | without a positive voltage the current reads zero |
| SolarPanel.CurrentNonNegative | custom_components/integration_fufopi/solar_panel.py:48-49 | non-negative power at positive voltage reads a non-negative current |
| SolarPanel.CurrentTimesVoltage | custom_components/integration_fufopi/solar_panel.py:48-49 | the current shown times the voltage is the power, to within half a milliampere times the voltage |
| SolarPanel.YieldTodayAsWritten | custom_components/integration_fufopi/solar_panel.py:73-81 | as written, setting the yield from a fresh coordinator leaves the yield at zero and shows the reading as power |
| SolarPanel.YieldTodayIntended | custom_components/integration_fufopi/solar_panel.py:73-81 | as intended, the yield shows the reading and the power stays zero |
| RelayBoard.Gpio.constructor | custom_components/integration_fufopi/relay_board.py:12-14 | no pin has been driven yet |
| RelayBoard.Gpio.Input | custom_components/integration_fufopi/relay_board.py:36 | a pin reads the level last driven onto it, and 0 when none was |
| RelayBoard.Gpio.Output | custom_components/integration_fufopi/relay_board.py:50 | driving a pin sets that pin's level and no other |
| RelayBoard.OnLevel | custom_components/integration_fufopi/relay_board.py:47-52 | the level that switches a relay on is 0 or 1 |
| RelayBoard.OffLevel | custom_components/integration_fufopi/relay_board.py:54-59 | the off level is 0 or 1 and differs from the on level |
| RelayBoard.LevelIsOn | custom_components/integration_fufopi/relay_board.py:33-45 | level 1 is on for a plain relay and off for an inverted one; `LevelsDecideState` states that on and off are exactly the two levels |
| RelayBoard.LevelsDecideState | custom_components/integration_fufopi/relay_board.py:33-45 | a relay reads on exactly at its on level and off exactly at its off level |
| RelayBoard.RelayPigPio.constructor | custom_components/integration_fufopi/relay_board.py:26-31 | the new relay drives its pin to the off level and reads off |
| RelayBoard.RelayPigPio.IsOn | custom_components/integration_fufopi/relay_board.py:33-45 | the relay's state read from its pin's level; `RelayOn`, `RelayOff` and the constructor state the level each command leaves |
| RelayBoard.RelayPigPio.RelayOn | custom_components/integration_fufopi/relay_board.py:47-52 | drives only its pin to the on level, after which it reads on |
| RelayBoard.RelayPigPio.RelayOff | custom_components/integration_fufopi/relay_board.py:54-59 | drives only its pin to the off level, after which it reads off |
| RelayBoard.RelayBoardPigPio.constructor | custom_components/integration_fufopi/relay_board.py:12-20 | four inverted relays on pins 18, 23, 24 and 27, all driven high, so all off |
| RelayBoard.RelayPinsDistinct | custom_components/integration_fufopi/relay_board.py:15-20 | the four relays use four different pins |
| RelayBoard.CommandTwice | custom_components/integration_fufopi/relay_board.py:47-59 | repeating a command changes nothing more, and the relay reads as commanded |
| RelayBoard.RelayBoardBinarySwitch.constructor | custom_components/integration_fufopi/relay_board.py:65-68 | the switch remembers its board and index and has no state yet |
| RelayBoard.RelayBoardBinarySwitch.AsyncTurnOn | custom_components/integration_fufopi/relay_board.py:102-106 | only its relay's pin goes low; that relay reads on, the others keep their state, and the switch remembers on |
| RelayBoard.RelayBoardBinarySwitch.AsyncTurnOff | custom_components/integration_fufopi/relay_board.py:108-112 | only its relay's pin goes high; that relay reads off, the others keep their state, and the switch remembers off |
| RelayBoard.RelayBoardBinarySwitch.Name | custom_components/integration_fufopi/relay_board.py:114-117 | `Relay_` followed by the relay index; `NamesDistinct` states that different relays are named differently |
| RelayBoard.NamesDistinct | custom_components/integration_fufopi/relay_board.py:114-117 | switches on different relays have different names |
| Fridge.FridgePowerSwitch.constructor | custom_components/integration_fufopi/fridge.py:56-59 | the switch is bound to the relay board |
| Fridge.FridgePowerSwitch.IsOn | custom_components/integration_fufopi/fridge.py:78-80 | the fridge reads the state of relay 1; `AsyncTurnOn` and `AsyncTurnOff` state the state each command leaves |
| Fridge.FridgePowerSwitch.AsyncTurnOn | custom_components/integration_fufopi/fridge.py:66-70 | relay 1's pin goes low and the fridge reads on |
| Fridge.FridgePowerSwitch.AsyncTurnOff | custom_components/integration_fufopi/fridge.py:72-76 | relay 1's pin goes high and the fridge reads off |
| Fridge.FridgeAmps | custom_components/integration_fufopi/fridge.py:99-103 | the load current in amperes less the 0.5 A offset, to the nearest milliampere, non-negative from 500 mA |
| Fridge.FridgeWatts | custom_components/integration_fufopi/fridge.py:126-130 | the offset current times the panel voltage in volts, to the nearest milliwatt, non-negative for non-negative inputs from 500 mA |
| Fridge.FridgeCurrent | custom_components/integration_fufopi/fridge.py:99-105 | raises when either reading is not a numeral; otherwise zero while the relay is off and the offset current while it is on |
| Fridge.FridgePower | custom_components/integration_fufopi/fridge.py:126-132 | raises when either reading is not a numeral; otherwise zero while the relay is off and the offset power while it is on |
| Fridge.UniqueIdsDistinct | custom_components/integration_fufopi/fridge.py:30-121 | the switch, current and power ids of an entry differ, and each sensor's id determines its entry |
| Fridge.SwitchUniqueId | custom_components/integration_fufopi/fridge.py:62-64 | the switch's id: the entry id followed by "fridge" and "power"; `UniqueIdsDistinct` states that it differs from the sensors' |
| Fridge.CurrentUniqueId | custom_components/integration_fufopi/fridge.py:92-94 | the current sensor's id; `UniqueIdsDistinct` states that it differs from the others and determines the entry |
| Fridge.PowerUniqueId | custom_components/integration_fufopi/fridge.py:119-121 | the power sensor's id; `UniqueIdsDistinct` states that it differs from the others and determines the entry |
| Fridge.FridgeCurrentSensor.constructor | custom_components/integration_fufopi/fridge.py:86-90 | no value before the first update |
| Fridge.FridgeCurrentSensor.HandleCoordinatorUpdate | custom_components/integration_fufopi/fridge.py:96-107 | stores the fridge current for the relay's present state, or raises and keeps the old value |
| Fridge.FridgePowerSensor.constructor | custom_components/integration_fufopi/fridge.py:113-117 | no value before the first update |
| Fridge.FridgePowerSensor.HandleCoordinatorUpdate | custom_components/integration_fufopi/fridge.py:123-133 | stores the fridge power for the relay's present state, or raises and keeps the old value |
| Fridge.OffShowsZero | custom_components/integration_fufopi/fridge.py:99-105 | after the fridge is switched off, both sensors show zero |
| Fridge.SensorsAgree | custom_components/integration_fufopi/fridge.py:96-133 | the two sensors fail together, both show zero while off, and both are non-negative from 500 mA |
| Fridge.PowerOverVoltage | custom_components/integration_fufopi/fridge.py:99-130 | the power shown over the panel voltage is the offset current, within half a milliwatt over the voltage |
| PowerDistribution.LoadAmps | custom_components/integration_fufopi/power_distribution.py:75-77 | the load current in amperes to the nearest milliampere, non-negative for non-negative readings |
| PowerDistribution.WholeMilliamps | custom_components/integration_fufopi/power_distribution.py:75-77 | a whole number of milliamperes is shown exactly |
| PowerDistribution.LoadWatts | custom_components/integration_fufopi/power_distribution.py:97-100 | battery volts times load amperes to the nearest milliwatt, non-negative for non-negative readings |
| PowerDistribution.NoCurrentNoPower | custom_components/integration_fufopi/power_distribution.py:75-100 | zero load current shows zero current and zero power |
| PowerDistribution.LoadCurrent | custom_components/integration_fufopi/power_distribution.py:72-78 | raises exactly when the reading is not a numeral, and otherwise shows its rounded amperes |
| PowerDistribution.LoadPower | custom_components/integration_fufopi/power_distribution.py:94-102 | raises exactly when either reading is not a numeral, and otherwise shows the rounded product |
| PowerDistribution.LoadState | custom_components/integration_fufopi/power_distribution.py:117-127 | raises exactly when the battery current is not a numeral, and otherwise is on exactly when the load state reads "ON" |
| PowerDistribution.LoadStateIgnoresCurrent | custom_components/integration_fufopi/power_distribution.py:120-125 | the parsed battery current never changes the state shown |
| PowerDistribution.LoadStateExamples | custom_components/integration_fufopi/power_distribution.py:122-125 | "ON" is on; "OFF", "on" and "" are off |
| PowerDistribution.UniqueIdsDistinct | custom_components/integration_fufopi/power_distribution.py:68-115 | the three load sensors of an entry have distinct ids |
| PowerDistribution.LoadCurrentId | custom_components/integration_fufopi/power_distribution.py:68-70 | the load current sensor's id; `UniqueIdsDistinct` states that it differs from the others |
| PowerDistribution.LoadPowerId | custom_components/integration_fufopi/power_distribution.py:90-92 | the load power sensor's id; `UniqueIdsDistinct` states that it differs from the others |
| PowerDistribution.LoadStateId | custom_components/integration_fufopi/power_distribution.py:113-115 | the load state sensor's id; `UniqueIdsDistinct` states that it differs from the others |
| Hmc5883l.MeasurementMode | custom_components/integration_fufopi/hmc5883L.py:111-121 | codes 0 to 3 are shown by their names and every other code as "Invalid" |
| Hmc5883l.MeasurementCode | custom_components/integration_fufopi/hmc5883L.py:111-121 | a name read back gives a code from 0 to 3 |
| Hmc5883l.MeasurementModeRoundTrip | custom_components/integration_fufopi/hmc5883L.py:111-121 | valid codes and their names convert back and forth; "Invalid" names no code |
| Hmc5883l.MeasurementModeInjective | custom_components/integration_fufopi/hmc5883L.py:111-121 | different valid codes are shown differently |
| Hmc5883l.OperatingMode | custom_components/integration_fufopi/hmc5883L.py:200-210 | 0 is continuous, 1 single, 2 or 3 idle, everything else "Invalid", each in both directions |
| Hmc5883l.OperatingModeTotal | custom_components/integration_fufopi/hmc5883L.py:200-210 | every code is shown as one of the listed names |
| Hmc5883l.OperatingModeOnlyIdleCollides | custom_components/integration_fufopi/hmc5883L.py:205-208 | two valid codes share a name only when they are the two idle codes |
| Hmc5883l.Gauss | custom_components/integration_fufopi/hmc5883L.py:289-291 | the milligauss reading shown in gauss, exactly |
| Hmc5883l.GaussInjectiveMonotone | custom_components/integration_fufopi/hmc5883L.py:289-291 | different readings show differently, in the same order |
| Hmc5883l.MagField | custom_components/integration_fufopi/hmc5883L.py:283-339 | each axis shows its own reading in gauss |
| Hmc5883l.AxesIndependent | custom_components/integration_fufopi/hmc5883L.py:283-339 | a reading on one axis changes that axis only |
| Hmc5883l.GaussExamples | custom_components/integration_fufopi/hmc5883L.py:289-291 | 1234 mGauss is 1.234 Gauss, -5 is -0.005, 0 is 0 |
| Acs712.RawValueRoundTrip | custom_components/integration_fufopi/acs714.py:75 | the reading and the unrounded current determine each other |
| Acs712.RawValue | custom_components/integration_fufopi/acs714.py:75 | `(mV - 2500) / 185`; `RawValueRoundTrip` states that it and the reading determine each other |
| Acs712.Current | custom_components/integration_fufopi/acs714.py:75-77 | the current to the nearest hundredth of an ampere: zero at 2500 mV, with the sign of the offset |
| Acs712.CurrentMonotone | custom_components/integration_fufopi/acs714.py:75-77 | a higher reading never shows a lower current |
| Acs712.NoTieOnWholeMillivolts | custom_components/integration_fufopi/acs714.py:75-77 | a whole number of millivolts never falls halfway between two hundredths of an ampere, so tie-breaking never decides the value |
| Acs712.CurrentExamples | custom_components/integration_fufopi/acs714.py:75-77 | 2500 mV is 0 A, 2685 mV is 1 A, 2315 mV is -1 A |
| Acs712.ChannelKeyInjective | custom_components/integration_fufopi/acs714.py:73 | different channels are held under different keys |
| Acs712.ChannelKey | custom_components/integration_fufopi/acs714.py:73 | `ads1115_ch` followed by the channel number; `ChannelKeyInjective` states that it is injective |
| Acs712.Update | custom_components/integration_fufopi/acs714.py:70-87 | raises KeyError exactly when the channel is missing; otherwise shows the current and records the channel, reading, unit, sensitivity and unrounded current |
| Acs712.SensibilityText | custom_components/integration_fufopi/acs714.py:84 | the sensitivity attribute reads "185 mV/A" |
| Acs712.UpdateReadsOwnChannel | custom_components/integration_fufopi/acs714.py:73 | a sensor's update depends on its own channel only |
| Acs712.AddAcs712Sensors | custom_components/integration_fufopi/acs714.py:17-24 | four sensors, on channels 0 to 3 in order |
| Acs712.UniqueId | custom_components/integration_fufopi/acs714.py:37-40 | the entry id, `ACS712` and the channel number; `UniqueIdInjective` states that it is injective within an entry |
| Acs712.Name | custom_components/integration_fufopi/acs714.py:66 | `ACS712 Sensor ` followed by the channel number; `NameInjective` states that it is injective |
| Acs712.UniqueIdInjective | custom_components/integration_fufopi/acs714.py:37-40 | within an entry, different channels have different ids |
| Acs712.NameInjective | custom_components/integration_fufopi/acs714.py:66 | different channels have different names |
| Acs712.AddedSensorsDistinct | custom_components/integration_fufopi/acs714.py:17-40 | the four sensors added have distinct ids and distinct names |
| PowerLane.PowerLaneSwitch.constructor | custom_components/integration_fufopi/power_lane.py:19-26 | the lane keeps its name, relay pin and channel; no level is driven yet |
| PowerLane.PowerLaneSwitch.IsOnAsWritten | custom_components/integration_fufopi/power_lane.py:83-86 | as written, `is_on` reads `_pin_no`, which is not among the attributes the constructor assigns, so every call raises AttributeError |
| PowerLane.PowerLaneSwitch.IsOnVia | custom_components/integration_fufopi/power_lane.py:19-26 | reading the pin from an attribute raises AttributeError exactly when the constructor did not assign it, and otherwise is on exactly when that pin is low |
| PowerLane.PowerLaneSwitch.IsOn | custom_components/integration_fufopi/power_lane.py:83-86 | as intended: the reading `is_on` gives when it takes `_relay_pin`, on while that pin is low |
| PowerLane.PowerLaneSwitch.TurnOn | custom_components/integration_fufopi/power_lane.py:88-90 | only the relay pin goes low, and the lane then reads on |
| PowerLane.PowerLaneSwitch.TurnOff | custom_components/integration_fufopi/power_lane.py:92-94 | only the relay pin goes high, and the lane then reads off |
| PowerLane.SwitchThenAsk | custom_components/integration_fufopi/power_lane.py:83-94 | after a switch command `is_on` as written still raises, while the intended reading is the commanded state |
| PowerLane.LaneIsAnInvertedRelay | custom_components/integration_fufopi/power_lane.py:83-94 | a lane's relay is read like an inverted relay of the relay board: low is on |
| PowerLane.CurrentUpdate | custom_components/integration_fufopi/power_lane.py:53-72 | raises exactly when the channel is missing; otherwise the current to the nearest hundredth, the sensitivity "185 mV/A" and the unrounded current |
| PowerLane.AgreesWithAcs712 | custom_components/integration_fufopi/power_lane.py:56-71 | a lane's current sensor shows exactly what the ACS712 sensor on the same channel shows |
| PowerLane.UniqueIdInjective | custom_components/integration_fufopi/power_lane.py:28-31 | within an entry, lanes with different names have different ids |
| PowerLane.UniqueId | custom_components/integration_fufopi/power_lane.py:28-31 | the entry id, `PowerLane` and the lane's name; `UniqueIdInjective` states that it is injective within an entry |
| PowerLane.SensorName | custom_components/integration_fufopi/power_lane.py:49 | the lane's name followed by ` current`; `NamesDiffer` states that it differs from the switch's |
| PowerLane.SwitchName | custom_components/integration_fufopi/power_lane.py:80 | the lane's name followed by ` switch`; `NamesDiffer` states that it differs from the sensor's |
| PowerLane.NamesDiffer | custom_components/integration_fufopi/power_lane.py:49-80 | a lane's sensor and switch are named differently |

## Left out

- Home Assistant plumbing is not modelled. This covers the entity base classes, `device_info`, the `integration` attribute, `async_write_ha_state`, `available`, and the per-entity `unique_id` suffixes other than those of the fridge, load, ACS712 and power-lane entities.
- The platform and setup modules are not part of this model. They only wire entities to the coordinators: `sensor.py`, `switch.py`, `binary_sensor.py`, `fan.py`, `devices.py`, `entity.py`, and config-entry setup and unload.
- `nox_fan.py`, `clima.py`, `adxl345.py` and `ads1115.py` are peripherals outside the modelled core. The ADS1115 channel readings are passed to the ACS712 and power-lane sensors as a map.
- Serial I/O is a parameter, not a device: the SmartSolar byte buffer and the VE.Direct serial lines. Opening the port is a boolean.
- VEDirect.VEDirectCoordinator.Update: takes the port's lines already decoded as text. `readlines()` returns bytes, which the source never decodes; see the findings and `UpdateAsWritten`.
- The pigpio/RPi.GPIO driver is modelled by `RelayBoard.Gpio`: a map from pin to level, where an undriven pin reads 0. `GPIO.setmode` and `GPIO.setup` are not modelled.
- The HMC5883L register reads are unmodelled. The driver's mode codes and axis readings enter as integers.
- Time enters as a `now` parameter. The source stamps each line with its own `time.time()`; the model stamps every line of one poll with the same `now`. The simulation's random draws become a generator relation (`Generates`) plus the `Draw` method.
- Logging is reduced to the warnings list: the VE.Direct buffer logged at every poll and the record warnings. The warning text is not modelled, and the logged buffer is represented by its number of lines.
- The VE.Direct checksum is stored like any other field and never validated, as in the source; the model does not validate it either.
- `relay_board.py:95` reads a `pig` attribute the board does not have. `available` is plumbing and is not modelled.
- `SmartSolar.py:124` passes an argument to the argument-less relay board constructor. The model builds the board separately.
- The table values of `const.py` are not part of this model; the value lists are taken from `SmartSolar.py` and `__init__.py`.
- Decimal arithmetic is exact real arithmetic. The 28-digit context, and the InvalidOperation `quantize` raises for results beyond it, are not modelled.
- `Decimal(0.001)` and `Decimal(0.01)` are binary floats whose exact value differs from the decimal by about 1e-20. They are modelled as the exact decimals, and so is the float division in the ACS712 and power-lane sensors. The rounded values agree unless the exact result is a tie at the last kept digit. There the binary error decides in the source, and the model rounds half to even: 12345 mV at 500 mA shows 6.173 W in the source and 6.172 W in the model.
- Decimals.ParseDecimal: accepts exactly a stripped, optionally signed run of digits with an optional fractional part. Python's `Decimal` also accepts exponents, `Infinity`, `NaN` and underscores, strips the control characters `\x1c` to `\x1f` and Unicode whitespace, and reads Unicode digits; the model rejects all of these.
- PowerDistribution.LoadState: the source compares `load_state is "ON"` by object identity, which in CPython depends on string interning. The model compares by value, as evidently intended.
- Interpolation.Scale: requires distinct abscissas. Both tables have strictly increasing voltages, so `_scale` is never called otherwise.
- The state-of-operation table has no names for VE.Direct codes 1, 8 and 10. The model keeps those gaps, as the code does; see `Tables.CsTableGaps`.
- Decimals.Convert: states that a numeral succeeds, not the value stored. The scaled value is stated by `ConvertScales` and by the setters, for the factors the source uses: 0.001, 0.01 and 1.
- Acs712.Update: returns the value and attributes an update writes, instead of assigning them to an entity object. The update has no other effect.
- PowerLane.CurrentUpdate: returns the value and attributes an update writes, as `Acs712.Update` does.
- The lane's GPIO setup in the shared constructor writes no level, so it is not modelled.

## Findings

| source | as written | input that shows it | evidently intended | confidence | as-written member | corrected member |
|---|---|---|---|---|---|---|
| custom_components/integration_fufopi/battery.py:39-47 | the voltage setter stores a string reading unscaled, though the charger reports millivolts, as the current setter assumes | a reading "12000" is stored as 12000 V, and the charge percentage reads 0 % | scale the string by 0.001 like the current; 12000 mV then reads 60 % | not executed | Battery.UnscaledVoltageOffTable | Battery.ScaledVoltageOnTable |
| custom_components/integration_fufopi/solar_panel.py:73-81 | the yield-today setter assigns `_power` instead of `_yield_today` | setting yield_today to "150" on a fresh coordinator leaves yield_today at 0 and makes power read 1.5 | store the scaled reading in `_yield_today` and leave the power alone | not executed | SolarPanel.YieldTodayAsWritten | SolarPanel.YieldTodayIntended |
| custom_components/integration_fufopi/power_lane.py:83-86 | `is_on` reads `_pin_no`, which no constructor of the lane assigns (the pin is kept in `_relay_pin`) | any call of `is_on`, before or after any `turn_on` or `turn_off`, raises AttributeError | read `_relay_pin`, so the lane reads on while that pin is low | not executed | PowerLane.PowerLaneSwitch.IsOnAsWritten | PowerLane.PowerLaneSwitch.IsOn |
| custom_components/integration_fufopi/__init__.py:244-251 | a real port's `readlines()` yields byte strings, and `line.split("\t")` with a text separator raises TypeError | a port that returns the line `b"V\t12000\r\n"` makes the poll raise before any record is stored | decode each line as text before splitting it | not executed | VEDirect.VEDirectCoordinator.UpdateAsWritten | VEDirect.VEDirectCoordinator.Update |
