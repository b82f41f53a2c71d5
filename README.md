# EST converter core, modelled in Dafny

The EST converter reads the CSV export of a Fluke ESA615 electrical safety
analyser and builds one row of the 22-column "InterfaceTransactions" upload
sheet per tested device. A companion converter rewrites the analyser's own
`.dta` files into a CSV that the same parser reads.

This project models that core and proves properties about it:

- **The pure rules layer** (module `Rules`). It covers:
  - the eight canonical measurement groups;
  - the three normalised electrical conditions;
  - the AS/NZS 3760 or AS/NZS 3551 standard inferred from a template name by six ordered rules;
  - the equipment class inferred from the template name;
  - the "earthed" predicate;
  - the three-level limit lookup: limits-table entry for the class, then the entry for the standard, then the built-in default.
- **The limits-summary loader** (`Limits`). The rows of the summary sheet become the limits cache.
- **The tester-map loader** (`TesterMap`). The rows of the tester sheet become the map from tester serial number to asset number.
- **The parsing layer** (`FlukeParser`). It covers:
  - the ordered encoding fallback;
  - `clean_value`;
  - the results column map;
  - the first-wins metadata scan of the first twenty rows;
  - the ordered error checks;
  - the results header search;
  - the measurement rows.
- **The mapping layer** (`Mapping`). It covers:
  - the measurement lookup keyed by group and condition, where the first measurement of a key is the one shown;
  - the reading columns;
  - the earthed and per-standard gates;
  - the line load;
  - the test-sequence prefix removal;
  - the `%d/%m/%Y` date;
  - the overall result;
  - the 22-column order in which rows are appended to the sheet.
- **The `.dta` to CSV converter** (`DtaConverter`). It covers:
  - a class holding the first-wins header map, the test results and the applied parts;
  - the line scan, including the `<TEST=`/`<TESTAP=` tag pattern and the two data-line layouts;
  - the applied-part lists;
  - the calibration-date and test-date rewrites;
  - the exact rows `to_csv` writes, with message tests filtered out.
- **The link between the two converters** (`Compatibility`). Parsing a converted file always finds its results header, with the value in column 4 and the status in column 7. The rest holds under three conditions:
  - the device's serial number (DUTSN) is not blank;
  - neither the operator (ESA615OPID) nor the calibration technician (ESA615CALTECH) value is a key cell naming "SERIAL";
  - no applied part is named "Test Name".

  Under those conditions the parse fails only for a missing equipment number or template name, and otherwise yields exactly the measurements of the written tests, in order. The tester serial number read is the serial number of the device under test. The reason is that the device's "Serial Number :" key sits in the fifth column of the fifth row and is the first serial key the scan meets.

Python's own string operations are modelled in `PyText`:

- `upper`/`lower` on ASCII letters;
- `strip` with Python's white-space set;
- `in`, `split`, `split('=', 1)`;
- `re.findall(r'\b\w+\b')` as maximal runs of ASCII letters, digits and `_`;
- `int()` on text, including signs and underscores;
- `str()` on integers.

Effects outside the program are parameters:

- `float()` on a cleaned value is `parseFloat`;
- the date parser is `parseDate`;
- `datetime.now()` is `now`;
- printing a float is `show`;
- reading the file under one encoding is `read`.

Spreadsheet and CSV cells are their text, with "" for an empty cell.

## Model

| member | source | states |
|---|---|---|
| Rules.CanonicalGroup | est_converter.py:123-163 | The group is that of the first rule, in the source's order, that matches the upper-cased text. There is no group exactly when no rule matches. Any earth-bond text gives the protective-earth group. |
| Rules.CanonicalGroupIgnoresCase | est_converter.py:129 | The group does not depend on the case of the text. |
| Rules.NormalizeCondition | est_converter.py:166-180 | Open neutral exactly when an open-neutral pattern occurs. Open earth exactly when an open-earth pattern occurs and no open-neutral one does. Normal condition otherwise. |
| Rules.ConditionTextIsFixedPoint | est_converter.py:118-120 | Each condition's constant text normalises to that condition. |
| Rules.NormalizeConditionIdempotent | est_converter.py:166-180 | Normalising the text of a normalised condition gives the same condition. |
| Rules.InferStandard | est_converter.py:183-227 | The six rules decide in order: "3760", "3551", "NO EARTH" with "DOMESTIC", "NO EARTH" alone, a 3760 class token, a 3551 class or applied-part token. |
| Rules.InferStandardFailsIff | est_converter.py:224-227 | Inference fails exactly when none of the six rules applies. |
| Rules.Explicit3760Example | est_converter.py:201-203 | The name "TEST_3760_5D" gives AS/NZS 3760. |
| Rules.NoEarthDomesticExample | est_converter.py:209-211 | "NO EARTH DOMESTIC" gives AS/NZS 3760. |
| Rules.NoEarthTypeExample | est_converter.py:213-215 | "NO EARTH TYPE BF" gives AS/NZS 3551. |
| Rules.NoStandardExample | est_converter.py:217-227 | The name "random template" gives no standard. |
| Rules.BaseClass | est_converter.py:276-287 | The class digit is that of the first token that is a bare 1, 2 or 5, or one of those digits followed by capitals. It is "1" when no token is one. |
| Rules.InferClassType | est_converter.py:230-301 | A "NO EARTH" name gets a class-5 variant. Any other name gets the base class digit followed by "D" under 3760, or by "CF", "BF" or "B" under 3551. |
| Rules.NoEarthClassChoice | est_converter.py:244-272 | A "NO EARTH" name gets the same class under both standards. Each variant is chosen exactly when its cue is present and no earlier cue is, in this order: "DOMESTIC" gives 5D; a 5CF token with a 5BF or BF token gives 5CF&5BF; "NO AP" or "NO APPLIED" gives 5; "TYPE CF" or a CF token gives 5CF; "TYPE BF" or a BF token gives 5BF; "TYPE B" or a B token gives 5B; otherwise 5. |
| Rules.EarthedClassChoice | est_converter.py:274-301 | Under 3551, a name without "NO EARTH" gets the base class digit followed by "CF" exactly when "TYPE CF" or a CF token is present. It is followed by "B" exactly when there is no CF or BF cue and "TYPE B" occurs; a bare B token does not count. Otherwise it is followed by "BF". |
| Rules.ClassUnder3760 | est_converter.py:274-290 | Under 3760, a name without "NO EARTH" is class 1D, 2D or 5D. It is 1D when no token names a class. |
| Rules.ClassTwoExample | est_converter.py:277-290 | "CLASS 2" under 3760 is class 2D. |
| Rules.TypeCfExample | est_converter.py:292-294 | "CLASS 1 TYPE CF" under 3551 is class 1CF. |
| Rules.ClassIsEarthed | est_converter.py:304-318 | A class is unearthed exactly when it starts with "5" and the standard is 3551. |
| Rules.NoEarthTemplateEarthedness | est_converter.py:244-272 | A "NO EARTH" name is earthed exactly when its standard is 3760. |
| Rules.EarthedTemplateUnder3551 | est_converter.py:274-301 | Under 3551, a name without "NO EARTH" is unearthed exactly when its first class token is a 5. |
| Rules.DefaultLimits | est_converter.py:321-361 | Both default sets hold earth-bond and insulation limits. The 3760 set has no patient-leakage or mains-contact limits. |
| Rules.ExactLimitWins | est_converter.py:436-439 | A cache entry for the standard, class and field is the limit. |
| Rules.GenericLimitBeatsDefault | est_converter.py:441-444 | Without that entry, the entry for the standard and field is the limit. |
| Rules.DefaultLimitApplies | est_converter.py:446-448 | Without either entry, the default is the limit, or "" for a field the defaults lack. |
| Rules.DefaultLimitExamples | est_converter.py:321-345 | With an empty cache: 3760 has no patient-leakage or mains-contact limit, the 3551 earth bond is 0.2 and the 3760 earth bond is 1. |
| Limits.HeaderIndex | est_converter.py:392-401 | The header is the first row among the first ten whose cells name both "Standard" and "Field". No row before it does. Without one there is no header. |
| Limits.FindLimitsHeader | est_converter.py:392-401 | The header loop stops at that same row. |
| Limits.RowEntryMeaning | est_converter.py:403-417 | A data row adds nothing when it lacks a standard, a field or a limit. Otherwise it adds the stripped limit under the key `standard\|class\|field`, with the field lower-cased. |
| Limits.ApplyDataRows | est_converter.py:403-417 | The data-row loop leaves the cache that applying the row entries in order gives. |
| Limits.LoadFixedLimits | est_converter.py:368-422 | The loader leaves that cache, and an empty one when there is no header. |
| Limits.LoadedValuesAreLimits | est_converter.py:408-417 | Every stored limit is nonempty and has no surrounding white space. |
| Limits.LastEntryWins | est_converter.py:416-417 | The last entry that gives a key decides its value. |
| Limits.UntouchedKey | est_converter.py:403-417 | A key no entry gives keeps its earlier value. |
| Limits.SummaryRowDecidesLimit | est_converter.py:416-440 | The limit on the last summary row giving a standard, class and field is what the lookup returns for them. |
| FlukeParser.NumericCharsIdempotent | est_converter.py:470-471 | Removing letters, white space and `<>=` a second time removes nothing. |
| FlukeParser.NumericCharsAppend | est_converter.py:470-471 | Cleaning a concatenation cleans each part. |
| FlukeParser.CleanValue | est_converter.py:455-476 | An empty text has no value. Otherwise the value is `float()` of the text without unit characters. |
| FlukeParser.LastColumn | est_converter.py:479-500 | The column is the last header cell naming it, or the default 5 (value) or 8 (status) when none does. |
| FlukeParser.FindResultsColumnMap | est_converter.py:479-500 | The header loop gives that value and status column. |
| FlukeParser.KeySlot | est_converter.py:561-570 | A key fills the first field it names that is still empty, in the order operator, equipment or asset, serial number (left five columns only), template, date and time. Each slot is chosen exactly when its key and empty field are present and no earlier one is. |
| FlukeParser.ScanRowsExtends | est_converter.py:542-570 | Once found, a metadata field is never changed by later rows: the first occurrence wins. |
| FlukeParser.SerialOnlyInLeftColumns | est_converter.py:565-566 | A serial key in column 5 or later never sets the tester serial number. |
| FlukeParser.ExtractMetadata | est_converter.py:535-570 | The metadata loop gives the first-wins scan of the first twenty rows. |
| FlukeParser.ResultsHeaderIndex | est_converter.py:590-597 | The results header is the first row whose first cell is "TEST NAME" and that names a value or result column. |
| FlukeParser.FindResultsHeader | est_converter.py:590-600 | The header loop stops at that row. |
| FlukeParser.RowMeasurementMeaning | est_converter.py:606-646 | A kept row has a name whose first dash part is a recognised group, the condition of its second part, a value that cleans to a number, and Pass exactly when its status starts with "P". |
| FlukeParser.SkippedRows | est_converter.py:608-613 | Rows too short for the two columns, and rows without a test name, give no measurement. |
| FlukeParser.ParseMeasurements | est_converter.py:606-646 | The measurement loop keeps each row's measurement in order. |
| FlukeParser.ParseFlukeRows | est_converter.py:532-600 | The errors come in the source's order: "CSV file too short", then "Missing Equipment Number", then "Missing Tester S/N", then "Missing Template Name". A success has all three fields and a results header. |
| FlukeParser.ResultsOf | est_converter.py:590-657 | The results step fails exactly when there is no results header. A success carries the metadata and the date, and the measurements of the rows after the first results header, read in that header's columns. |
| FlukeParser.ReadResults | est_converter.py:590-657 | The results loops give that outcome. |
| FlukeParser.ParsedFromRows | est_converter.py:606-657 | Every parsed measurement is the measurement of some row after the results header. |
| FlukeParser.RowsParsed | est_converter.py:606-657 | Conversely, every row below a header that yields a measurement has it among the measurements read after that header. With `ResultsOf`, every such row below the first results header has its measurement in the parsed record. |
| FlukeParser.ParseFlukeFile | est_converter.py:532-657 | The parse of decoded rows, as the source runs it, gives the specified outcome. |
| FlukeParser.DecodeFirstReadWins | est_converter.py:519-527 | The rows are those of the first encoding that reads, once every earlier one failed to decode. |
| FlukeParser.DecodeAllFail | est_converter.py:529-530 | When every encoding fails to decode, the error names the last decoding error. |
| FlukeParser.Decode | est_converter.py:515-530 | The encoding loop gives that outcome. |
| Mapping.Columns | est_converter.py:77-100 | A row has 22 cells. |
| Mapping.ColumnsRoundTrip | est_converter.py:916-937 | Reading the 22 cells back gives the row, so each field has its own column. |
| Mapping.FromColumnsRoundTrip | est_converter.py:916-937 | Any 22 cells are the columns of the row read from them. |
| Mapping.Sheet.constructor | est_converter.py:907-911 | The sheet starts with the template's rows. |
| Mapping.Sheet.AppendRows | est_converter.py:913-937 | Each record becomes one new row after the existing rows, its fields in column order. Earlier rows are unchanged. |
| Mapping.MeasMapIsMatching | est_converter.py:718-723 | The lookup holds, for each key, exactly the measurements with that key, in order. It holds no key without one. |
| Mapping.GroupMeasurements | est_converter.py:718-723 | The lookup loop builds that lookup. |
| Mapping.FirstOfIsEarliest | est_converter.py:733-737 | The measurement a column shows is the earliest one with its group and condition. It is absent exactly when none has them. |
| Mapping.FormatField | est_converter.py:726-730 | The text is "NA" exactly when there is no measurement. A shown measurement always holds a comma. |
| Mapping.FormatFieldParts | est_converter.py:726-730 | A shown reading splits back into its value, "Pass" or "Failed", the limit and the unit. It is never "NA". |
| Mapping.DateTextShape | est_converter.py:699 | The date is two-digit day, slash, two-digit month, slash, four-digit year, each reading back as the date's number. |
| Mapping.TestSeqStripsPrefix | est_converter.py:695-696 | A `_digits - ` prefix, with any white space around the dash, is removed. |
| Mapping.TestSeqWithoutPrefix | est_converter.py:695-696 | A name not starting with `_` is kept whole. |
| Mapping.InterfaceRowOf | est_converter.py:667-824 | No row, and one error naming the template, exactly when no standard is inferred. Otherwise the row names that standard. |
| Mapping.ReadingNAIff | est_converter.py:726-791 | A reading column is "NA" exactly when its group and condition have no measurement. |
| Mapping.ReadingParts | est_converter.py:726-791 | A shown reading is the first measurement's value and result, the looked-up limit and the unit. |
| Mapping.PatientColumnsOnlyUnder3551 | est_converter.py:793-816 | Under 3760 the applied-part and mains-contact columns are "NA". |
| Mapping.UnearthedGetsNoEarthReadings | est_converter.py:740-774 | An unearthed class gets no earth-bond or earth-leakage reading. |
| Mapping.NoEarthTemplateUnder3551 | est_converter.py:740-774 | A "NO EARTH" template under 3551 gets no earth readings. |
| Mapping.LineLoadShownIff | est_converter.py:732-738 | The line load is shown exactly when both an L-N and an N-E normal-condition voltage exist. |
| Mapping.OverallFailsIff | est_converter.py:818-822 | The overall result is "F" exactly when some measurement failed, and "P" otherwise. |
| Mapping.AssetNumberFromTesterMap | est_converter.py:691-692 | The asset number is the tester map's entry for the serial number, or the serial number itself. |
| Mapping.OverallPassFail | est_converter.py:818-822 | The loop gives "F" exactly when some measurement failed. |
| Mapping.LookupFirst | est_converter.py:733-737 | Reading the lookup gives the earliest measurement of the key. |
| Mapping.LookupReading | est_converter.py:740-791 | One reading column read from the lookup is the specified column. |
| Mapping.MainsReadings | est_converter.py:732-761 | Line load, earth bond and insulation as specified. |
| Mapping.LeakageReadings | est_converter.py:763-791 | Earth and enclosure leakage as specified, earth leakage gated by standard and earthedness. |
| Mapping.PatientReadings | est_converter.py:793-816 | Applied-part leakage and mains contact as specified, under 3551 only. |
| Mapping.BuildInterfaceRow | est_converter.py:667-824 | `build_interface_row`, as the source runs it, gives the specified row or error. |
| TesterMap.LastCell | est_converter.py:857-864 | Within a row, the last cell naming the column wins. |
| TesterMap.HeaderRowsAreLast | est_converter.py:855-864 | Over the first ten rows, the header row is the last row with a serial cell, the serial column is that row's last serial cell, and the asset column is the last asset cell of the last row with one. |
| TesterMap.TesterEntry | est_converter.py:871-879 | A data row gives its stripped serial and asset numbers exactly when it reaches both columns and both are filled. |
| TesterMap.DataEntriesAt | est_converter.py:871-879 | Entry `j` comes from the `j`-th row after the header row. |
| TesterMap.ScanTesterHeader | est_converter.py:851-864 | The header loops give that header. |
| TesterMap.LoadTesterMap | est_converter.py:831-886 | The loader leaves the map the data rows give, applied in order. |
| TesterMap.NoHeaderNoMap | est_converter.py:866-868 | When the first ten rows have no serial cell, or no asset cell, the map is empty. |
| TesterMap.LastTesterRowWins | est_converter.py:878-879 | The last data row giving a serial number decides its asset number. |
| TesterMap.UnknownTester | est_converter.py:871-879 | A serial number no data row gives is not in the map. |
| DtaConverter.TestTag | dta_to_csv_converter.py:66-68 | The test name is the group of the leftmost `<TEST=` or `<TESTAP=` match; there is none exactly when no index starts a match. A name is nonempty and holds no `>` after its first character. |
| DtaConverter.TestTagOfTestLine | dta_to_csv_converter.py:66-68 | `<TEST=name>` names the test `name`. |
| DtaConverter.AppendCurrent | dta_to_csv_converter.py:63-64 | Appending adds the open test at the end of the results. |
| DtaConverter.UpdateCurrent | dta_to_csv_converter.py:77-88 | Changing the open test changes every appended result that is the same dictionary, and no other. |
| DtaConverter.DataUpdate | dta_to_csv_converter.py:77-88 | An applied-part test takes name, limit, result and status from parts 0, 1, 3 and 4. Any other test takes limit, result and status from parts 0, 2 and 3. Missing parts read as "". |
| DtaConverter.HeaderStep | dta_to_csv_converter.py:54-58 | A header line adds its key with the text after the first `=` only when the key is new. Existing keys are unchanged. |
| DtaConverter.MarkerStep | dta_to_csv_converter.py:41-52 | A marker line switches a flag and changes nothing else. |
| DtaConverter.StepKeepsState | dta_to_csv_converter.py:38-88 | One line keeps every test named, keeps aliases consistent, and never changes a header key once set. |
| DtaConverter.ScanKeepsState | dta_to_csv_converter.py:38-88 | The whole scan keeps those invariants. |
| DtaConverter.HeaderOnlyFromHeaderLines | dta_to_csv_converter.py:41-58 | Only a `key=value` line read inside the header changes the header. |
| DtaConverter.AppendOnlyOnTestLines | dta_to_csv_converter.py:62-75 | A test is appended exactly on a test line or a closing line while a test is open, and it is the open test. |
| DtaConverter.EndClosesTest | dta_to_csv_converter.py:72-75 | A closing line leaves no test open. |
| DtaConverter.PartAt | dta_to_csv_converter.py:95-101 | A position gives a part exactly when its name is not empty. The part carries that name. |
| DtaConverter.PartsAreNonBlankNames | dta_to_csv_converter.py:90-101 | The parts are named exactly by the non-blank names, in order. |
| DtaConverter.ReadAppliedParts | dta_to_csv_converter.py:90-101 | The applied-part loop gives the parts of the header's lists. |
| DtaConverter.ReadParts | dta_to_csv_converter.py:95-101 | The loop over the name list gives those parts. |
| DtaConverter.CalibrationDateRewritten | dta_to_csv_converter.py:124-130 | `MmmDddYyyyy` becomes `m/d/yyyy`, with month and day read as integers. |
| DtaConverter.OtherCalibrationDateKept | dta_to_csv_converter.py:124-132 | A calibration date not of that form is kept, and so is one whose month or day `int()` rejects. |
| DtaConverter.YearFirstDateRewritten | dta_to_csv_converter.py:142-147 | `year/mm/dd` plus the time becomes `m/d/year time`. |
| DtaConverter.OtherDateKept | dta_to_csv_converter.py:142-151 | A date that is not three `/` parts, or whose second or third part `int()` rejects, is kept, followed by the time. |
| DtaConverter.SetupRows | dta_to_csv_converter.py:112-188 | The setup section is 28 rows. |
| DtaConverter.DutRows | dta_to_csv_converter.py:118-154 | Six eight-cell rows, each starting with its label of the device-under-test block. |
| DtaConverter.TemplateRows | dta_to_csv_converter.py:161-165 | Three eight-cell rows, each starting with its label of the template block. |
| DtaConverter.SettingRows | dta_to_csv_converter.py:166-179 | Seven eight-cell rows, each starting with its setting label. |
| DtaConverter.PartRows | dta_to_csv_converter.py:190-191 | One row per applied part. |
| DtaConverter.WrittenTests | dta_to_csv_converter.py:206-210 | The written tests are results, none a message test, LOAD601 or GFI10. |
| DtaConverter.UnskippedTestsWritten | dta_to_csv_converter.py:206-219 | Every other test is written. |
| DtaConverter.TestRows | dta_to_csv_converter.py:212-219 | One row per written test, with name, applied part, result, limit and status in their columns. |
| DtaConverter.CsvRowsWidth | dta_to_csv_converter.py:112-224 | Every row written has eight cells. |
| DtaConverter.CsvRowsLayout | dta_to_csv_converter.py:185-224 | The parts are the rows from row 28 onwards. The results header comes seven title rows after them and is followed by a blank row. Then come one row per written test, in order, and the footer. |
| DtaConverter.DtaToCsvConverter.constructor | dta_to_csv_converter.py:24-28 | The converter holds the text, an empty header, no results and no parts. |
| DtaConverter.DtaToCsvConverter.Parse | dta_to_csv_converter.py:30-103 | The header and results become those of the line scan. The parts of the header are appended. |
| DtaConverter.DtaToCsvConverter.ToCsv | dta_to_csv_converter.py:105-224 | `to_csv` parses the text it holds, which it leaves unchanged, then writes exactly the specified rows. |
| DtaConverter.StartState | dta_to_csv_converter.py:34-36 | The starting scan state has consistent aliases. |
| DtaConverter.ScanText | dta_to_csv_converter.py:32-88 | Splitting into lines and scanning gives the specified state. |
| DtaConverter.ScanAll | dta_to_csv_converter.py:38-88 | The line loop gives the scan of all lines. |
| DtaConverter.ScanLine | dta_to_csv_converter.py:39-88 | One loop iteration is one scan step. |
| DtaConverter.WriteRows | dta_to_csv_converter.py:112-224 | The writes give the specified rows. |
| DtaConverter.WritePartRows | dta_to_csv_converter.py:190-191 | The part loop appends one row per part. |
| DtaConverter.WriteTestRows | dta_to_csv_converter.py:206-219 | The test loop appends one row per written test. |
| PyText.Strip | dta_to_csv_converter.py:39 | The stripped text has no white space at either end. |
| PyText.StripIsInfix | dta_to_csv_converter.py:39 | Only white space is removed: the stripped text occurs in the text with nothing but white space before and after it. |
| PyText.StripIdempotent | dta_to_csv_converter.py:78 | Stripping twice is stripping once. |
| PyText.Tokens | est_converter.py:199 | Every token is a nonempty run of word characters. |
| PyText.WordIsOneToken | est_converter.py:199 | A run of word characters is a single token. |
| PyText.TokensSkip | est_converter.py:199 | The empty text has no tokens, and a character that is not a word character starts none. |
| PyText.TokensAfterWord | est_converter.py:199 | A run of word characters followed by a separator is the first token, followed by the tokens of the rest. With TokensSkip and WordIsOneToken this makes the tokens exactly the maximal runs of word characters. |
| PyText.TokensOfWordPair | est_converter.py:199 | Two words separated by a space are exactly two tokens. |
| PyText.TokensOfTwoWords | est_converter.py:199 | Two words each followed by a space are the first two tokens, followed by the tokens of the rest. |
| PyText.JoinSplit | est_converter.py:617 | Joining the parts of a split with the separator gives the text back. |
| PyText.SplitOnce | dta_to_csv_converter.py:56 | The key holds no `=`, and key, `=` and value make the line. |
| PyText.IntRoundTrip | dta_to_csv_converter.py:127-130 | `int()` of `str()` of any integer is that integer. |
| Compatibility.HeaderRowIsResultsHeader | dta_to_csv_converter.py:202 | The header row `to_csv` writes is a results header for the parser. |
| Compatibility.ResultsHeaderColumns | dta_to_csv_converter.py:202 | The parser maps that header's value to column 4 and its status to column 7. These are the columns the test rows fill. |
| Compatibility.ReadBack | dta_to_csv_converter.py:203-224 | From the rows after the header, the parser reads exactly the measurements of the written tests, in order. |
| Compatibility.SetupSerial | dta_to_csv_converter.py:118-121 | When the device's serial number is not blank and neither the operator nor the calibration technician value is a serial key, the tester serial number read from the setup rows is the device's serial number. |
| Compatibility.ParsedFile | est_converter.py:572-657 | Rows laid out as a converted file parse with the given serial number and measurements, or fail only for missing equipment or template. |
| Compatibility.ConvertedFileParses | dta_to_csv_converter.py:105-224 | Assume the device's serial number is not blank, neither the operator nor the calibration technician value is a serial key, and no applied part is named "Test Name". Then parsing a converted file fails only for a missing equipment number or template name. When it succeeds, it carries the device's serial number and exactly the measurements of the written tests. |

## Left out

- The Qt user interface, its worker thread and the drag-and-drop file list: user interaction, not conversion logic.
- The ESA615 serial-port connector and the diagnostic, build and fix-up scripts: device transport and tooling, outside the conversion core.
- `convert_files`: the batch orchestration with its timestamped output names and error CSV is file handling around the modelled operations.
- Opening workbooks and files, `wb.save` and `csv.writer`: the model starts from the rows read and ends with the rows written. The sheet chosen (named "Summary" or the active one) is not modelled.
- The messages printed by the loaders: console output only.
- The encoding a byte file decodes under: `read` stands for opening the file under one encoding.
- Float parsing and printing (`float()`, `f"{value}"`), the date parser and `datetime.now()`: these are the parameters `parseFloat`, `show`, `parseDate` and `now`.
- Exceptions other than decoding errors: these are modelled only where the source turns them into a result, namely the parse's "Parse error" message for a failed file read. A date that does not parse falls back to `now`, and a bad calibration or test date is kept as written.
- Non-ASCII text: case mapping, `\w`, `\d` (the test-sequence prefix in `Mapping.DigitRunLength`) and the digits `int()` accepts (`PyText.PyInt`) cover ASCII only, whereas Python accepts all Unicode letters and digits.
- Cell values that are numbers or dates in a workbook: these are modelled as their text, as `str()` would give it. One difference follows: the loaders test a cell's truth before reading it (est_converter.py:405-411 and 875-876), so a numeric 0 standard, class, field, limit, serial number or asset cell is skipped in the source, whereas `Limits.RowEntry` and `TesterMap.TesterEntry` read it as the text "0".
- Compatibility.ConvertedFileParses: converted files with a blank device serial number, a serial-key operator or technician value, or an applied part named "Test Name" are not covered. With a blank device serial number, for example, the parser leaves the tester serial number empty at that cell and takes the analyser's own serial number (ESA615SN) from the seventh row. The parse then fails with "Missing Tester S/N" if that is blank too.
- The round trip through the CSV file between `to_csv` and the parser: `Compatibility` feeds the rows `to_csv` writes straight to the parser, which assumes that `csv.writer` (writing UTF-8 with a byte-order mark) and `csv.reader` give every cell back unchanged.
- Limits.IsLimitsHeader: tests each cell for "Standard" and "Field". The source tests the text of the whole row tuple, which can differ only for cell texts containing quote characters.
- DtaConverter.DtaToCsvConverter.Parse: the header map, the results and the applied parts are values reassigned on the object. Aliasing between result dictionaries is modelled by the `aliases` index set rather than by references.
- The global limits cache: it is passed explicitly (`limits`/`cache`) to the lookup and to `build_interface_row`.
