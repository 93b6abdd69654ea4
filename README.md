# infocentre_data_manager plugins, modelled in Dafny

This project models the plugin layer of the HPV Information Centre data
manager. That layer turns spreadsheets of the Centre's scientific tables
into a *data dict* and back, and validates that dict. A data dict maps
`general`, `variables`, `data`, `sources`, `notes`, `methods`, `years`,
`dates` and `logs` to tables.

The modelled parts are:

- **the basic validator.** Six fixed checks run in order: variable
  names against data columns, the general-info row count, empty contents,
  undescribed variables, variable-name charset, and the four date fields.
  Each check appends to the instance's `info`/`warnings`/`errors` lists.
  The `No problems found.` line is added when nothing was recorded.
- **plugin resolution.** `get_plugins` builds the name → class table from
  the installed entry points of one group. `get` resolves a string, dict,
  falsy or other id against that table, or falls back to the default
  handler.
- **the Excel codec.** On load, it splits the 8-cell GENERAL block into
  the `general` and `dates` tables and reads the other sheets. On store,
  it writes GENERAL, VARIABLES, DATA, SOURCES, NOTES, METHODS, YEARS and
  LOGS in that order. Two checks happen on store: the required-column
  check and the column projection. Worksheets are modelled as maps from
  (row, column) to cell.
- **the old-template codec's load.** It reads the WELCOME block and the
  data and variables sheets. It applies the `_var<i>` name fallback and
  the `id` → `integer` typing, then injects the `id` row and column. It
  renames the reference and date sheets. Finally it rewrites the date
  fields `yyyy-mm-dd` → `dd/mm/yyyy`. Its `store` always refuses.
- **the integer, string and HPV semantic types, and the null validator.**

## How the model is built

Pandas values become the datatype `PyValues.Cell`:

- `Str`, `Int` and `DateTime` for the real values;
- `Missing` for NaN;
- `Null` for Python `None`.

A table is `Tables.Table(index, columns, rows)`, with row labels, column
labels and row-major cells. A data dict is a `map<string, Frame>`.

Python exceptions become `Err` values of `PyValues.Result`. They carry
the exception class and, where the code builds one, the message.

Where the code changes state, the model is imperative:

- `BasicValidator.BasicValidator` is a class whose `info`, `warnings` and
  `errors` fields the checks append to.
- `_check_dates`, `get_plugins` and `store` are loops.
- The old template's date rewrite is a loop over the four fields.
- Worksheets (`Worksheet.Sheet`) and workbooks (`Worksheet.Workbook`) are
  classes that `write_row`, `write_column` and `add_worksheet` update.
- `ExcelCodec.Dataset` holds the caller's data dict, which `store` updates
  in place (`fillna` on `variables`).

Each method is proved against a function that states the same outcome on
values:

- `ValidateSpec` for the basic validator;
- `Registry` and `Resolve` for the plugin layer;
- `Outcomes`, `Written`, `Raised` and `AfterStore` for the Excel store;
- `Rewritten` and `LoadSpec` for the old-template load.

The lemmas state the behaviour the code promises about those functions.

Python's `int()` is specified by `PyInt.IsIntLiteral`:

- optional whitespace;
- an optional sign;
- ASCII digits with single underscores between them;
- optional whitespace.

`strptime(s, '%Y-%m-%d')` is specified by `DateFormat.SpelledAs`. It
accepts four digits, then a month of one or two digits, then a day of one
or two digits or a space and one digit. The result must also be a real
Gregorian date with year at least 1. This is the calendar-date extended
format of section 4.1.2.2 of ISO 8601:2004, except that month and day may
have a single digit.

## Model

| member | source | states |
|---|---|---|
| BasicValidator.BasicValidator.constructor | infocentre_data_manager/plugins/data_validators/basic.py:23-24 | a new validator ignores its keyword arguments; the model starts it with empty message lists |
| BasicValidator.BasicValidator.Validate | infocentre_data_manager/plugins/data_validators/basic.py:26-45 | `validate` returns exactly what ValidateSpec describes (the three lists, or the exception a check raised), and leaves the fields holding the recorded warnings, errors and info |
| BasicValidator.BasicValidator.RunChecks | infocentre_data_manager/plugins/data_validators/basic.py:31-36 | running the six checks in order records their combined outcome, stopping at the first exception |
| BasicValidator.BasicValidator.Step | infocentre_data_manager/plugins/data_validators/basic.py:31-36 | step k runs the k-th check and records its outcome after what is already recorded |
| BasicValidator.BasicValidator.CheckVarsMatch | infocentre_data_manager/plugins/data_validators/basic.py:47-53 | the method appends exactly the outcome VarsMatch gives, or reports the KeyError it raised |
| BasicValidator.BasicValidator.CheckGeneralRow | infocentre_data_manager/plugins/data_validators/basic.py:55-59 | the method appends exactly the outcome GeneralRow gives |
| BasicValidator.BasicValidator.CheckTableContentDescription | infocentre_data_manager/plugins/data_validators/basic.py:61-63 | the method appends exactly the outcome ContentDescription gives |
| BasicValidator.BasicValidator.CheckNoDescriptionVars | infocentre_data_manager/plugins/data_validators/basic.py:65-74 | the method appends exactly the outcome NoDescriptionVars gives |
| BasicValidator.BasicValidator.CheckInvalidVars | infocentre_data_manager/plugins/data_validators/basic.py:76-88 | the method appends exactly the outcome InvalidVars gives |
| BasicValidator.BasicValidator.CheckDateField | infocentre_data_manager/plugins/data_validators/basic.py:103-142 | one pass of the date loop records what DateField gives for that field |
| BasicValidator.BasicValidator.CheckDates | infocentre_data_manager/plugins/data_validators/basic.py:90-142 | the loop over the four date fields, with its early returns, records exactly the outcome Dates gives |
| BasicValidator.Attribute | infocentre_data_manager/plugins/data_validators/basic.py:66-68 | `row.attr` during `itertuples` is the column's values when the column exists, and otherwise an AttributeError naming it |
| BasicValidator.IsEmptyText | infocentre_data_manager/plugins/data_validators/basic.py:68 | a row is selected iff its description equals `''` |
| BasicValidator.IsInvalid | infocentre_data_manager/plugins/data_validators/basic.py:79-80 | a row is selected iff its name does not fully match `[a-zA-Z0-9_]+` |
| BasicValidator.DateFieldOutcomes | infocentre_data_manager/plugins/data_validators/basic.py:103 | the per-field outcomes are taken in the order date_accessed, date_closing, date_published, date_delivery |
| BasicValidatorProperties.ReportShape | infocentre_data_manager/plugins/data_validators/basic.py:38-45 | validate succeeds iff no check raises; its warnings and errors are those recorded; info is `['No problems found.']` iff both are empty and `[]` otherwise |
| BasicValidatorProperties.ChecksInOrder | infocentre_data_manager/plugins/data_validators/basic.py:31-36 | errors come grouped as vars-match, general row, invalid names, dates; warnings as contents, then descriptions |
| BasicValidatorProperties.WarningFreeChecks | infocentre_data_manager/plugins/data_validators/basic.py:47-59 | the vars-match, general-row, invalid-name and date checks never warn |
| BasicValidatorProperties.ErrorFreeChecks | infocentre_data_manager/plugins/data_validators/basic.py:61-74 | the contents and description checks never record an error |
| BasicValidatorProperties.VarsMatchCases | infocentre_data_manager/plugins/data_validators/basic.py:47-53 | missing tables or column raise KeyError; otherwise exactly one error iff names and data columns differ in length or at some position, none iff they are equal in order |
| BasicValidatorProperties.GeneralRowCases | infocentre_data_manager/plugins/data_validators/basic.py:55-59 | 0 rows gives the "missing" error, more than 1 the "more than one row" error, exactly 1 nothing; never a warning |
| BasicValidatorProperties.ContentDescriptionCases | infocentre_data_manager/plugins/data_validators/basic.py:61-63 | the contents warning is recorded iff the first general row's contents is `''` |
| BasicValidatorProperties.EmptyGeneralSteps | infocentre_data_manager/plugins/data_validators/basic.py:56-62 | with no general row the general-row check records its error but the contents check raises IndexError (or KeyError without the column) |
| BasicValidatorProperties.EmptyGeneralRaises | infocentre_data_manager/plugins/data_validators/basic.py:31-36 | with no general row validate always raises, and raises that IndexError/KeyError when the variable check passed |
| BasicValidatorProperties.GeneralMissingNeverReported | infocentre_data_manager/plugins/data_validators/basic.py:56-57 | no successful report ever contains "Data table general info is missing." |
| BasicValidatorProperties.NoDescriptionCases | infocentre_data_manager/plugins/data_validators/basic.py:65-74 | no warning when no description is `''`; otherwise one warning listing, in row order, the names of the undescribed variables (TypeError if one is not a str, AttributeError if a column is missing) |
| BasicValidatorProperties.InvalidVarsRaises | infocentre_data_manager/plugins/data_validators/basic.py:77-80 | a missing `variable` column raises AttributeError; a non-str name raises TypeError in `re.fullmatch` |
| BasicValidatorProperties.InvalidVarsReport | infocentre_data_manager/plugins/data_validators/basic.py:76-88 | no error iff every name is valid; otherwise one error listing exactly the invalid names in row order |
| BasicValidatorProperties.InvalidSelection | infocentre_data_manager/plugins/data_validators/basic.py:77-82 | the invalid names are those at the positions of the invalid rows, and there are none iff all names are valid |
| BasicValidatorProperties.DatesCases | infocentre_data_manager/plugins/data_validators/basic.py:90-142 | 0 date rows gives only "No dates defined", more than 1 only the "more than one set" error, with no per-field check; with 1 row every error is about one of the four fields |
| BasicValidatorProperties.DateFieldShape | infocentre_data_manager/plugins/data_validators/basic.py:103-142 | each date field yields at most one error, about that field, and no warning |
| BasicValidatorProperties.DateVerdictShape | infocentre_data_manager/plugins/data_validators/basic.py:111-142 | a present value gives at most one error about its field, and raises TypeError exactly when it is NaN or None |
| BasicValidatorProperties.SentinelVerdictShape | infocentre_data_manager/plugins/data_validators/basic.py:116-122 | an int-convertible value yields at most one error and never raises |
| BasicValidatorProperties.IsoDatesPass | infocentre_data_manager/plugins/data_validators/basic.py:136-142 | every real calendar date written `YYYY-MM-DD` is accepted |
| BasicValidatorProperties.SentinelsPass | infocentre_data_manager/plugins/data_validators/basic.py:116-122 | -9999 and -6666, as int or as text, are accepted |
| BasicValidatorProperties.OtherIntegersRejected | infocentre_data_manager/plugins/data_validators/basic.py:116-121 | any other integer, as int or as text, gives "Invalid <field>: <n>" |
| BasicValidatorProperties.DateVerdictExamples | infocentre_data_manager/plugins/data_validators/basic.py:111-142 | `''` and a datetime pass, `2024-02-30` is not in YYYY-MM-DD format, NaN raises TypeError |
| BasicValidatorProperties.DatesNeedRowZero | infocentre_data_manager/plugins/data_validators/basic.py:105-109 | a single date row not labelled 0 gives "No <field> defined" for all four fields |
| PyInt.ParseInt | infocentre_data_manager/plugins/semantic_types/integer.py:21-26 | `int(s)` succeeds exactly on Python integer literals (whitespace, sign, digits with single underscores) |
| PyInt.ParseIntRoundTrip | infocentre_data_manager/plugins/data_validators/basic.py:117 | `int(str(n)) == n` for every integer n |
| PyInt.SentinelLiterals | infocentre_data_manager/plugins/data_validators/basic.py:117-118 | the texts `-9999` and `-6666` convert to the sentinel integers |
| PyInt.RejectedLiterals | infocentre_data_manager/plugins/semantic_types/integer.py:21-26 | `''` and `'12.5'` are not integers |
| PyInt.RejectsInnerSymbol | infocentre_data_manager/plugins/semantic_types/integer.py:21-26 | a text with a non-digit, non-underscore, non-space character after its first character is rejected |
| DateFormat.StrptimeSpellings | infocentre_data_manager/plugins/data_validators/basic.py:137 | `strptime(s, '%Y-%m-%d')` yields date d iff d is a real date and s is one of its spellings |
| DateFormat.IsoDateAccepted | infocentre_data_manager/plugins/data_validators/basic.py:137 | the zero-padded `YYYY-MM-DD` form of a real date parses back to it |
| DateFormat.AcceptsIsoExample | infocentre_data_manager/plugins/data_validators/basic.py:137 | `2024-01-15` parses |
| DateFormat.RejectsFebruary30 | infocentre_data_manager/plugins/data_validators/basic.py:137 | `2024-02-30` is rejected |
| DateFormat.RejectsYearZero | infocentre_data_manager/plugins/data_validators/basic.py:137 | year 0 is rejected |
| DateFormat.AcceptsUnpadded | infocentre_data_manager/plugins/data_validators/basic.py:137 | one-digit month and day are accepted |
| PluginModule.GetPlugins | infocentre_data_manager/plugins/plugin_module.py:91-110 | the loop builds exactly Registry of the installed entry points of group `data_manager.<group>` |
| PluginModule.RegistryKeys | infocentre_data_manager/plugins/plugin_module.py:100-110 | a name is registered iff some entry point of the group with that name loaded |
| PluginModule.RegistryLastWins | infocentre_data_manager/plugins/plugin_module.py:102-104 | the class registered under a name is the one of the last loadable entry point with that name |
| PluginModule.NothingLoaded | infocentre_data_manager/plugins/plugin_module.py:102-109 | entry points that all fail to load give an empty table |
| PluginModule.PackagedRegistriesEmpty | setup.py:46-57 | the packaged entry points name classes that do not load, so `get('excel')` is "not available" |
| PluginModule.FirstMissing | infocentre_data_manager/plugins/plugin_module.py:76 | the first required keyword absent from kwargs, none iff all are present |
| PluginModule.Construct | infocentre_data_manager/plugins/plugin_module.py:76 | constructing a class succeeds with an instance holding kwargs, or fails with TypeError or KeyError |
| PluginModule.DefaultHandler | infocentre_data_manager/plugins/plugin_module.py:38-48 | the base default handler always raises NotImplementedError |
| PluginModule.Get | infocentre_data_manager/plugins/plugin_module.py:51-88 | `get` returns exactly what Resolve gives against the table get_plugins builds |
| PluginModule.ResolveRegistered | infocentre_data_manager/plugins/plugin_module.py:60-76 | a string id naming a registered, constructible class returns that class instantiated with kwargs |
| PluginModule.ResolveName | infocentre_data_manager/plugins/plugin_module.py:68-82 | a non-empty string id is looked up as itself |
| PluginModule.ResolveDictType | infocentre_data_manager/plugins/plugin_module.py:66-67 | a dict id resolves as its `'type'` entry |
| PluginModule.ResolveDictWithoutType | infocentre_data_manager/plugins/plugin_module.py:66-82 | a non-empty dict without `'type'` looks up None and raises "Plugin \"None\" is not available" |
| PluginModule.ResolveOtherId | infocentre_data_manager/plugins/plugin_module.py:70-73 | a truthy id that is neither str nor dict raises ValueError, not converted |
| PluginModule.ResolveUnregistered | infocentre_data_manager/plugins/plugin_module.py:75-82 | an unregistered name raises NotImplementedError whose message names it |
| PluginModule.ResolveMissingKeyword | infocentre_data_manager/plugins/plugin_module.py:75-82 | a KeyError inside the constructor is reported as the plugin not being available |
| PluginModule.ResolveRejectedKeywords | infocentre_data_manager/plugins/plugin_module.py:76 | a class without `__init__` given keywords raises TypeError, which is not converted |
| PluginModule.ResolveFalsy | infocentre_data_manager/plugins/plugin_module.py:83-88 | a falsy id raises "There is no default <class> for <id>" |
| PluginModule.ResolveSucceeds | infocentre_data_manager/plugins/plugin_module.py:60-88 | get succeeds iff the id is a truthy str or dict whose key names a registered class that constructs |
| PluginModule.InstantiateSucceeds | infocentre_data_manager/plugins/plugin_module.py:75-82 | the lookup-and-construct step succeeds iff the key is a registered name and construction succeeds |
| IntegerType.Check | infocentre_data_manager/plugins/semantic_types/integer.py:21-26 | accepts exactly Python ints and texts that `int()` accepts; every failure is False |
| IntegerType.HelpInfo | infocentre_data_manager/plugins/semantic_types/integer.py:28-29 | returns `'Integer'` |
| IntegerType.AcceptsIntegers | infocentre_data_manager/plugins/semantic_types/integer.py:21-26 | every int and its decimal text are accepted |
| IntegerType.Examples | infocentre_data_manager/plugins/semantic_types/integer.py:21-26 | `''` and `'12.5'` are rejected, `-9999` accepted, NaN/None/datetime rejected |
| StringType.Check | infocentre_data_manager/plugins/semantic_types/string.py:18-19 | every value is accepted |
| StringType.HelpInfo | infocentre_data_manager/plugins/semantic_types/string.py:21-22 | returns `'String'` |
| HpvType.HPVType.constructor | infocentre_data_manager/plugins/semantic_types/hpv_type.py:20-29 | the available types are the set handed in (the query result) |
| HpvType.HPVType.Check | infocentre_data_manager/plugins/semantic_types/hpv_type.py:31-32 | true iff the value is in the available types; reads the set and changes nothing |
| HpvType.HPVType.HelpInfo | infocentre_data_manager/plugins/semantic_types/hpv_type.py:34-35 | returns `'HPV types'` |
| HpvType.ExactMembership | infocentre_data_manager/plugins/semantic_types/hpv_type.py:27-32 | membership has no normalisation: 16 is not `'16'` |
| HpvType.MissingSettingNotAvailable | infocentre_data_manager/plugins/semantic_types/hpv_type.py:21-24 | resolving the HPV type without a PASSWORD setting reports it as not available |
| NullValidator.GetOr | infocentre_data_manager/plugins/data_validators/null.py:22-25 | `kwargs.get(key, default)` |
| NullValidator.Validate | infocentre_data_manager/plugins/data_validators/null.py:21-30 | the report's info, warnings and errors are the passed values or their defaults |
| NullValidator.Defaults | infocentre_data_manager/plugins/data_validators/null.py:22-25 | with nothing passed: `['Info example']`, the two warning examples, no errors |
| NullValidator.PassedThrough | infocentre_data_manager/plugins/data_validators/null.py:21-30 | passed lists come back unchanged, whatever the dataset |
| Tables.Column | infocentre_data_manager/plugins/codecs/excel.py:177 | `t[name]` is the values of the first column so labelled, or KeyError |
| Tables.Loc | infocentre_data_manager/plugins/data_validators/basic.py:106 | `t.loc[row, col]` is the cell at that row and column label, or an error when either is absent |
| Tables.FillNa | infocentre_data_manager/plugins/codecs/excel.py:167 | `fillna(v)` keeps labels and shape and replaces exactly the NaN cells |
| Tables.Project | infocentre_data_manager/plugins/codecs/excel.py:194 | `t[labels]` succeeds iff every label is a column; it has exactly those columns, in that order, with the source's values |
| Worksheet.Sheet.Write | infocentre_data_manager/plugins/codecs/excel.py:104-110 | a single write puts the value at its cell and nothing else changes |
| Worksheet.Sheet.WriteRow | infocentre_data_manager/plugins/codecs/excel.py:159-165 | `write_row` places the k-th value at (r, c+k) and nothing else changes |
| Worksheet.Sheet.WriteColumn | infocentre_data_manager/plugins/codecs/excel.py:139-141 | `write_column` places the k-th value at (r+k, c) and nothing else changes |
| Worksheet.Sheet.MergeRange | infocentre_data_manager/plugins/codecs/excel.py:104-110 | `merge_range` over two cells of a row writes the value in the first and a blank in the second, and nothing else changes |
| Worksheet.Sheet.WriteColumns | infocentre_data_manager/plugins/codecs/excel.py:286-303 | the column loop writes column i's values under row 0 of column i |
| Worksheet.Sheet.WriteFrame | infocentre_data_manager/plugins/codecs/excel.py:262-303 | `_create_sheet_from_df` leaves the sheet as SheetFromFrame describes |
| Worksheet.SheetFromFrameCells | infocentre_data_manager/plugins/codecs/excel.py:262-303 | on a new sheet, the header is row 0, the j-th value of column i is at (j+1, i), and no other cell is written |
| Worksheet.ReadBackSheet | infocentre_data_manager/plugins/codecs/excel.py:262-303 | reading back a sheet written from a table gives that table, relabelled 0..n-1, when every label and value is `Stable` (letter-initial text that is no NA text, parsed word or URL, or an integer below 2^53) |
| Worksheet.ReadTable | infocentre_data_manager/plugins/codecs/excel.py:48-54 | `read_excel` reads up to the last row and the last column holding a non-blank cell, takes row 0 as the header, numbers the other rows from 0, and reads blanks, error cells and pandas' default NA text in the data rows as NaN; a blank header becomes `Unnamed: c`, an error header NaN, any other header (NA text included) its own label |
| Worksheet.KeptRows | infocentre_data_manager/plugins/codecs/excel.py:48-54 | the reader keeps the rows up to the last one holding a non-blank cell (neither absent, a blank nor `''`) and drops the blank rows after it |
| Worksheet.KeptColumns | infocentre_data_manager/plugins/codecs/excel.py:48-54 | the reader keeps the columns up to the last one holding a non-blank cell in some row and drops the blank columns after it |
| Worksheet.InsideExtent | infocentre_data_manager/plugins/codecs/excel.py:48-54 | every non-blank cell lies inside the rows and columns read |
| Worksheet.NoRowsNoColumns | infocentre_data_manager/plugins/codecs/excel.py:48-54 | a sheet with a column to read has a row to read |
| Worksheet.LabelReadBack | infocentre_data_manager/plugins/codecs/excel.py:262-303 | a `Stable` label written on row 0 is read back as its column's label |
| Worksheet.CellReadBack | infocentre_data_manager/plugins/codecs/excel.py:262-303 | a `Stable` value written one row below its table row is read back unchanged |
| Worksheet.SheetExtent | infocentre_data_manager/plugins/codecs/excel.py:262-303 | a sheet written from a frame whose last label and last row start with non-blank cells is read in full: every row and every column |
| Worksheet.TrailingBlankRowDropped | infocentre_data_manager/plugins/codecs/excel.py:48-54 | a header over a row of blanks reads as that header and no row |
| Worksheet.Workbook.AddWorksheet | infocentre_data_manager/plugins/codecs/excel.py:89 | a new empty sheet with the name is added after the existing ones |
| Worksheet.Workbook.Close | infocentre_data_manager/plugins/codecs/excel.py:86 | closing keeps the sheets and marks the workbook written |
| ExcelCodec.ReadSheet | infocentre_data_manager/plugins/codecs/excel.py:48-54 | reading a sheet succeeds iff it exists, otherwise ValueError naming it |
| ExcelCodec.GeneralBlock | infocentre_data_manager/plugins/codecs/excel.py:26-29 | the GENERAL block is the 8 cells at rows 4..11 of column 1 with NaN turned into `''`; KeyError when the read has no column 1 (column B blank or absent), otherwise ValueError (length mismatch) unless the read reaches row 11 |
| ExcelCodec.SplitGeneral | infocentre_data_manager/plugins/codecs/excel.py:26-46 | the block's first four cells become table_name, contents, data_manager, comments and the last four the date fields, both single rows labelled 1 |
| ExcelCodec.Load | infocentre_data_manager/plugins/codecs/excel.py:21-66 | ValueError without file; otherwise the nine tables when every sheet reads, else the error of the first failing read in order |
| ExcelCodec.Loaded | infocentre_data_manager/plugins/codecs/excel.py:56-66 | the loaded dict has exactly the nine keys, each with its table |
| ExcelCodec.GeneralValues | infocentre_data_manager/plugins/codecs/excel.py:135-138 | the GENERAL values are general's row 1 then dates' row 1, and KeyError without them |
| ExcelCodec.FilledVariables | infocentre_data_manager/plugins/codecs/excel.py:167 | after the variables sheet, `data['variables']` has NaN replaced by `''` and every other table is unchanged |
| ExcelCodec.MissingColumns | infocentre_data_manager/plugins/codecs/excel.py:255 | the missing columns are exactly the expected ones not present |
| ExcelCodec.ValidateColumns | infocentre_data_manager/plugins/codecs/excel.py:254-260 | raises iff some expected column is absent, with a ValueError naming the missing columns and the sheet; extra columns never raise |
| ExcelCodec.StoreStep | infocentre_data_manager/plugins/codecs/excel.py:76-84 | step k writes the sheet GENERAL, VARIABLES, DATA, SOURCES, NOTES, METHODS, YEARS, LOGS in that order |
| ExcelCodec.Dataset.constructor | infocentre_data_manager/plugins/codecs/excel.py:68 | the dataset holds the caller's dict |
| ExcelCodec.CreateGeneralSheet | infocentre_data_manager/plugins/codecs/excel.py:88-141 | adds GENERAL with the banner, labels at A5 and the values at B5, or raises after adding it |
| ExcelCodec.CreateVariablesSheet | infocentre_data_manager/plugins/codecs/excel.py:143-178 | adds VARIABLES with its header and the NaN-filled columns, and replaces `data['variables']` by its filled copy |
| ExcelCodec.CreateDataSheet | infocentre_data_manager/plugins/codecs/excel.py:180-182 | adds DATA laid out from the data table |
| ExcelCodec.CreateProjectedSheet | infocentre_data_manager/plugins/codecs/excel.py:184-252 | adds the sheet, then either raises the column error or lays out the projection |
| ExcelCodec.CreateSheet | infocentre_data_manager/plugins/codecs/excel.py:76-84 | step k adds the k-th sheet as StoreStep says |
| ExcelCodec.FillWorkbook | infocentre_data_manager/plugins/codecs/excel.py:76-84 | the sheets added are those up to and including the first that raises, in order |
| ExcelCodec.Store | infocentre_data_manager/plugins/codecs/excel.py:68-86 | ValueError without file; otherwise the workbook holds the sheets written, it is closed iff nothing raised, and `variables` is filled once its sheet was reached |
| ExcelCodec.FinalTables | infocentre_data_manager/plugins/codecs/excel.py:167 | the data dict after store is filled iff the GENERAL step did not raise |
| ExcelCodec.StepsIgnoreVariables | infocentre_data_manager/plugins/codecs/excel.py:167-182 | filling `variables` changes no sheet other than VARIABLES |
| ExcelProperties.RaisedIffSomeStep | infocentre_data_manager/plugins/codecs/excel.py:76-86 | store raises iff some sheet's step raises |
| ExcelProperties.WrittenInOrder | infocentre_data_manager/plugins/codecs/excel.py:76-84 | the j-th sheet written is step j's sheet; all are written when nothing raises |
| ExcelProperties.WrittenUpToRaise | infocentre_data_manager/plugins/codecs/excel.py:76-84 | the exception raised is that of the last sheet written, and no earlier step raised |
| ExcelProperties.StoreSheetNames | infocentre_data_manager/plugins/codecs/excel.py:76-84 | the sheets are named in the fixed order and none is DATES |
| ExcelProperties.StepRaisesUnlessReady | infocentre_data_manager/plugins/codecs/excel.py:135-250 | a step raises iff its table (or general/dates row 1, or a required column) is missing |
| ExcelProperties.ProjectedRaisesUnlessReady | infocentre_data_manager/plugins/codecs/excel.py:254-260 | a projected sheet raises iff its table or one of its expected columns is missing |
| ExcelProperties.StoreSucceedsIff | infocentre_data_manager/plugins/codecs/excel.py:68-86 | store succeeds iff every step has what it needs |
| ExcelProperties.VariablesSheetCells | infocentre_data_manager/plugins/codecs/excel.py:159-178 | VARIABLES holds the header in row 0 and the filled j-th value of column i at (j+1, i), nothing else |
| ExcelProperties.DataRoundTrip | infocentre_data_manager/plugins/codecs/excel.py:180-182 | reading back DATA gives the data table relabelled 0..n-1, when its labels and cells are `Stable` |
| ExcelProperties.ProjectedReadBack | infocentre_data_manager/plugins/codecs/excel.py:186-252 | a projected sheet of `Stable` cells reads back with exactly the expected columns, each with the table's values |
| ExcelProperties.ReferenceRoundTrip | infocentre_data_manager/plugins/codecs/excel.py:184-234 | SOURCES/NOTES/METHODS/YEARS hold exactly iso, strata_variable, strata_value, applyto_variable, value, in order, with the table's values, when its cells are `Stable` |
| ExcelProperties.LogsRoundTrip | infocentre_data_manager/plugins/codecs/excel.py:236-252 | LOGS holds exactly the ten log columns in order with the table's values, when its cells are `Stable` |
| ExcelProperties.GeneralSheetCells | infocentre_data_manager/plugins/codecs/excel.py:135-141 | the k-th GENERAL value is at row 4+k, column 1 |
| ExcelProperties.TitledColumnB | infocentre_data_manager/plugins/codecs/excel.py:104-110 | the three merged title rows leave a blank in column B and nothing below |
| ExcelProperties.LabelGrid | infocentre_data_manager/plugins/codecs/excel.py:104-133 | the title and label calls of GENERAL give the titled sheet with the labels down column A from row 4 |
| ExcelProperties.GeneralColumnB | infocentre_data_manager/plugins/codecs/excel.py:104-141 | column B of GENERAL holds blanks on the title rows, the values from row 4 down, and nothing else |
| ExcelProperties.BlankGeneralUnreadable | infocentre_data_manager/plugins/codecs/excel.py:26-28 | when every general and dates value is `''` or None, the stored GENERAL sheet is read without column B, so `load` raises KeyError |
| ExcelProperties.GeneralRoundTrip | infocentre_data_manager/plugins/codecs/excel.py:26-46 | loading a stored GENERAL sheet whose eight values are `Stable` gives back the first four as general and the last four as dates |
| ExcelProperties.GeneralTablesRoundTrip | infocentre_data_manager/plugins/codecs/excel.py:26-46 | single-row general and dates tables labelled 1, with `Stable` cells, survive store then load unchanged |
| ExcelProperties.LoadedDatesNotFound | infocentre_data_manager/plugins/codecs/excel.py:38-42 | on any loaded workbook the basic validator reports all four date fields as not defined |
| OldExcelCodec.Welcome | infocentre_data_manager/plugins/codecs/old_excel.py:30-41 | WELCOME's 8-cell block becomes one row labelled 1 under the eight template labels |
| OldExcelCodec.StrCells | infocentre_data_manager/plugins/codecs/old_excel.py:43-44 | `astype(str)` replaces every cell by its text: in a column of dates and NaN (datetime64) a date as `YYYY-MM-DD` and NaN as `NaT`, elsewhere `str(value)` |
| OldExcelCodec.ReadText | infocentre_data_manager/plugins/codecs/old_excel.py:71-79 | `read_excel(dtype=str)` reads every present cell as text and keeps NaN |
| OldExcelCodec.VariableName | infocentre_data_manager/plugins/codecs/old_excel.py:49-51 | a present name is kept; a missing one at position i becomes `_var<i>` |
| OldExcelCodec.VariableType | infocentre_data_manager/plugins/codecs/old_excel.py:52-53 | the type is `integer` iff the name is `id`, `string` otherwise |
| OldExcelCodec.NameVariables | infocentre_data_manager/plugins/codecs/old_excel.py:49-53 | each variable row gets its fallback name and its type column, other cells unchanged |
| OldExcelCodec.WithIdRow | infocentre_data_manager/plugins/codecs/old_excel.py:56-65 | the `id` row is prepended and rows relabelled 0..n |
| OldExcelCodec.InsertId | infocentre_data_manager/plugins/codecs/old_excel.py:66 | data gains a leading `id` column holding 1..n, or ValueError when an `id` column already exists |
| OldExcelCodec.Renamed | infocentre_data_manager/plugins/codecs/old_excel.py:68-82 | a sheet read as text gets the template's column names; ValueError when it is missing or of another width |
| OldExcelCodec.RenamedAll | infocentre_data_manager/plugins/codecs/old_excel.py:71-82 | the reference and date sheets are read in order; the first failure is the one reported |
| OldExcelCodec.FirstMissing | infocentre_data_manager/plugins/codecs/old_excel.py:84-87 | the first of host, db, user, password that was not passed |
| OldExcelCodec.WithPublished | infocentre_data_manager/plugins/codecs/old_excel.py:103 | date_published is added as the last column, aligned on row labels, NaN past the end; a table with no rows is first reindexed to the query's labels 0..n-1 with NaN cells |
| OldExcelCodec.SetColumn | infocentre_data_manager/plugins/codecs/old_excel.py:113 | `dates[name] = v` overwrites the whole column, or appends it |
| OldExcelCodec.RewriteDates | infocentre_data_manager/plugins/codecs/old_excel.py:104-113 | the loop over the four fields gives exactly Rewritten |
| OldExcelCodec.RewriteStep | infocentre_data_manager/plugins/codecs/old_excel.py:104-113 | one pass overwrites the field's column with the rewrite of its row-0 value, read from the unchanged original |
| OldExcelCodec.RewriteFails | infocentre_data_manager/plugins/codecs/old_excel.py:106-107 | a missing row 0 or field raises and ends the loop |
| OldExcelCodec.Assemble | infocentre_data_manager/plugins/codecs/old_excel.py:115-127 | the returned dict has the eight keys, with `variables` NaN-filled |
| OldExcelCodec.Load | infocentre_data_manager/plugins/codecs/old_excel.py:25-127 | `load` returns exactly LoadSpec: the tables, or the first exception in the code's order |
| OldExcelCodec.Store | infocentre_data_manager/plugins/codecs/old_excel.py:129-131 | `store` always raises NotImplementedError with its message |
| OldExcelProperties.LoadWithoutFile | infocentre_data_manager/plugins/codecs/old_excel.py:25-29 | without file, load raises ValueError |
| OldExcelProperties.CredentialsChecked | infocentre_data_manager/plugins/codecs/old_excel.py:84-87 | once the sheets read, a missing host, db, user or password raises KeyError for the first missing one |
| OldExcelProperties.WelcomeChecked | infocentre_data_manager/plugins/codecs/old_excel.py:30-33 | a missing WELCOME sheet or block is the error reported |
| OldExcelProperties.LoadPrepared | infocentre_data_manager/plugins/codecs/old_excel.py:25-127 | a successful load is the prepared tables with the dates rewritten |
| OldExcelProperties.PreparedParts | infocentre_data_manager/plugins/codecs/old_excel.py:30-103 | the prepared tables are WELCOME, DATA/VARIABLES numbered, and the renamed reference sheets, with the publication dates added to DATES |
| OldExcelProperties.FallbackNotId | infocentre_data_manager/plugins/codecs/old_excel.py:49-53 | a fallback name is never `id` |
| OldExcelProperties.NumberedVariables | infocentre_data_manager/plugins/codecs/old_excel.py:46-65 | variables get the template labels plus `type`, the `id` row in front, each later row its fallback name and type |
| OldExcelProperties.NumberedNoIdVariable | infocentre_data_manager/plugins/codecs/old_excel.py:54-66 | when numbering succeeds no variable is named `id` |
| OldExcelProperties.NumberedData | infocentre_data_manager/plugins/codecs/old_excel.py:43-66 | data is the `astype(str)` text of DATA (dates of a date column as `YYYY-MM-DD`, NaN there as `NaT`), its columns renamed after the variables in order, with a leading `id` column 1..n |
| OldExcelProperties.StrCellsDates | infocentre_data_manager/plugins/codecs/old_excel.py:43-44 | in a datetime64 column a date's text is `str(value)` without its midnight time and NaN's is `NaT`; every other column gets `str(value)` |
| OldExcelProperties.StrCellsDateExample | infocentre_data_manager/plugins/codecs/old_excel.py:43-44 | a column holding 2020-01-02 and a NaN becomes `'2020-01-02'` and `'NaT'` |
| OldExcelProperties.IdVariableRaises | infocentre_data_manager/plugins/codecs/old_excel.py:55-66 | a variable named `id` makes `data.insert` raise ValueError, since the label test always passes |
| OldExcelProperties.FilledVariables | infocentre_data_manager/plugins/codecs/old_excel.py:52-65 | after fillna, only the `id` row is typed integer and no cell is NaN |
| OldExcelProperties.FilledTypes | infocentre_data_manager/plugins/codecs/old_excel.py:115 | `fillna('')` on the numbered variables keeps the `id` row in front, leaves it the only row typed 'integer', and leaves no NaN |
| OldExcelProperties.LoadedNumbered | infocentre_data_manager/plugins/codecs/old_excel.py:43-66 | the loaded variables and data are the numbered tables, so the data cells are DATA's `astype(str)` text as `NumberedData` states |
| OldExcelProperties.LoadedVariableTypes | infocentre_data_manager/plugins/codecs/old_excel.py:52-65 | after load, the only integer-typed variable is the leading `id` row, and no variables cell is NaN |
| OldExcelProperties.LoadedRowIds | infocentre_data_manager/plugins/codecs/old_excel.py:66 | after load, data starts with the column `id` holding 1, 2, ... |
| OldExcelProperties.FindYmdEmpty | infocentre_data_manager/plugins/codecs/old_excel.py:106-107 | there is no match iff no position starts `dddd-dd-dd` |
| OldExcelProperties.FindYmdHead | infocentre_data_manager/plugins/codecs/old_excel.py:106-107 | a match at the start is taken and the search resumes after it |
| OldExcelProperties.FindYmdDigits | infocentre_data_manager/plugins/codecs/old_excel.py:106-107 | every match has four, two and two digits |
| OldExcelProperties.FindYmdSkip | infocentre_data_manager/plugins/codecs/old_excel.py:106-107 | a leading non-digit is skipped |
| OldExcelProperties.ReformatIso | infocentre_data_manager/plugins/codecs/old_excel.py:108-110 | `yyyy-mm-dd` becomes `dd/mm/yyyy` |
| OldExcelProperties.ReformatDateTime | infocentre_data_manager/plugins/codecs/old_excel.py:106-110 | a datetime (whose str is `yyyy-mm-dd 00:00:00`) becomes its `dd/mm/yyyy` |
| OldExcelProperties.ReformatMissing | infocentre_data_manager/plugins/codecs/old_excel.py:111-112 | NaN and None become None |
| OldExcelProperties.ReformatTwoDates | infocentre_data_manager/plugins/codecs/old_excel.py:108-112 | a text with two dates becomes None |
| OldExcelProperties.RewrittenOk | infocentre_data_manager/plugins/codecs/old_excel.py:106-107 | with the fields present, the rewrite succeeds iff there is a row labelled 0, else KeyError |
| OldExcelProperties.RewrittenShape | infocentre_data_manager/plugins/codecs/old_excel.py:104-113 | the rewrite keeps labels and shape |
| OldExcelProperties.RewrittenFieldCells | infocentre_data_manager/plugins/codecs/old_excel.py:104-113 | every cell of a rewritten field is the rewrite of that field's row-0 value |
| OldExcelProperties.RewrittenOtherCells | infocentre_data_manager/plugins/codecs/old_excel.py:104-113 | cells of other columns are unchanged |
| OldExcelProperties.DatesRewritten | infocentre_data_manager/plugins/codecs/old_excel.py:79-113 | the dates table keeps its six leading columns and holds in each field column the rewrite of row 0, date_published from the first published value |
| OldExcelProperties.DatesNeedRowZero | infocentre_data_manager/plugins/codecs/old_excel.py:103-107 | an empty DATES sheet makes the loop raise KeyError(0) when the query returned no date |
| OldExcelProperties.DatesFromPublished | infocentre_data_manager/plugins/codecs/old_excel.py:103-113 | an empty DATES sheet with n > 0 query dates gives rows 0..n-1: leading columns NaN, the three sheet date fields None, date_published the rewrite of the first date |
| OldExcelProperties.LoadedFromPublished | infocentre_data_manager/plugins/codecs/old_excel.py:79-127 | with the sheets and parameters in place, an empty DATES sheet and a non-empty query result load successfully, the dates labelled 0..n-1 |
| OldExcelProperties.LoadedDates | infocentre_data_manager/plugins/codecs/old_excel.py:79-113 | the loaded dates table is the DATES sheet, as text, through the rewrite |
| OldExcelProperties.LoadedDatesFilled | infocentre_data_manager/plugins/codecs/old_excel.py:79-113 | a successful load had a DATES row or at least one publication date |

## Left out

- Workbook file I/O is left out. `pd.read_excel` becomes a map from sheet name to the grid of cells present (`ExcelCodec.ExcelFile`); `xlsxwriter`'s file is a `Worksheet.Workbook` object. Formats, row heights and column widths are dropped, because they do not affect which value lands in which cell. The workbook's `nan_inf_to_errors` option is modelled by writing NaN as `Missing`, which reads back as an error cell.
- Database access is left out. The HPV types that `HPVType.__init__` queries, and the publication dates that the old-template `load` queries, are parameters. Only the presence of the connection settings is modelled (`HpvType.Class`, `OldExcelProperties.CredentialsChecked`).
- Entry-point discovery is left out. The installed entry points are a parameter of `PluginModule.GetPlugins`. A target that fails to load is `None`. The message printed for it is not modelled.
- The docstring-inheriting metaclass of `plugin_module.py` is left out, because it is reflection.
- `PluginModule.Construct`: constructors are abstracted into three shapes. A constructor may ignore its keywords, reject all keywords, or read a list of required keys. Other exceptions a constructor may raise are not modelled.
- `PluginModule.Resolve`: a dict id whose `'type'` is unhashable (a list, say) would raise TypeError in Python. Cells have no such value, so this path is not modelled.
- Other classes are not part of this model: the MySQL and pickle codecs, the ISO semantic type, the type and missing-values validators, the data parsers, and the abstract base classes. Each only raises, wraps a foreign library, or is a stub.
- Floats are not modelled. Pandas reads numeric cells as int, float or NaN, and the model has `Int` and `Missing` only. Dtype coercion is therefore not modelled; for example, an int column with a NaN does not become float.
- Unicode is reduced to ASCII. `\d`, `int()` and `strptime` accept every Unicode decimal digit, but the model accepts ASCII digits only. Whitespace around `int()` literals is the ASCII space and `\t` to `\r`, plus the non-ASCII characters for which `str.isspace` holds; the ASCII separators U+001C to U+001F are not stripped.
- `PyInt.ParseInt`: Python 3.11's limit of 4300 digits for `int(str)` is not modelled.
- `dates.replace('nan', '')` in the old-template `load` returns a new table that is discarded, so it has no effect and is not modelled.
- Pandas allows duplicate column labels; the model does not. `Tables.Column` returns the first column so labelled, where pandas would return a sub-table.
- `OldExcelCodec.Numbered` models on values three operations that change tables in place: `data.columns = ...`, `data.insert(...)` and `variables.fillna(inplace=True)`. Those tables are local to `load` and never shared, so no aliasing is lost.
- `BasicValidator.BasicValidator.constructor`: `__init__` creates no attributes; `info`, `warnings` and `errors` exist only once `validate` has run. The model starts them empty, so reading them before `validate` (an AttributeError in Python) is not modelled.
- `ExcelCodec.GeneralBlock`: the KeyError carries `[1]`, not pandas' full "None of [...] are in the [columns]" text.
- `ExcelCodec.ValidateColumns`: Python joins the missing columns from a `set`, whose order is unspecified. The model lists them in the order of `expected`, so the message text is promised only up to that order.
- `Worksheet.ReadTable`: on a sheet read one column wide, pandas' parser also skips the rows (the header row included) whose single cell is blank or holds only whitespace (`skip_blank_lines`); the model keeps them, as NaN rows. A grid's `nrows` and `ncols` are taken to bound the cells written, as `Worksheet.Put` keeps them.
- `Worksheet.ReadTable`: pandas' per-column type inference is not modelled, except the datetime64 text of `OldExcelCodec.StrCells`. A text column whose every value parses as a number or a bool, or an int column with a blank, changes type on reading. Duplicate header labels, which pandas renames `a.1`, `a.2`, ..., and control characters that xlsxwriter escapes are not modelled either. `Worksheet.Put` keeps URL text as written, where xlsxwriter writes a hyperlink whose displayed text may differ.
- `Worksheet.ReadBackSheet`: holds only for `Stable` cells. That predicate is narrower than pandas' exact condition: it excludes all text that does not start with an ASCII letter (numbers, formulas, `{=` arrays), pandas' NA text, the words inf, infinity, nan, true and false in any case, text longer than 32767 characters, text that xlsxwriter's default `strings_to_urls` turns into a hyperlink (starting `http://`, `https://`, `ftp://`, `ftps://`, `mailto:`, `internal:` or `external:`), and integers of magnitude 2^53 or more. Text holding control characters or `_xHHHH_` sequences, which the xlsx format escapes, is not excluded, and that escaping is not modelled. Pandas renames duplicate header labels on reading and `Worksheet.ReadTable` does not, so for a table with duplicate labels the lemma speaks of the model only.
- `ExcelProperties.DataRoundTrip`: requires `Stable` labels and cells, as `Worksheet.ReadBackSheet` does.
- `ExcelProperties.ProjectedReadBack`: requires `Stable` cells, as `Worksheet.ReadBackSheet` does.
- `ExcelProperties.ReferenceRoundTrip`: requires `Stable` cells, as `Worksheet.ReadBackSheet` does.
- `ExcelProperties.LogsRoundTrip`: requires `Stable` cells, as `Worksheet.ReadBackSheet` does.
- `ExcelProperties.GeneralRoundTrip`: requires the eight GENERAL values to be `Stable`, as `Worksheet.ReadBackSheet` does.
- `ExcelProperties.GeneralTablesRoundTrip`: requires `Stable` general and dates cells, as `Worksheet.ReadBackSheet` does.
- `BasicValidator.DateVerdict`: `str(d)` never raises for a cell, so the "Invalid <field>" branch after it is unreachable and not modelled as a separate case.

## Behaviour of the code as written

Several consequences of the code follow from the lemmas above. Each is
stated as the code behaves:

- Storing a dataset whose general and dates values are all `''` or None leaves every cell of column B of GENERAL blank; the merged title rows put only blanks there. The reader drops that column, so loading the stored workbook raises KeyError (`ExcelProperties.BlankGeneralUnreadable`).
- The Excel `load` labels the single general/dates row 1. The basic validator reads the date fields at row label 0, so on a loaded workbook it reports every date field as not defined (`ExcelProperties.LoadedDatesNotFound`).
- With no general row, the basic validator's contents check raises IndexError. So the "Data table general info is missing." error never reaches a report (`BasicValidatorProperties.EmptyGeneralRaises`, `BasicValidatorProperties.GeneralMissingNeverReported`).
- A date field holding NaN or None escapes `validate` as TypeError. For NaN, `int(d)` raises ValueError, which is caught, and `datetime.strptime` on the NaN then raises TypeError; for None, `int(None)` raises TypeError directly. Neither is caught (`BasicValidatorProperties.DateVerdictShape`).
- In the old-template `load`, `'id' not in variables['variable']` tests the Series' integer index labels, so it always holds. A variable literally named `id` then makes `data.insert` raise ValueError (`OldExcelProperties.IdVariableRaises`).
- `PluginModule.get` reports a KeyError raised inside a plugin's constructor as the plugin not being available. A TypeError from the constructor propagates unchanged (`PluginModule.ResolveMissingKeyword`, `PluginModule.ResolveRejectedKeywords`).
- The packaged entry points name `ExcelCodec`, `MySQLCodec` and `TypeValidator`. The modules do not define these classes or do not import, so every packaged lookup is "not available" (`PluginModule.PackagedRegistriesEmpty`).
- The repository's description mentions reconciling tables against the relational store. The code has no such logic, and the model follows the code.
