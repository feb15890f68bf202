# CCPayroll in Dafny

A verified model of the payroll logic of CCPayroll, a Flask application that keeps
employees, two-week pay periods and daily timesheets, computes pay, and reports totals.
The model covers:

- the pay calculator and the record types (employees, pay periods, timesheet entries) and
  their dictionary round trips;
- the SQLite schema and its upgrade in `init_db`, the table operations of the models
  (insert or update by id, cascade delete of a period), and the upserts and one-time JSON
  import of `migration.py`;
- the JSON-file version of the application in `app.py`: the upload name check, adding and
  deleting employees and pay periods with the new period's blank timesheet, the timesheet
  cell update with its pay recomputation, and the aggregation of `generate_report`;
- the calendar helpers: the day list of a period, the period name, the default two-week
  window ending on the last Saturday, and the date and currency formats;
- the offline payroll-index script: the sheet-name date range, the sheet order, the
  employee-block scan over a sheet's first column, the PAY column sums and their totals.

One module per source file:

| file | module | source |
|---|---|---|
| `wrappers.dfy` | `Wrappers` | `Option` for Python's `None`, missing keys and exceptions |
| `values.dfy` | `Values` | JSON/SQL scalars, truthiness, `float()`/`int()`/`CAST`, the `str` helpers |
| `sums.dfy` | `Sums` | sums over lists, maps and sets; the two orders of a double sum |
| `dates.dfy` | `Dates` | `datetime`: day numbers, weekdays, `timedelta`, `strftime`/`strptime` |
| `utils.dfy` | `Utils` | `ccpayroll/utils/__init__.py` |
| `employee.dfy` | `Employees` | `ccpayroll/models/employee.py` |
| `pay_period.dfy` | `PayPeriods` | `ccpayroll/models/pay_period.py` |
| `tables.dfy` | `Tables` | the SQLite tables and constraints `init_db` creates |
| `timesheet_entry.dfy` | `TimesheetEntries` | `ccpayroll/models/timesheet_entry.py` |
| `migration.dfy` | `Migration` | `ccpayroll/database/migration.py` |
| `schema.dfy` | `Schema` | `ccpayroll/database/__init__.py` |
| `app.dfy` | `App` | `app.py` |
| `report.dfy` | `Report` | `generate_report` in `app.py` |
| `payroll_index.dfy` | `PayrollIndex` | `compute_payroll_index.py` |

The state the source changes in place takes the form of classes. `Tables.Database`
holds the three SQLite tables. `TimesheetEntries.TimesheetEntry` is the entry object
that saves itself. `Schema.SqliteDatabase` holds the schema of `employees`.
`App.JsonStore` holds the JSON files of the data folder. The loops of the source are
methods with loop invariants, each proved against a function that states its result.
That function's properties are proved as lemmas.

Money and hours are Dafny `real`. The conversions Python and SQLite make between text and
numbers (`float()`, `int()`, `str()` of a float, `CAST(... AS REAL)`) are parameters
(`Values.Conversions`); where such a conversion raises, the result is `None`.
Generated ids (`uuid4()`) and the current date (`datetime.now()`) are parameters too.

`init_db` creates `timesheet_entries` without a `reimbursement` column
(`ccpayroll/database/__init__.py:228-246`); the script `add_reimbursement_column.py` adds it
later, and it is not part of this model.

## Model

| member | source | states |
|---|---|---|
| Employees.CalculatePay | ccpayroll/models/employee.py:152-179 | total is regular plus overtime; an hourly employee with a truthy rate earns hours × rate and overtime hours × rate × 1.5; a salaried employee with a truthy salary earns salary / 52 and no overtime; every other case earns 0 and 0 |
| Employees.DefaultOvertime | ccpayroll/models/employee.py:152-167 | with overtime defaulting to 0, an hourly employee's total is hours × rate |
| Employees.SalaryIgnoresHours | ccpayroll/models/employee.py:168-171 | a salaried employee's pay is the same whatever the regular and overtime hours |
| Employees.UnpaidTypes | ccpayroll/models/employee.py:162-171 | any other pay type, or an hourly or salaried employee whose rate or salary is missing or zero, is paid (0, 0, 0) |
| Employees.HourlyAdditive | ccpayroll/models/employee.py:165-173 | an hourly employee's total for two stretches of hours is the sum of the totals for each |
| Employees.OvertimePremium | ccpayroll/models/employee.py:165-167 | for a non-negative rate, overtime hours never pay less than the same regular hours |
| Employees.ToDict | ccpayroll/models/employee.py:22-33 | the dictionary has exactly the eight columns |
| Employees.FromDict | ccpayroll/models/employee.py:35-47 | succeeds exactly when there is a name, `int()` accepts install_crew (default 0) and `float()` accepts each truthy amount; id, position and pay_type fall back to the fresh id, 'none' and 'hourly'; install_crew is the `int()` value; rate, salary and commission_rate are None exactly when missing or falsy, otherwise their `float()` value |
| Employees.DictRoundTrip | ccpayroll/models/employee.py:22-47 | `from_dict(to_dict(e)) == e` whenever every amount is None or non-zero |
| Employees.ZeroRateLost | ccpayroll/models/employee.py:30-44 | a zero rate comes back from the round trip as None |
| PayPeriods.ToDict | ccpayroll/models/pay_period.py:19-26 | the dictionary has exactly id, name, start_date and end_date |
| PayPeriods.FromDict | ccpayroll/models/pay_period.py:28-36 | fails exactly when name, start_date or end_date is missing; otherwise copies them, the id defaulting to the fresh id |
| PayPeriods.DictRoundTrip | ccpayroll/models/pay_period.py:19-36 | `from_dict(to_dict(p)) == p` |
| PayPeriods.GetDays | ccpayroll/models/pay_period.py:97-111 | fails on an unparseable date and exactly when the loop would step past 9999-12-31; otherwise has end − start + 1 items (none when start > end), item k being day start + k as `YYYY-MM-DD` with its upper-case weekday name |
| PayPeriods.DayItemUnique | ccpayroll/models/pay_period.py:105-108 | two items describing the same day are equal |
| PayPeriods.ConsecutiveItems | ccpayroll/models/pay_period.py:104-109 | consecutive items are consecutive calendar days and their weekday names follow each other |
| PayPeriods.GenerateNameFromDates | ccpayroll/models/pay_period.py:113-122 | for two valid dates, a 20-character "MM/DD/YY to MM/DD/YY" whose halves parse back to the dates (years 1969-2068); otherwise "Pay Period " and today's date |
| PayPeriods.ShortSlashedLength | ccpayroll/models/pay_period.py:119 | `%m/%d/%y` always writes 8 characters |
| PayPeriods.WithoutPeriod | ccpayroll/models/pay_period.py:82-87 | the rows left are exactly the rows whose period_id differs from the period's id, unchanged |
| PayPeriods.WithoutPeriodKeepsConstraints | ccpayroll/models/pay_period.py:82-87 | removing a period's rows keeps the table's constraints and is idempotent |
| PayPeriods.RemovedRowsOfPeriod | ccpayroll/models/pay_period.py:82-87 | deleting the selected ids one by one leaves exactly WithoutPeriod |
| PayPeriods.Delete | ccpayroll/models/pay_period.py:75-95 | the period and exactly its timesheet rows are gone; every other period, row and employee is unchanged, and the constraints still hold |
| TimesheetEntries.ToDict | ccpayroll/models/timesheet_entry.py:23-35 | the dictionary has exactly the nine fields |
| TimesheetEntries.FromDict | ccpayroll/models/timesheet_entry.py:37-50 | fails exactly when period_id, employee_name or day is missing; copies those; hours, pay, project_name, install_days and install default to '' and id to None |
| TimesheetEntries.DictRoundTrip | ccpayroll/models/timesheet_entry.py:23-50 | `from_dict(to_dict(e)) == e` |
| TimesheetEntries.SavedColumns | ccpayroll/models/timesheet_entry.py:86-98 | `save` writes the three key columns and the five data columns |
| TimesheetEntries.InsertedRow | ccpayroll/models/timesheet_entry.py:84-100 | the inserted row has every column of the table, with the entry's key |
| TimesheetEntries.UpdatedRow | ccpayroll/models/timesheet_entry.py:103-121 | the updated row keeps its columns, adds the eight written ones, and carries the entry's key |
| TimesheetEntries.UpdatedRowColumns | ccpayroll/models/timesheet_entry.py:103-121 | each written column holds the entry's value and every other column keeps the old row's |
| TimesheetEntries.KeptColumns | ccpayroll/models/timesheet_entry.py:105-107 | the columns `save` never writes are regular_hours, overtime_hours, job_name and notes |
| TimesheetEntries.TimesheetEntry.constructor | ccpayroll/models/timesheet_entry.py:10-21 | the object holds the given values |
| TimesheetEntries.TimesheetEntry.Save | ccpayroll/models/timesheet_entry.py:78-122 | without an id: the INSERT branch; with an id: the UPDATE branch; the entry's other fields never change and the constraints hold |
| TimesheetEntries.TimesheetEntry.Insert | ccpayroll/models/timesheet_entry.py:83-101 | succeeds exactly when the new row fits; then it is stored under the next row id, which becomes the entry's id; on failure nothing changes and id stays None |
| TimesheetEntries.TimesheetEntry.Update | ccpayroll/models/timesheet_entry.py:102-121 | with no row of that id nothing changes; otherwise succeeds exactly when the updated row fits, and then only that row changes |
| TimesheetEntries.TimesheetEntry.Delete | ccpayroll/models/timesheet_entry.py:124-129 | exactly the row with the entry's id is removed; the other tables are unchanged |
| TimesheetEntries.Matching | ccpayroll/models/timesheet_entry.py:138-141 | the selected ids are rows of the table |
| TimesheetEntries.GetTotalHoursForPeriod | ccpayroll/models/timesheet_entry.py:131-148 | the result is the sum of `CAST(hours AS REAL)` over the rows of the period and employee, NULL counting as 0 |
| TimesheetEntries.NoHoursTotalZero | ccpayroll/models/timesheet_entry.py:146-148 | with no rows, or only NULL hours, the total is 0.0 |
| Tables.EntryWithKey | ccpayroll/database/migration.py:170-182 | the row found has the key; when none is found, no row has it |
| Tables.StoreKeepsConstraints | ccpayroll/database/__init__.py:228-246 | storing a row that fits under its id keeps NOT NULL, UNIQUE and the row-id bound |
| Tables.Database.constructor | ccpayroll/database/__init__.py:165-248 | a fresh database has empty tables that satisfy the constraints |
| Migration.NewEntry | ccpayroll/database/migration.py:196-240 | the inserted row has every column and the key; each data column holds the value when it is the named field and its default ('' or 0) otherwise |
| Migration.SaveEntryKeepsConstraints | ccpayroll/database/migration.py:170-242 | after every successful save, at most one row per key and no NULL key, with the row-id bound advanced on an insert |
| Migration.SaveEntryUpdatesOneColumn | ccpayroll/database/migration.py:184-195 | on an existing key only the named column of that one row changes, the name matched without regard to ASCII case as SQL does |
| Migration.SaveEntryInsertsDefaults | ccpayroll/database/migration.py:196-240 | on a new key exactly one row is added under the next row id, with the defaults and the named field when it is a defaulted column; the other rows are unchanged |
| Migration.SaveTimesheetEntry | ccpayroll/database/migration.py:162-242 | the table becomes the result of the SELECT-then-UPDATE-or-INSERT when the statement succeeds and is unchanged when it raises; the UPDATE matches the column name case-insensitively, the INSERT's dict exactly; the row-id counter advances only on an insert; other tables are unchanged |
| Migration.SaveEntryRows | ccpayroll/database/migration.py:170-240 | the SELECT finds the key's row, then the UPDATE of that row or the INSERT gives exactly the saved table, and the INSERT runs exactly when no row holds the key |
| Migration.SaveOnExistingKey | ccpayroll/database/migration.py:184-195 | on a key some row holds, that row is the one selected and the save is its UPDATE, failing exactly where the updated row breaks a constraint |
| Migration.SaveOnNewKey | ccpayroll/database/migration.py:196-240 | on a key no row holds, nothing is selected and the save is the INSERT, failing exactly on a NULL key |
| Migration.UpsertPeriod | ccpayroll/database/migration.py:77-103 | fails exactly on a missing id, name, start_date or end_date, or a NULL one of them (for the id, see Left out); otherwise the row with that id holds the given values, every other row is unchanged and the NOT NULL constraints still hold |
| Migration.SavePayPeriod | ccpayroll/database/migration.py:77-103 | `pay_periods` becomes the upsert's result, or is unchanged when it raises; other tables are unchanged |
| Migration.UpsertEmployee | ccpayroll/database/migration.py:105-160 | fails exactly on a missing id or name, or a NULL one (for the id, see Left out); otherwise the row with that id holds the given values, and the other rows kept are exactly those with a different id and name, unchanged |
| Migration.UpsertEmployeeKeepsConstraints | ccpayroll/database/migration.py:139-158 | after the upsert no two employees share a name |
| Migration.UpsertEmployeeDefaults | ccpayroll/database/migration.py:148-157 | missing install_crew, position and pay_type become 0, 'none' and 'hourly' |
| Migration.SaveEmployee | ccpayroll/database/migration.py:105-160 | `employees` becomes the upsert's result, or is unchanged when it raises; other tables are unchanged |
| Migration.FieldWrites | ccpayroll/database/migration.py:69-71 | every write is of one of the day's fields, with a truthy value, and every truthy field is written (count and order in the next two rows) |
| Migration.FieldWritesAppend | ccpayroll/database/migration.py:69-71 | the writes of two lists of fields are those of the first followed by those of the second |
| Migration.FieldWritesOne | ccpayroll/database/migration.py:70-71 | one field gives exactly one write when its value is truthy and none when it is falsy |
| Migration.DayWrites | ccpayroll/database/migration.py:68-71 | every truthy field of every day is written, and every write is a truthy field of some day |
| Migration.FileWrites | ccpayroll/database/migration.py:67-71 | every truthy field of every day of every employee is written with the file's period id, and every write is such a field |
| Migration.FalsyFileChangesNothing | ccpayroll/database/migration.py:70-71 | a timesheet file holding only falsy values leaves the table and its row-id counter as they were |
| Migration.Attempted | ccpayroll/database/migration.py:61-75 | at most all of a file's writes are attempted, and at least the first |
| Migration.PeriodIdOfFileName | ccpayroll/database/migration.py:59-62 | the file `timesheet_<id>.json` is picked up and names period id again |
| Migration.WriteAll | ccpayroll/database/migration.py:61-75 | the timesheet table and row-id counter become those after the file's writes in order up to the first that raises; the writes attempted are that prefix, including the failing one; pay periods and employees are unchanged |
| Migration.SavedAsWrite | ccpayroll/database/migration.py:70-71 | one `save_timesheet_entry` call with a write's fields is that write's step of the file |
| Migration.WriteStep | ccpayroll/database/migration.py:61-75 | a write that raises ends the file's writes after one attempt; one that succeeds leaves the rest to run on its result |
| Migration.MigrateFile | ccpayroll/database/migration.py:61-75 | one file of the listing adds its writes when it is a loaded `timesheet_<id>.json`, and changes nothing otherwise |
| Migration.FileStep | ccpayroll/database/migration.py:58-75 | the files of a listing are handled one after the other, each on the table the previous left |
| Migration.UpsertPeriods | ccpayroll/database/migration.py:38-44 | saving the rows in order until one raises keeps the NOT NULL constraints and never removes a period |
| Migration.UpsertEmployees | ccpayroll/database/migration.py:49-55 | saving the rows in order until one raises keeps the employee constraints |
| Migration.MigratePeriods | ccpayroll/database/migration.py:38-44 | the loop leaves `pay_periods` as the rows saved in order until the first that raises; the other tables are unchanged |
| Migration.MigrateEmployees | ccpayroll/database/migration.py:49-55 | the loop leaves `employees` as the rows saved in order until the first that raises; the other tables are unchanged |
| Migration.MigrateTimesheets | ccpayroll/database/migration.py:58-75 | the loop leaves the timesheet table as the writes of each `timesheet_<id>.json` file in listing order, each file stopping at its own first failure; the other tables are unchanged |
| Migration.MigrateJsonToDb | ccpayroll/database/migration.py:16-75 | nothing changes when either table already holds a row; otherwise pay periods, employees and timesheet rows become the results of the three loops, in that order; the constraints hold throughout |
| Schema.PostgresSchemes | ccpayroll/database/__init__.py:25-27 | `postgres://` and `postgresql://` URLs name PostgreSQL; `sqlite:///` and a misspelt scheme do not |
| Schema.Line | ccpayroll/database/__init__.py:53 | what `.+` matches: the longest prefix of the text without a line break |
| Schema.SqlitePathOfUrl | ccpayroll/database/__init__.py:52-57 | for `sqlite:///` followed by a non-empty one-line path, the file opened is that path |
| Schema.LineOfOneLine | ccpayroll/database/__init__.py:53-55 | `.+` takes the whole of a text without line breaks |
| Schema.SqlitePathOfPlainFile | ccpayroll/database/__init__.py:56-57 | a URL that does not start with `sqlite:///` is opened as a path unchanged |
| Schema.RebuiltRow | ccpayroll/database/__init__.py:196-213 | a row copied into the rebuilt table has exactly the eight columns of the new schema |
| Schema.SqliteDatabase.constructor | ccpayroll/database/__init__.py:175-179 | a database file that does not exist yet has no tables, so `PRAGMA table_info` lists no columns |
| Schema.SqliteDatabase.AddColumn | ccpayroll/database/__init__.py:222-224 | fails exactly when the column exists, changing nothing; otherwise every row gains the column holding its default |
| Schema.SqliteDatabase.InitDb | ccpayroll/database/__init__.py:164-248 | no employees table: created with the full schema; installer_role without position: rebuilt with position taken from installer_role, pay_type 'hourly', salary and commission_rate NULL, failing with employees unchanged when employees_new exists, a copied column is missing, or a copied row has a NULL name, a repeated name or a repeated non-NULL id (the empty employees_new then stays behind); no pay_type: the three columns added and the rows otherwise kept; else employees untouched; pay_periods and timesheet_entries exist after success; a second run on the upgraded schema changes nothing |
| Values.Upper | compute_payroll_index.py:53 | `upper()` changes each character to its upper-case form and keeps the length |
| Values.Lower | app.py:32 | `lower()` changes each character to its lower-case form and keeps the length |
| Values.StripLeft | compute_payroll_index.py:53 | `lstrip()` removes exactly the leading whitespace |
| Values.StripRight | compute_payroll_index.py:53 | `rstrip()` removes exactly the trailing whitespace |
| Values.ReplaceAbsent | ccpayroll/database/migration.py:62 | `replace` leaves text without the pattern as it is |
| Values.MissingCharNotContained | ccpayroll/database/migration.py:62 | text lacking one of the pattern's characters does not contain the pattern |
| Values.ReplaceFront | ccpayroll/database/migration.py:62 | a leading occurrence of the pattern is replaced first |
| Values.RemoveSuffix | ccpayroll/database/migration.py:62 | removing the pattern from text followed by it leaves the text, when the text lacks the pattern's first character |
| Dates.Weekday | ccpayroll/models/pay_period.py:107 | the weekday `strftime('%A')` names is one of seven, Monday 0 to Sunday 6 |
| Dates.WeekdayOfOrdinal | ccpayroll/utils/__init__.py:63 | the weekday follows from the proleptic Gregorian day number, 0001-01-01 being a Monday |
| Dates.OrdinalInjective | ccpayroll/models/pay_period.py:103-109 | two calendar dates with the same day number are the same date |
| Dates.OrdinalPositive | ccpayroll/utils/__init__.py:64-68 | day numbers start at 1, on 0001-01-01 |
| Dates.NextDay | ccpayroll/models/pay_period.py:109 | adding `timedelta(days=1)` gives the date one day number on, and overflows exactly at 9999-12-31 |
| Dates.PrevDay | ccpayroll/utils/__init__.py:64 | going back one day gives the date one day number earlier, and overflows exactly at 0001-01-01 |
| Dates.MinusDays | ccpayroll/utils/__init__.py:64-68 | subtracting `timedelta(days=k)` gives the date k day numbers earlier, or overflows when that is before 0001-01-01 |
| Dates.NextDayOfOrdinal | ccpayroll/models/pay_period.py:109 | the date with the next day number is the next day, and its weekday is one on |
| Dates.Strptime | ccpayroll/models/pay_period.py:100-101 | whatever `strptime` accepts is a real calendar date |
| Dates.ScanStrftime | ccpayroll/utils/__init__.py:24-25 | reading back what `strftime` printed recovers every field the format prints |
| Dates.IsoRoundTrip | ccpayroll/utils/__init__.py:40-41 | a date printed with `%Y-%m-%d` reads back as the same date |
| Dates.SlashedRoundTrip | ccpayroll/utils/__init__.py:24-25 | a date printed with `%m/%d/%Y` reads back as the same date |
| Dates.ShortSlashedRoundTrip | ccpayroll/models/pay_period.py:119 | a date printed with `%m/%d/%y` reads back as the same date when its year is in 1969-2068 |
| Dates.ShortYearShifted | ccpayroll/models/pay_period.py:119 | outside 1969-2068 the two-digit year reads back as a different date |
| Dates.ScanShortYearWindow | compute_payroll_index.py:35 | a date read with a two-digit year always lies in 1969-2068 |
| Utils.RoundHalfEven | ccpayroll/utils/__init__.py:11 | rounding to the nearest integer, within one half, whole numbers unchanged |
| Utils.NatToStringValue | ccpayroll/utils/__init__.py:11 | the printed digits of a whole number denote that number |
| Utils.Cents | ccpayroll/utils/__init__.py:11 | the cents printed are the magnitude rounded to within half a cent, and exact for amounts in whole cents |
| Utils.FormatCurrency | ccpayroll/utils/__init__.py:9-11 | `$`, a minus exactly for negative amounts, whole dollars, a point and two cent digits |
| Utils.CurrencyRoundTrip | ccpayroll/utils/__init__.py:9-11 | the printed amount reads back within half a cent of the value, and exactly for whole cents |
| Utils.FormatDate | ccpayroll/utils/__init__.py:13-27 | a YYYY-MM-DD date is reprinted as MM/DD/YYYY denoting the same date; anything else is returned unchanged |
| Utils.ParseDate | ccpayroll/utils/__init__.py:29-43 | an MM/DD/YYYY date is reprinted as YYYY-MM-DD denoting the same date; anything else is returned unchanged |
| Utils.PaddedSlashedNotIso | ccpayroll/utils/__init__.py:23-27 | a zero-padded MM/DD/YYYY string is never read as a YYYY-MM-DD date |
| Utils.PaddedSlashedDate | ccpayroll/utils/__init__.py:39-41 | the date read from a zero-padded MM/DD/YYYY string prints as that string |
| Utils.FormatParseRoundTrip | ccpayroll/utils/__init__.py:13-43 | formatting what was parsed gives back every zero-padded MM/DD/YYYY string, valid date or not |
| Utils.PayPeriodWindow | ccpayroll/utils/__init__.py:62-68 | the end is the reference moved back `(weekday + 2) % 7` days, the start 13 days before it, failing exactly when that is before 0001-01-01 |
| Utils.PayPeriodWindowWeekdays | ccpayroll/utils/__init__.py:62-68 | the window ends on the most recent Saturday, within six days of the reference, and starts on a Sunday |
| Utils.ReferenceDate | ccpayroll/utils/__init__.py:57-60 | a non-empty reference is parsed as `%Y-%m-%d`; an absent or empty one means today |
| Utils.GeneratePayPeriodDates | ccpayroll/utils/__init__.py:45-70 | succeeds exactly when the reference parses and its window exists; the two strings are canonical YYYY-MM-DD dates, a Sunday and the Saturday 13 days later, that Saturday being the latest one on or before the reference |
| Utils.WindowStrings | ccpayroll/utils/__init__.py:70 | the printed window dates parse back to the window, with its weekday facts |
| App.AfterLastDotAt | app.py:32 | `rsplit('.', 1)[1]` is the text after the last '.' |
| App.AfterLastDotNone | app.py:32 | a name without '.' has no extension |
| App.AllowedFileIff | app.py:31-32 | a file is allowed exactly when it has a '.' and the text after the last '.', lower-cased, is `xlsx` or `xls` |
| App.ValuesOf | app.py:316-317 | the set of a key's values is exactly the values the records hold |
| App.Without | app.py:256-258 | the filtered list keeps exactly the records whose value differs, and only records of the list |
| App.WithoutAbsent | app.py:256-258 | deleting an id no record has leaves the list as it was |
| App.FirstWith | app.py:409 | `next(...)` finds a record with the value exactly when one exists |
| App.BlankSlot | app.py:397-401 | a new slot holds the weekday name and empty hours and pay |
| App.DayNameOf | app.py:396 | the weekday name exists exactly when the day parses as YYYY-MM-DD |
| App.PeriodDays | app.py:308-313 | one YYYY-MM-DD day per day number from start to end inclusive, none when start is after end; fails exactly when the loop steps past 9999-12-31 |
| App.BlankRow | app.py:318-324 | the inner loop builds the day row: each day mapped to its blank slot |
| App.DayRowIs | app.py:318-324 | a map holding exactly the days, each with its blank slot, is the day row |
| App.BlankTimesheet | app.py:315-324 | the timesheet has a row for exactly the employees' names, each the day row |
| App.RateOf | app.py:409-411 | the rate is that of the FIRST employee with the name: its `float()` value when the rate is present and truthy, None when it is missing or falsy, and None when no employee has the name |
| App.NewPay | app.py:406-416 | a pay is written exactly when the field is non-empty hours, the hours convert and the employee has a converting rate |
| App.DayRowOfPeriod | app.py:308-324 | the day row holds exactly the period's days, each with its own weekday name |
| App.NewTimesheet | app.py:301-324 | the new timesheet is the blank grid of the period for every employee, or fails exactly at the 9999-12-31 overflow |
| App.CheckPeriodForm | app.py:271-291 | refused for a missing date, for a date strptime rejects, and for a name some period has; accepted dates are the parsed ones and their name is new |
| App.NewPeriodRecord | app.py:293-300 | the saved record holds the new id, the `%m.%d.%y to %m.%d.%y` name and the dates as YYYY-MM-DD |
| App.AppendRecord | app.py:293-300 | appending a record with a new name keeps the names distinct |
| App.SlotBefore | app.py:391-401 | the slot update starts from: the existing one, else a blank one for the day's weekday, else failure when the day does not parse |
| App.UpdatedSlot | app.py:403-416 | the field holds the value unless the pay overwrote it, the pay holds the computed pay, and every other entry is kept |
| App.Put | app.py:391-404 | writing one slot creates the employee's row when missing and keeps every other employee and every other day |
| App.JsonStore.constructor | app.py:34-53 | an empty data folder holds no periods, employees or timesheets |
| App.JsonStore.AddEmployee | app.py:199-223 | refused exactly for an empty name or a name already present; otherwise the record with the fresh id is appended; nothing else changes and names stay distinct |
| App.JsonStore.DeleteEmployee | app.py:255-262 | the employees become exactly those whose id differs; periods and timesheets are untouched |
| App.JsonStore.DeletePayPeriod | app.py:333-345 | the periods become exactly those whose id differs, and the period's timesheet file is gone; employees are untouched |
| App.JsonStore.SaveNewPeriod | app.py:292-326 | the period record is appended; the new timesheet is the period's blank grid and no other timesheet changes, unless the day loop overflows |
| App.JsonStore.AppendPeriod | app.py:293-302 | the periods gain exactly the record, names stay distinct, nothing else changes |
| App.JsonStore.StoreTimesheet | app.py:69-72 | the period's timesheet file now holds the grid and nothing else changes |
| App.JsonStore.AddPayPeriod | app.py:270-331 | a refused form saves nothing; an accepted one appends the period and writes its blank timesheet; period names stay distinct |
| App.JsonStore.UpdateTimesheet | app.py:379-422 | refused exactly for an empty employee, day or field, changing nothing; otherwise only the (employee, day) slot of the period changes, taking the value and the recomputed pay |
| Report.SlotPay | app.py:103-109 | a day adds its pay exactly when `pay` is set, non-empty and converts with `float()`; otherwise 0 |
| Report.EmployeePeriodTotal | app.py:97-109 | the loop over an employee's days totals the pay of the days in the period's timesheet, 0 without a row |
| Report.EmployeeWithoutPay | app.py:97-109 | an employee with no row, or whose days carry no usable pay, totals 0 in the period |
| Report.Only | app.py:79-81 | the filter keeps exactly the records holding the value |
| Report.PeriodsToProcess | app.py:79-84 | with a period id, exactly the periods with that id; without one, every period in order |
| Report.ActiveNames | app.py:131 | the active list holds exactly the employee names whose total is above 0, no longer than the employee list (its order is the next row) |
| Report.ActiveNamesInOrder | app.py:131 | the active list is the order-preserving filter of the employee list: the names at the strictly increasing positions of exactly the employees whose total is above 0 |
| Report.AccumulatedStart | app.py:87-89 | before any period each name totals 0 with an empty list, and there are no period totals |
| Report.AccumulateStep | app.py:91-124 | one more period adds each name's amounts to its total and its items to its list, and sets the period's data under its name |
| Report.PeriodTableStep | app.py:123-124 | one more period stores its data under its name |
| Report.RowStep | app.py:96-121 | one more employee adds their amount to the name's total and the period total, writes it under their name in the period data, and adds one item to the name's list |
| Report.RowAppend | app.py:96-121 | the same step, stated for a record appended to the ones already processed |
| Report.NameStep | app.py:113-117 | the running total and list of a name change only through records with that name |
| Report.RowGrows | app.py:113-121 | what one more employee record adds to a name's share, to its items and to the period's sums |
| Report.ProcessPeriod | app.py:91-124 | the inner loop over the employees leaves every name's total and list grown by the period, and returns the period's data: one map written as 'period', then each employee's amount under their name, then 'total' |
| Report.AccumulatePeriod | app.py:91-124 | one period of the outer loop adds its amounts to the running totals and lists of every name and returns its data |
| Report.AccumulatePeriods | app.py:86-124 | after the loop every name's total is the sum of its amounts over the periods, its list one item per period and record, and the period table holds each period's data |
| Report.GenerateReport | app.py:74-184 | the report's totals, lists, period table and active names are those of the periods processed, over all employee names, and the processed list is those periods' names in order |
| Report.NamesOf | app.py:184 | `periods_processed` holds each processed period's name, in order |
| Report.SingleRecordRow | app.py:113-121 | with distinct names, a name's share of a period is its one record's amount |
| Report.NameTotalDistinct | app.py:113 | with distinct names, an employee's total is the sum of their own amounts over the periods |
| Report.EntriesDistinct | app.py:114-117 | with distinct names, an employee's list has exactly one item per processed period, in period order, holding that period's name and pay |
| Report.PeriodDataDistinct | app.py:119 | with distinct names, a period's data holds each employee's own amount under their name, except for an employee named 'total' |
| Report.PeriodDataTotal | app.py:122 | 'total' always holds the period's total, so an employee named 'total' loses their amount |
| Report.PeriodDataName | app.py:97 | 'period' holds the period's name unless an employee is named 'period', and then the last such employee's amount |
| Report.RowDataName | app.py:97-119 | the same for the data before the total is written |
| Report.LastNamedPeriod | app.py:97-119 | the last employee named 'period' has their amount under that key |
| Report.DataKeys | app.py:97-122 | a period's data is keyed by exactly 'period', 'total' and the employee names |
| Report.RowDataKeys | app.py:97-119 | before the total, the keys are 'period' and the employee names |
| Report.PeriodTableLast | app.py:123-124 | the period table holds under a name the data of the last period with that name |
| Report.PeriodTableKeys | app.py:124 | the period table holds exactly the processed periods' names |
| Report.GrandTotals | app.py:96-124 | with distinct names, the employee totals and the 'total' entries of the period data add up to the same amount |
| Report.NoPayNoTotal | app.py:87-113 | a name with no usable pay in any processed period totals 0 |
| PayrollIndex.DigitRun | compute_payroll_index.py:13 | `\d+` stays inside the text |
| PayrollIndex.DigitRunSpec | compute_payroll_index.py:13 | `\d+` takes the longest run of digits |
| PayrollIndex.SpaceRun | compute_payroll_index.py:13 | `\s+` stays inside the text |
| PayrollIndex.SpaceRunSpec | compute_payroll_index.py:13 | `\s+` takes the longest run of whitespace |
| PayrollIndex.TripleAt | compute_payroll_index.py:13 | a `\d+\.\d+\.\d+` group that matches is non-empty and inside the text |
| PayrollIndex.FirstMatch | compute_payroll_index.py:13 | `re.search` fails exactly when the pattern matches at no position, and otherwise finds the leftmost one |
| PayrollIndex.MatchAtBounds | compute_payroll_index.py:13-15 | the two groups of a match are non-empty, in order and inside the text |
| PayrollIndex.DigitRunExact | compute_payroll_index.py:13 | a maximal run of digits is what `\d+` takes |
| PayrollIndex.SpaceRunExact | compute_payroll_index.py:13 | a maximal run of whitespace is what `\s+` takes |
| PayrollIndex.TripleAtSound | compute_payroll_index.py:13 | what the group matcher takes is digits, dot, digits, dot, digits, not followed by a digit |
| PayrollIndex.TripleAtComplete | compute_payroll_index.py:13 | wherever a digit.digit.digit text starts, the group matcher matches at least that much |
| PayrollIndex.MatchAtSound | compute_payroll_index.py:13 | a match is two dotted triples separated by whitespace, `to` in any case, whitespace |
| PayrollIndex.MatchAtComplete | compute_payroll_index.py:13 | every occurrence of the pattern is found by the matcher at its start, with the same first group and separator |
| PayrollIndex.SeparatorComplete | compute_payroll_index.py:13 | whitespace, `to` in any case and whitespace are taken as the separator |
| PayrollIndex.ExtractDateRangeSpec | compute_payroll_index.py:11-17 | no range exactly when the pattern occurs nowhere in the name; otherwise the two groups of its leftmost occurrence, the second taken whole |
| PayrollIndex.SheetStart | compute_payroll_index.py:31-38 | the sort key is a real date, and 2025-01-01 for a name without a range |
| PayrollIndex.Drop | compute_payroll_index.py:28 | dropping the template sheet removes every copy of it and keeps every other name as often as before |
| PayrollIndex.InsertByPerm | compute_payroll_index.py:40 | inserting one name into the sorted list adds exactly that name |
| PayrollIndex.InsertBySorted | compute_payroll_index.py:40 | inserting into a list sorted by the key keeps it sorted |
| PayrollIndex.InsertByStable | compute_payroll_index.py:40 | the inserted name goes after every name with the same key |
| PayrollIndex.WithKeyAppend | compute_payroll_index.py:40 | the names with one key in a joined list are those of the first part, then those of the second |
| PayrollIndex.WithKeyNone | compute_payroll_index.py:40 | a list with no name of a key has none with it |
| PayrollIndex.SortByFacts | compute_payroll_index.py:40 | `list.sort(key=...)` gives a sorted permutation that keeps names with equal keys in their order |
| PayrollIndex.SheetOrderSpec | compute_payroll_index.py:28-40 | the sheets processed are every sheet but the template, each as often as it occurs, sorted by start date, ties in workbook order |
| PayrollIndex.UpperFixed | compute_payroll_index.py:53 | a text equals its upper-case form exactly when it has no lower-case letter |
| PayrollIndex.NamePredicates | compute_payroll_index.py:53-91 | a cell is an employee name exactly when its stripped text has no lower-case letter, is longer than 3 and is no weekday, header or sheet title; every name ends a block, and no weekday is a name |
| PayrollIndex.ScanAdvance | compute_payroll_index.py:86-93 | scanning one more row is one more step of the scan |
| PayrollIndex.CollectEmployeeRows | compute_payroll_index.py:82-93 | the loop collects the rows the block scan collects |
| PayrollIndex.FoundSpec | compute_payroll_index.py:86-93 | the block is open after the rows exactly when some row names the employee and no later row is another name |
| PayrollIndex.CollectedSpec | compute_payroll_index.py:86-93 | a row is collected exactly when it is a weekday row reached while the block is open |
| PayrollIndex.AbsentEmployee | compute_payroll_index.py:86-93 | an employee named in no row has no rows collected |
| PayrollIndex.PayColumnFrom | compute_payroll_index.py:70-74 | the pay column is the first header containing `PAY` in any case, and there is none exactly when no header does |
| PayrollIndex.FindPayColumn | compute_payroll_index.py:70-74 | the loop finds the first column whose header contains `PAY` |
| PayrollIndex.CellPay | compute_payroll_index.py:98-103 | blank and empty cells add 0, numbers add themselves, text adds what `float()` reads from it or 0 |
| PayrollIndex.SumPayCells | compute_payroll_index.py:96-103 | the loop sums the pay cells of the collected rows |
| PayrollIndex.ProcessedSpec | compute_payroll_index.py:76-78 | a sheet is processed exactly when it has a pay column |
| PayrollIndex.NamesInSheetsSpec | compute_payroll_index.py:47-54 | a name is collected exactly when some row of some sheet holds it |
| PayrollIndex.NamesInRowsSpec | compute_payroll_index.py:52-54 | a name is collected from a sheet exactly when some row holds it |
| PayrollIndex.FindEmployees | compute_payroll_index.py:47-54 | the first pass collects every employee name of every sheet |
| PayrollIndex.PaysOfSpec | compute_payroll_index.py:107-111 | an employee's list has one entry per processed sheet, in order, with the sheet's name and the employee's pay there |
| PayrollIndex.TotalIsNoName | compute_payroll_index.py:116 | no employee is called `Total`, so the period total does not overwrite an employee's pay |
| PayrollIndex.RowNameNotTotal | compute_payroll_index.py:116 | no first-column cell reads as an employee called `Total` |
| PayrollIndex.SheetDone | compute_payroll_index.py:80-117 | after every employee, each list has the sheet's entry appended and the period data holds every pay and their sum |
| PayrollIndex.EmployeePay | compute_payroll_index.py:81-103 | one employee's pay in a sheet is the sum of the pay cells of their collected rows |
| PayrollIndex.SumSetGrow | compute_payroll_index.py:114 | adding one more employee's pay adds it to the period total |
| PayrollIndex.SheetStep | compute_payroll_index.py:81-114 | one more employee appends their entry, records their pay and adds it to the period total |
| PayrollIndex.ProcessSheet | compute_payroll_index.py:80-117 | processing a sheet appends each employee's pay there to their list and returns each pay with their sum under `Total` |
| PayrollIndex.ProcessedStep | compute_payroll_index.py:76-78 | one more sheet is processed exactly when it has a pay column |
| PayrollIndex.PaysOfStep | compute_payroll_index.py:108-111 | one more processed sheet appends one entry to each list |
| PayrollIndex.PayPass | compute_payroll_index.py:62-117 | the second pass gives every employee one entry per processed sheet and every processed sheet, and only those, its period data |
| PayrollIndex.PaysGrow | compute_payroll_index.py:62-117 | one more sheet adds one entry when it has a pay column and none otherwise |
| PayrollIndex.EmployeeTotals | compute_payroll_index.py:124-127 | every employee's total is the sum of their entries |
| PayrollIndex.ComputeIndices | compute_payroll_index.py:42-127 | the employees are the names of every sheet, with their lists of pays, their totals, and the period data of exactly the processed sheets |
| PayrollIndex.PaysOfSum | compute_payroll_index.py:126 | summing an employee's entries is summing their pay over the processed sheets |
| PayrollIndex.GrandTotal | compute_payroll_index.py:113-127 | the periods' totals and the employees' totals add up to the same amount |
| PayrollIndex.AbsentEverywhere | compute_payroll_index.py:86-127 | an employee named in no sheet totals 0 |
| PayrollIndex.IndexSetAppend | compute_payroll_index.py:175-178 | reporting one more change adds its position |
| PayrollIndex.ChangeIndex | compute_payroll_index.py:166-178 | a change is reported exactly for each pair of consecutive positive pays, in order, as the percentage of the earlier |
| PayrollIndex.ChangeSign | compute_payroll_index.py:177 | a change is positive exactly when the pay rose, and zero exactly when it stayed |

## Left out

- The PostgreSQL branches of `init_db`, `get_db` and `ccpayroll/database/migration.py`, and the SQL text itself. Tables are maps with the constraints the SQLite schema declares, and where a file branches on the dialect the SQLite branch is the one modelled. `ccpayroll/models/timesheet_entry.py` has no branch and uses SQLite's `?` placeholder throughout. `ccpayroll/models/pay_period.py` has no branch either (see `PayPeriods.Delete`).
- PayPeriods.Delete: models the intended effect of the statements of `delete()`, whatever the dialect. Every statement of `ccpayroll/models/pay_period.py` uses the PostgreSQL `%s` placeholder, which is a syntax error on the plain `sqlite3` connection `get_db` opens for a SQLite URL. On SQLite, `delete()` therefore always rolls back and raises "Failed to delete pay period", where the model removes the period and its rows.
- Connection management: the thread-local connections, `close_db`, `monitor_db_connections` and `ccpayroll/database/pg_adapter.py`. These concern concurrency and resources, not the data.
- Flask routing, templates, `flash`, redirects and request parsing. Each route is modelled by what it does to the data files.
- `edit_employee`, the read-only `timesheet` view, `import_data` and `export_data` in `app.py`. Of `import_data`, the name predicate, the PAY column search and the block scan are modelled (they are the script's, `PayrollIndex`); the Excel reading and writing are not.
- Excel and pandas I/O. A sheet is given as its rows of cells (blank, text or number). A row shorter than the pay column counts as a blank pay cell.
- The charts of `generate_report` and of the payroll-index script. The report id, which only names the chart files, is left out with them.
- The trend and relative-pay indices of the payroll-index script. They are only printed, from floating-point ratios. Of the change index, the guard and the percentage are modelled.
- `ccpayroll/reports/__init__.py` (PDF and CSV export) and the routes under `ccpayroll/routes/`. They are not part of this model.
- Floating point. Amounts are exact reals, so rounding of float sums and the text `str()` gives a float are not modelled beyond the `Conversions` parameters.
- Text is ASCII-minded. `upper()`, `lower()`, `strip()` and the regex classes `\d` and `\s` act on ASCII letters, digits and whitespace only.
- `Dates.Strftime`: `%Y` is written with four digits. The C library Python uses on Linux does not pad years below 1000.
- `Dates.Strptime` handles only the formats the application uses (`%Y-%m-%d`, `%m/%d/%Y`, `%m/%d/%y`, `%m.%d.%y`), with their field rules.
- Python `int` and `float` overflow and the `timedelta` range checks other than stepping past 9999-12-31 or before 0001-01-01.
- PayrollIndex.ComputeIndices: takes the sheets in the order they are processed (`SheetOrder` gives that order). It requires distinct sheet names, as a workbook has, and at least two rows per sheet, where the script raises on `df.iloc[1]`.
- PayrollIndex.PayPass: same two requirements as `ComputeIndices`.
- Migration.PeriodIdOfFileName: stated for ids without `_` or `.`, as generated ids are. Other ids can be cut short by the two `replace` calls.
- Migration.UpsertPeriod: a NULL id is reported as a failure. SQLite accepts NULL in a TEXT PRIMARY KEY without NOT NULL and adds a new keyless row each time; the model's table, a map keyed by id, has no place for such rows.
- Migration.SavePayPeriod: inherits the NULL-id gap of `UpsertPeriod`.
- Migration.UpsertEmployee: a NULL id is reported as a failure. SQLite would insert a keyless row, and would first delete an existing row with the same name (the UNIQUE name conflict).
- Migration.SaveEmployee: inherits the NULL-id gap of `UpsertEmployee`.
- SQLite column affinity. Keys, names and ids are compared as the decoded values, not after the TEXT, INTEGER or REAL affinity of their column converts them. Where SQLite stores the number 5 in a TEXT column as the text '5', the model keeps `5` and `"5"` apart.
- Migration.UpsertEmployee: by that affinity, employees named `5` and `"5"` clash on the UNIQUE name in SQLite, and the second save deletes the first row; the model keeps both. Ids `1` and `"1"` clash the same way under `id TEXT PRIMARY KEY`.
- Migration.UpsertPeriod: ids `1` and `"1"` are two rows in the model but one key in SQLite's `id TEXT PRIMARY KEY`.
- TimesheetEntries.TimesheetEntry.Update: only an integer id names a row (`RowIdOf`). SQLite's `WHERE id = ?` also matches the text '5' or the real 5.0 against row 5.
- TimesheetEntries.TimesheetEntry.Save: inherits the integer-id rule of `Update`.
- Schema.SqliteDatabase.InitDb: the rebuild copies legacy values as they are, and tests NOT NULL, UNIQUE and PRIMARY KEY on the decoded values, without the affinity conversions of `employees_new`.
- Migration.SaveTimesheetEntry: an UPDATE whose field is `id` (the INTEGER PRIMARY KEY, which the table's map keys hold) or any text that is not a plain column name is reported as a failure; SQLite would move the row or run the text as SQL.
- Migration.MigrateJsonToDb: the decoded JSON is taken to be a list of objects (a timesheet file a nested object); another shape makes Python raise and is modelled only as an unreadable file.
- Report.GrandTotals: shown for distinct employee names only. It sums the totals over the employee records, and that sum counts a repeated name once per record.
- The queries and saves of the model classes not named in the table: `Employee.get_all`, `get_by_id`, `get_by_name`, `save` and `delete`; `PayPeriod.get_all`, `get_by_id` and `save`; `TimesheetEntry.get_by_period_and_employee` and `get_by_date`. They are single SQL statements on the same tables, like those modelled.
- `migrate_database`, `get_db_url` and `init_app`: environment lookups and Flask hooks.
