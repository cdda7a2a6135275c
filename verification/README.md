# Document registry core: request builders, settings and window logic

This project models the parts of the document registry (`edrms`) that hold
real logic, and proves properties of them in Dafny:

- the document store's request builders (`database/db_manager.py`):
  - the filtered listing query of `get_all_documents`;
  - the whitelisted `INSERT` of `add_document` and its whitelist `_is_valid_column`;
  - the row-to-dictionary mapper `dict_factory`;
  - the columns of the `documents` table, and which of them are NOT NULL without a default.

  The model produces the SQL text and the parameter list that these functions
  hand to SQLite. SQLite itself is not modelled.
- the configuration manager (`config/config.py`): an in-memory settings
  dictionary. It has a read with a fallback default, a single-key write, a
  merge, and a fixed default dictionary used when the file yields nothing.
  Every change is written back to the file.
- the login dialog's password check and the main window's font-size buttons
  (`main.py`).

Modules: `Wrappers` (optional values), `PyValues` (the Python values that are
stored), `SqlText` (counting `?` markers, substrings, `str.join`), `DbManager`,
`Config` and `App`. `ConfigManager`, `LoginWindow` and `MainWindow` are classes.
Their methods change fields in place and carry `modifies` clauses. The store's
builders are methods with real out-parameters. The loops of `dict_factory` and
`add_document` are `while` loops with invariants.

The repository's design describes more than its code implements: per-category
validation, serial-number allocation, a handling-status lifecycle, an audit log
and keyword search. None of these exist in the source. The insert accepts any
whitelisted column of the one wide table, and the toolbar actions only show a
message. The model follows the code.

## Model

| member | source | states |
|---|---|---|
| `DbManager.WhitelistIsDataColumns` | database/db_manager.py:175-190 | a name passes `_is_valid_column` iff it is one of the 49 columns of `CREATE TABLE documents` (lines 23-72) other than `id`, `created_at` and `updated_at`; unknown names are rejected |
| `DbManager.ValidColumnFacts` | database/db_manager.py:175-190 | every whitelisted name is a column of the table other than `id` and the timestamps, and holds no `?` |
| `DbManager.RequiredColumnsAreWhitelisted` | database/db_manager.py:23-72 | the NOT NULL columns without a default (`category`, `title`, `security_level`) are table columns and pass the whitelist |
| `DbManager.DictFactory` | database/db_manager.py:135-140 | the dictionary's keys are exactly the names in the cursor description; a name whose last occurrence is at position i maps to `row[i]`, so a later duplicate overwrites an earlier one |
| `DbManager.GetAllDocuments` | database/db_manager.py:142-157 | the query starts with `SELECT * FROM documents WHERE 1=1` and ends with ` ORDER BY created_at DESC`. It contains ` AND category = ?` iff the category is truthy (neither `None` nor empty), and ` AND security_level = ?` iff the level is truthy. The text is exactly the head, the category clause if any, the level clause if any, and the tail, in that order. The parameters hold the category, then the level, one per truthy filter. The number of `?` equals the number of parameters |
| `DbManager.ListingQueryShape` | database/db_manager.py:144-155 | for every choice of optional clauses, the assembled query keeps its fixed head and tail, contains each clause iff it was appended, and holds one `?` per clause |
| `DbManager.ListingQueryMarkers` | database/db_manager.py:144-157 | the fixed fragments carry no `?` and each filter clause carries one, so the count of markers is the count of appended clauses |
| `DbManager.CollectColumns` | database/db_manager.py:162-170 | the loop's columns, values and placeholders have equal length. Columns and values are the keys and values of the items that pass the guard, in dictionary order. Every placeholder is `?`, and every kept column passes the whitelist |
| `DbManager.KeptItemsMembers` | database/db_manager.py:166-170 | an item is kept iff it is in the input and passes the guard (the helper attribute exists and the key is whitelisted) |
| `DbManager.KeptItemsWithoutHelper` | database/db_manager.py:167 | when the `_get_column_name` attribute is missing, no item is kept, whatever the input |
| `DbManager.KeptItemsOfWhitelisted` | database/db_manager.py:166-170 | with the attribute present, an input whose keys are all whitelisted is kept whole and in order |
| `DbManager.AddDocument` | database/db_manager.py:159-173 | as written, the statement is `INSERT INTO documents () VALUES ()` with no parameters, for every input |
| `DbManager.AsWrittenDropsRequiredColumns` | database/db_manager.py:166-168 | on an input holding exactly the three required columns, all whitelisted, the loop as written keeps nothing, while the guard without the attribute test keeps all three in order |
| `DbManager.AddDocumentIntended` | database/db_manager.py:159-173 | with the guard reduced to the whitelist: the statement lists the whitelisted keys in dictionary order, and the parameters are their values. An item is inserted iff its key is whitelisted. The whole statement holds exactly one `?` per parameter. An all-whitelisted input is inserted whole |
| `DbManager.InsertStatementMarkers` | database/db_manager.py:172 | an insert statement whose column names hold no `?` carries exactly one `?` per placeholder |
| `DbManager.JoinedMarkers` | database/db_manager.py:169-172 | the comma-joined placeholder list holds one `?` per placeholder |
| `Config.LoadedConfig` | config/config.py:15-53 | loading yields the file's dictionary when the file decodes, and the fixed default dictionary when it is missing or does not decode |
| `Config.DefaultSecrets` | config/config.py:25-50 | the default dictionary has `default_password = "123"`, `super_password = "admin123"` and `font_size = 12` |
| `Config.LookupAfterSet` | config/config.py:70-73 | after writing a key, reading it gives the written value; every other key reads as before |
| `Config.LookupAfterUpdate` | config/config.py:75-78 | after a merge, the update's keys read as the update and the others read as before; the keys are the union of old and new |
| `Config.WritesAreIdempotent` | config/config.py:70-78 | writing the same key twice equals writing it once; merging an empty dictionary changes nothing |
| `Config.ConfigManager.constructor` | config/config.py:10-13 | the in-memory settings are what loading yields. The defaults are written to the file only when the file yields nothing and writing succeeds |
| `Config.ConfigManager.LoadConfig` | config/config.py:15-53 | returns the file's dictionary or the defaults. In the second case the defaults are written out, if writing succeeds |
| `Config.ConfigManager.SaveConfig` | config/config.py:55-64 | writes the given settings, or the in-memory settings when given none; a failed write leaves the file as it was |
| `Config.ConfigManager.Get` | config/config.py:66-68 | returns the stored value when the key is present, otherwise the caller's default |
| `Config.ConfigManager.Set` | config/config.py:70-73 | the key now reads as the value, every other key is unchanged, and the file holds the full in-memory settings (when writing succeeds) |
| `Config.ConfigManager.Update` | config/config.py:75-78 | every key of the update reads as the update, all other keys are unchanged, new keys are added, and the file holds the full in-memory settings (when writing succeeds) |
| `App.DefaultLogin` | main.py:55-63 | with the default settings, a password is accepted iff it is `123` or `admin123` |
| `App.NoSecretNoLogin` | main.py:59 | when neither secret is stored as a string, no password is accepted |
| `App.LoginWindow.constructor` | main.py:14-53 | the dialog starts with an empty password field and is not yet accepted |
| `App.LoginWindow.Login` | main.py:55-63 | the dialog is accepted iff the entered password equals the stored `default_password` or `super_password`; on rejection, acceptance is unchanged and the field is cleared |
| `App.StepBounds` | main.py:265-281 | one press moves the size by at most one point. Shrinking happens iff the size is above 6. Growing happens iff the size is below 30 and the request is a positive size. A size within [6, 30] stays within it, and a positive size stays positive |
| `App.RunStaysInBounds` | main.py:265-281 | from a size within [6, 30], any sequence of presses keeps the size within [6, 30] |
| `App.RunKeepsMirror` | main.py:265-281 | for a font with a point size, settings that record the current size still record it after any sequence of presses |
| `App.PixelFontPresses` | main.py:274-281 | a pixel-sized font reports -1. No press changes it, `font_smaller` never acts, and once `font_larger` has been pressed the settings record 0 |
| `App.RunTouchesOnlyFontSize` | main.py:265-281 | presses change no settings entry other than `font_size` |
| `App.LargerThenSmaller` | main.py:265-281 | from a size in [6, 29], enlarging then shrinking restores the size and records it in the settings; settings that recorded the size come back unchanged |
| `App.MainWindow.constructor` | main.py:73-78 | the window keeps the settings object and starts with the platform's font size; the recorded `font_size` is not applied |
| `App.MainWindow.FontSmaller` | main.py:265-272 | above 6 the font is asked for one point less, `font_size` is set to that size, and the file is rewritten; otherwise size, settings and file are unchanged |
| `App.MainWindow.FontLarger` | main.py:274-281 | below 30 the font is asked for one point more, `font_size` is set to that size, and the file is rewritten; otherwise size, settings and file are unchanged. A request of 0 points, from a pixel-sized font, leaves the font as it is but is still recorded |

## Left out

- SQLite execution is not modelled: connections, `execute`, `commit`, `lastrowid`, and the `AUTOINCREMENT` and `CURRENT_TIMESTAMP` defaults (database/db_manager.py:16-133). SQLite is a foreign engine; only the statements and parameters handed to it are modelled. The `diary`, `operation_log` and `config` tables are created there and used nowhere else.
- `DictFactory` receives the column names of the cursor description, not the full 7-tuples; the code reads only the first entry of each tuple.
- `DictFactory` returns a Dafny `map`, which has no key order. A Python `dict` keeps the order in which keys are first inserted. No code in the core iterates over a row dictionary, so the order is not modelled.
- `PyValues.Value` compares values structurally. Python's cross-type equalities (`1 == 1.0 == True`) are not modelled. The only comparison in the core is a string against a stored value (the login check), where both agree.
- JSON reading and writing is not modelled (config/config.py:17-22, :60-64). The file is abstracted to `Missing`, `Unreadable` or the dictionary it decodes to; a write either succeeds or leaves the file as it was. A file that decodes to a JSON value other than an object is not modelled.
- The Qt widgets are not modelled: layouts, toolbar wiring, tabs, message boxes, the status bar and the application loop (main.py:1-53, :80-246, :283-307). This is UI. The warning box shown on a rejected password is left out. The font is reduced to the integer its `pointSize()` reports: -1 for a pixel-sized font. Of `setPointSize` only its rule is kept: a positive request sets the size, any other request is ignored.
- The toolbar handlers for adding, batch editing, printing, searching, advanced search and export (main.py:216-263) only show a message or clear a field. They hold no registry logic and are not modelled.
- `font_scale` (a float setting) is kept only as a default value. The module-level singletons `db_manager` and `config_manager` (database/db_manager.py:194, config/config.py:82) become objects passed to the windows.
- test_login_fix.py checks imports and class inheritance only; it has no behaviour to model.

## Findings

| source | as written | input that shows it | evidently intended | confidence | as-written member | corrected member |
|---|---|---|---|---|---|---|
| database/db_manager.py:167 | the insert loop keeps a key only if `hasattr(self, '_get_column_name')`, and `DatabaseManager` defines no such member, so every key is dropped | `{"category": "receive", "title": "T", "security_level": "internal"}` yields `INSERT INTO documents () VALUES ()` with no parameters. The three NOT NULL columns get no value, and an empty column list is not even valid SQLite syntax | keep every key that passes `_is_valid_column`, in dictionary order, with one `?` per value | high; not executed | `DbManager.AddDocument` (with `DbManager.AsWrittenDropsRequiredColumns`) | `DbManager.AddDocumentIntended` |
