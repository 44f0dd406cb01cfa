# querypie_hub in Dafny

A model of querypie_hub, a small admin console that registers users, servers and database connections with a QueryPie
instance through its external API. The model covers the row handling that sits between an uploaded CSV file and the
external API calls, and proves properties of it:

- **CSV readers.** The backend reader `CsvParser.parseCSV` (`backend/utils/csvParser.js`) is modelled as written. It
  has a quote-aware logical-line scanner and a quote-aware field scanner. The browser copy of that reader
  (`frontend/js/modules/userCSVHandler.js`, repeated in `frontend/js/userManager.js` and `frontend/js/script.js`)
  differs in line ends and blank lines. The naive `split('\n')`/`split(',')` reader of the database page, the server
  page and the legacy server `server_old.js` is modelled too.
- **Row projection and normalisation.** Users need e-mail, login id and name. Servers get an OS type normalised into
  six values, and the legacy `hostname`/`ip`/`port` columns only fill what is unset. Database rows get a database
  type and a cluster type from fixed lists.
- **Database group-by.** Rows that share a connection key become one connection. Each row adds one cluster, in
  input order.
- **Batch pages.** The user pages (the dashboard's user manager and the older `script.js` page) are classes holding
  the user array and the current page number. The database and server pages are classes holding their batches. Each
  operation that changes these arrays is a method: import, add and remove rows, clear, page moves, the sequential
  upload loop and the retry operations. Server answers come from an oracle sequence.
- **Backend proxy handlers.** `userController`, `serverController` and `databaseController` are modelled as
  functions from the request body, the Authorization header and the upstream result to the POST made and the answer
  sent. `server_old.js`'s upload routes and its bulk user route are modelled the same way.

Modules, one file each:

| module | file | models |
|---|---|---|
| `Text` | text.dfy | the JavaScript string helpers the code leans on: `trim`, `split`/`join`, `toLowerCase`/`toUpperCase` on ASCII, `parseInt`, BOM removal, `Math.ceil` of a division |
| `CsvParser` | csv_parser.dfy | `backend/utils/csvParser.js` |
| `FrontendCsv` | frontend_csv.dfy | `parseCSVData` of userCSVHandler.js, userManager.js and script.js |
| `NaiveCsv` | naive_csv.dfy | the `split` reader of databaseManager.js, serverManager.js and server_old.js |
| `Pagination` | pagination.dfy | page windows, page moves and page slices of userManager.js and script.js |
| `Dashboard` | dashboard.dfy | `DashboardApp` (frontend/js/app.js) and the e-mail de-duplicating merge of an import |
| `UserCsvHandler` | user_csv_handler.dfy | frontend/js/modules/userCSVHandler.js |
| `UserManager` | user_manager.dfy | frontend/js/userManager.js |
| `ScriptUsers` | script_users.dfy | the user page and `isValidIP` of frontend/js/script.js |
| `Submission` | submission.dfy | the upload and retry loops shared by databaseManager.js and serverManager.js |
| `DatabaseCsv` | database_csv.dfy | `parseCSVData` of frontend/js/databaseManager.js |
| `DatabaseManager` | database_manager.dfy | the batch operations of frontend/js/databaseManager.js |
| `ServerCsv` | server_csv.dfy | `parseCSVData` of frontend/js/serverManager.js |
| `ServerManager` | server_manager.dfy | the batch operations of frontend/js/serverManager.js |
| `LegacyServer` | legacy_server.dfy | `parseCSV`, the upload routes and the bulk user route of server_old.js |
| `ApiProxy` | api_proxy.dfy | JSON values as the controllers read them, `ApiClient.callExternalAPI`'s result, and the answers |
| `UserController` | user_controller.dfy | backend/controllers/userController.js |
| `ServerController` | server_controller.dfy | backend/controllers/serverController.js |
| `DatabaseController` | database_controller.dfy | backend/controllers/databaseController.js |

Behaviour of the code that the model keeps:

- `userManager.registerUsers` and `retryFailedUsers` wrap the whole loop in one `try`. So a thrown `fetch` or `json()`
  error stops the batch and leaves that row `processing`; failures are not isolated per row. `UserManager.Submit`
  records this as `aborted`.
- `userManager.importCSVFile` keeps the current page. `userCSVHandler.importCSVFile` resets it to 1.
- The dashboard renders every user: `userManager.updateUserTable` (frontend/js/userManager.js:249-291) walks all of
  `allUsers` and takes no slice. Its `usersPerPage` of 20 (frontend/js/app.js:6, `UsersPerPage`) only counts the
  pages and builds the page-number bar. `script.js` does slice its list, 50 users a page (`ScriptUsersPerPage`).
- The legacy bulk route (server_old.js:299-303) always answers `success: true`, whatever the counts.
- The server page's bulk-retry filter (frontend/js/serverManager.js:407-409) requires a `status` field. No import sets
  it, so no imported server is ever bulk-retried.

## Model

| member | source | states |
|---|---|---|
| `Text.StripBom` | backend/utils/csvParser.js:5-7 | one leading U+FEFF is removed and nothing else changes |
| `Text.TrimIdempotent` | backend/utils/csvParser.js:14 | trimming a trimmed text changes nothing |
| `Text.BlankIffAllSpace` | backend/utils/csvParser.js:69-71 | a line is blank after `trim()` exactly when every character is white space |
| `Text.SplitThenJoin` | frontend/js/databaseManager.js:106 | joining the pieces of `split(sep)` with `sep` gives back the text |
| `Text.JoinThenSplit` | frontend/js/databaseManager.js:106 | splitting a join of separator-free pieces gives back the pieces |
| `Text.ParseIntOr` | backend/controllers/serverController.js:68-70 | `parseInt(v) \|\| d` is the number the text starts with when it exists and is non-zero, and the fallback otherwise; never 0 with a non-zero fallback |
| `Text.NatToStringParses` | backend/controllers/serverController.js:66 | `parseInt` reads a number's decimal rendering back as that number |
| `Text.ParseIntOfHex` | backend/controllers/serverController.js:66 | `parseInt` without a radix reads `0x`/`0X` and a run of hexadecimal digits as that hexadecimal number |
| `Text.ParseIntOfBarePrefix` | backend/controllers/serverController.js:66 | `0x` followed by no hexadecimal digit is NaN, not the leading 0 |
| `Text.ParseIntNegated` | backend/controllers/serverController.js:66 | a leading minus sign is NaN exactly when the rest is, and otherwise negates what the rest reads as |
| `Text.CeilDiv` | frontend/js/userManager.js:234 | `Math.ceil(count / per)` is the least number of pages of `per` rows that holds `count` rows, and 0 only for no rows |
| `CsvParser.Emit` | backend/utils/csvParser.js:69-71 | a finished line is kept exactly when it is not blank after trimming |
| `CsvParser.ParseCSVLines` | backend/utils/csvParser.js:49-90 | the scanning loop yields the logical lines, and none holds a CR or is blank |
| `CsvParser.ScanLinesClean` | backend/utils/csvParser.js:69-87 | every line the scanner emits is free of CR and not blank |
| `CsvParser.LineStepQuotePair` | backend/utils/csvParser.js:58-62 | inside quotes `""` puts one `"` in the line |
| `CsvParser.LineStepToggle` | backend/utils/csvParser.js:63-66 | any other `"` toggles quoting and is dropped from the line |
| `CsvParser.LineStepLf` | backend/utils/csvParser.js:67-72 | a LF outside quotes ends the line |
| `CsvParser.LineStepCrLf` | backend/utils/csvParser.js:73-79 | a CR LF outside quotes ends the line as one break |
| `CsvParser.LineStepLoneCr` | backend/utils/csvParser.js:80-83 | a CR that does not start a line break outside quotes is dropped |
| `CsvParser.LineStepChar` | backend/utils/csvParser.js:81-83 | any other character, LF inside quotes included, is kept in the line |
| `CsvParser.NewlineInsideQuotes` | backend/utils/csvParser.js:67 | a LF between quotes stays inside one logical line |
| `CsvParser.QuotedTextStaysInLine` | backend/utils/csvParser.js:58-66 | a quoted, quote-escaped text reaches the line as the plain text, with the quotes gone |
| `CsvParser.EscapeOfQuoteFree` | backend/utils/csvParser.js:58-62 | escaping a text without quotes leaves it unchanged |
| `CsvParser.LinesRoundTrip` | backend/utils/csvParser.js:49-90 | plain lines joined by LF or CR LF are scanned back into those lines |
| `CsvParser.LogicalLinesOfJoin` | backend/utils/csvParser.js:49-90 | the logical lines of plain lines joined by LF or CR LF are those lines |
| `CsvParser.ScanFieldsCount` | backend/utils/csvParser.js:98-119 | the field scanner yields one more field than the commas it meets outside quotes |
| `CsvParser.ParseCSVLine` | backend/utils/csvParser.js:93-122 | the field loop yields the split fields, one more than the commas outside quotes, so never none |
| `CsvParser.FieldStepQuotePair` | backend/utils/csvParser.js:102-106 | inside quotes `""` puts one `"` in the field |
| `CsvParser.FieldStepToggle` | backend/utils/csvParser.js:107-109 | any other `"` toggles quoting and is dropped |
| `CsvParser.FieldStepComma` | backend/utils/csvParser.js:110-113 | a comma outside quotes ends the field |
| `CsvParser.FieldStepChar` | backend/utils/csvParser.js:114-116 | any other character, a comma inside quotes included, stays in the field |
| `CsvParser.QuotedFieldsRoundTrip` | backend/utils/csvParser.js:102-114 | fields each quoted with `"` doubled, joined by commas, scan back into the same fields, commas and quotes included |
| `CsvParser.SplitQuotedFields` | backend/utils/csvParser.js:102-114 | `parseCSVLine` of a line of quoted fields gives back the fields |
| `CsvParser.PlainFieldsRoundTrip` | backend/utils/csvParser.js:98-119 | fields without quotes and commas, joined by commas, scan back into the same fields |
| `CsvParser.SplitPlainFields` | backend/utils/csvParser.js:98-119 | `parseCSVLine` of such a line gives back the fields |
| `CsvParser.QuotedCommaLostByLineScanner` | backend/utils/csvParser.js:58-66 | the line scanner turns `"a,b"` into `a,b`, which the field scanner would have kept whole but now splits |
| `CsvParser.UnquotedPairSplits` | backend/utils/csvParser.js:110-113 | an unquoted comma separates two fields |
| `CsvParser.ColumnOf` | backend/utils/csvParser.js:24-35 | a header fills the login id exactly when it is `loginid` or `login_id` |
| `CsvParser.HeaderKeys` | backend/utils/csvParser.js:14 | each header is trimmed and lower-cased, in order |
| `CsvParser.LastIndex` | backend/utils/csvParser.js:21-37 | the column that decides a field is a column of that field, within the row |
| `CsvParser.LastIndexIsLast` | backend/utils/csvParser.js:21-37 | it is the last column of that field holding a non-empty value, so a later column overrides an earlier one |
| `CsvParser.LastValueStep` | backend/utils/csvParser.js:22-35 | one more column either sets the field to its trimmed value or leaves it |
| `CsvParser.LastValueTrimmed` | backend/utils/csvParser.js:23 | every projected field is trimmed |
| `CsvParser.ProjectRow` | backend/utils/csvParser.js:21-37 | the column loop yields e-mail, login id and name as the last non-empty matching columns |
| `CsvParser.Assign` | backend/utils/csvParser.js:22-35 | one column sets exactly the field its header names, to the trimmed value |
| `CsvParser.RowUserComplete` | backend/utils/csvParser.js:39-41 | a row gives a user only when e-mail, login id and name are all non-empty |
| `CsvParser.UsersOfComplete` | backend/utils/csvParser.js:17-43 | the rows give at most one user each, every one complete |
| `CsvParser.UsersOfLast` | backend/utils/csvParser.js:17-43 | users come out in row order: one more row adds its user, if any, at the end |
| `CsvParser.CollectUsers` | backend/utils/csvParser.js:17-43 | the row loop yields the users of the rows, in order |
| `CsvParser.ParseCSV` | backend/utils/csvParser.js:3-46 | the parser yields the file's users, every one with non-empty e-mail, login id and name |
| `CsvParser.ParsedUsersComplete` | backend/utils/csvParser.js:5-11 | every parsed user is complete, and a file of fewer than two logical lines gives none |
| `CsvParser.HeaderLineFields` | backend/utils/csvParser.js:14 | the header line `email,loginId,name` reads as the keys `email`, `loginid`, `name` |
| `CsvParser.ProjectRenderedRow` | backend/utils/csvParser.js:21-37 | under those headers a row's three values become e-mail, login id and name |
| `CsvParser.RowOfPlainUser` | backend/utils/csvParser.js:17-43 | a user with plain values, written as a row, is read back as that user |
| `CsvParser.UsersOfRendered` | backend/utils/csvParser.js:17-43 | such users written as rows are read back as the same users, in order |
| `CsvParser.ParseRenderedUsers` | backend/utils/csvParser.js:3-46 | a file of a header and such users parses back into those users |
| `FrontendCsv.SplitRawLines` | frontend/js/modules/userCSVHandler.js:79-100 | the browser's line loop yields its raw lines |
| `FrontendCsv.ParseCSVData` | frontend/js/modules/userCSVHandler.js:73-138 | the browser parser yields the file's users |
| `FrontendCsv.ReadUsers` | frontend/js/modules/userCSVHandler.js:102-137 | the row loop yields the users of the lines, in order |
| `FrontendCsv.BrowserParsedUsersComplete` | frontend/js/modules/userCSVHandler.js:100-133 | fewer than two lines give no users, and every user has e-mail, login id and name |
| `FrontendCsv.RawLinesRoundTrip` | frontend/js/modules/userCSVHandler.js:79-100 | plain lines joined by LF are scanned back into those lines |
| `FrontendCsv.RawLinesOfJoin` | frontend/js/modules/userCSVHandler.js:79-100 | the raw lines of plain lines joined by LF are those lines |
| `FrontendCsv.CrLfLineEnds` | frontend/js/modules/userCSVHandler.js:92-97 | on CR LF the browser keeps the CR at the end of the line, and the backend drops it |
| `FrontendCsv.SpaceLineBetween` | frontend/js/modules/userCSVHandler.js:92-100 | the browser keeps a line of spaces, and the backend drops it |
| `FrontendCsv.BackendDropsBlank` | backend/utils/csvParser.js:69-77 | the backend drops every blank line between two lines |
| `FrontendCsv.RenderedRawLines` | frontend/js/modules/userCSVHandler.js:79-100 | a rendered user file splits into its header line and one line per user |
| `FrontendCsv.BrowserParseRenderedUsers` | frontend/js/modules/userCSVHandler.js:73-138 | the browser parses a rendered file of plain users back into those users |
| `NaiveCsv.NonBlank` | frontend/js/databaseManager.js:106 | the kept lines are exactly the non-blank ones |
| `NaiveCsv.NaiveCells` | frontend/js/databaseManager.js:114 | a row always has at least one cell |
| `NaiveCsv.NaiveHeaders` | frontend/js/databaseManager.js:107 | there is one header per comma-separated piece |
| `NaiveCsv.NaiveLinesShape` | frontend/js/serverManager.js:106 | every kept line is non-blank and has no LF |
| `NaiveCsv.NaiveLinesOfJoin` | frontend/js/databaseManager.js:106 | lines joined by LF come back as the non-blank ones |
| `NaiveCsv.NaiveLinesRoundTrip` | frontend/js/databaseManager.js:106 | non-blank lines joined by LF come back unchanged |
| `NaiveCsv.NaiveCellsOfJoin` | frontend/js/databaseManager.js:114 | plain cells joined by commas come back unchanged |
| `NaiveCsv.QuotedCommaSplits` | frontend/js/databaseManager.js:114 | a quoted comma still splits the cell, quotes kept |
| `NaiveCsv.TwoCells` | frontend/js/serverManager.js:113 | two plain cells joined by a comma read as those two cells |
| `Pagination.WindowBounds` | frontend/js/userManager.js:372-373 | the page window stays within 1..total, holds at most `span + 1` pages, and holds the current page when that is valid |
| `Pagination.ManagerWindowBounds` | frontend/js/userManager.js:372-373 | the dashboard window holds at most 7 pages, within 1..total, including the current one |
| `Pagination.ScriptWindowBounds` | frontend/js/script.js:701-702 | the script page's window holds at most 5 pages, within 1..total, including the current one |
| `Pagination.ManagerWindowShrinksAtEnd` | frontend/js/userManager.js:372-373 | on the last of 10 pages the window is 7..10, only 4 pages |
| `Pagination.ManagerPages` | frontend/js/userManager.js:376-415 | the bar shows page 1 if the window starts later, the window, and the last page if the window ends earlier |
| `Pagination.ManagerLinksShape` | frontend/js/userManager.js:376-415 | the numbers run strictly upwards from 1 to the last page and include the current page |
| `Pagination.ManagerLinksActive` | frontend/js/userManager.js:394 | only the current page's link is active |
| `Pagination.BuildManagerLinks` | frontend/js/userManager.js:376-415 | the link loop builds the bar the specification function describes |
| `Pagination.PageAfter` | frontend/js/userManager.js:427-446 | a move lands on the target exactly when it lies in 1..total, and otherwise stays |
| `Pagination.ButtonsMatchMoves` | frontend/js/userManager.js:418-424 | the previous and next buttons are enabled exactly when their move would change the page |
| `Pagination.SliceIndex` | frontend/js/script.js:625 | `slice` clamps an index past the end to the length |
| `Pagination.PageStartPastEnd` | frontend/js/script.js:623-625 | a page starts past the rows exactly when it is beyond the page count |
| `Pagination.PageRowsSpan` | frontend/js/script.js:623-625 | a page holds at most `per` rows, the rows `(cur-1)*per` up to `cur*per`, and is empty exactly past the last page |
| `Pagination.RowOnItsPage` | frontend/js/script.js:623-625 | row `i` is shown on page `i / per + 1`, at position `i % per` |
| `Dashboard.FreshUsers` | frontend/js/modules/userCSVHandler.js:51 | the kept users are exactly the parsed users whose e-mail is not known |
| `Dashboard.FreshUsersAppend` | frontend/js/modules/userCSVHandler.js:51 | the filter keeps order: filtering two parts is filtering each |
| `Dashboard.FreshUsersAllNew` | frontend/js/modules/userCSVHandler.js:51 | users with new e-mails are all kept, twins within one file included |
| `Dashboard.MergeImportShape` | frontend/js/modules/userCSVHandler.js:50-53 | the old rows stay a prefix; every appended row is new, has no result, and has an e-mail not known before; every parsed user with a new e-mail is appended |
| `Dashboard.DashboardApp.constructor` | frontend/js/app.js:3-6 | the app starts with no users on page 1 |
| `UserCsvHandler.UserCSVHandler.constructor` | frontend/js/modules/userCSVHandler.js:7-9 | the handler keeps the app it was given |
| `UserCsvHandler.UserCSVHandler.ImportCSVFile` | frontend/js/modules/userCSVHandler.js:31-71 | an empty parse changes nothing; otherwise the users are merged, the page becomes 1, and the callback gets (appended, parsed) with appended at most parsed |
| `UserCsvHandler.UserCSVHandler.MergeUsers` | frontend/js/modules/userCSVHandler.js:50-58 | the merge step of an import, with the same promises |
| `UserCsvHandler.FindByLogin` | frontend/js/modules/userCSVHandler.js:220-222 | the found row matches e-mail and login id; none is found only when no row matches |
| `UserCsvHandler.ResultTextCases` | frontend/js/modules/userCSVHandler.js:223-224 | the result text is 성공 exactly for a found success, 실패 for a found processing or error, and empty otherwise |
| `UserCsvHandler.ResultsLines` | frontend/js/modules/userCSVHandler.js:210-227 | the results file is the header, then one record per shown user, each ended by LF |
| `UserCsvHandler.RecordIsQuoted` | frontend/js/modules/userCSVHandler.js:226 | each record is the row number, then the four values each in quotes |
| `UserCsvHandler.RecordReadsBack` | frontend/js/modules/userCSVHandler.js:213-226 | a record reads back as its number, counted from 1, and its four values |
| `UserCsvHandler.UserCSVHandler.DownloadResults` | frontend/js/modules/userCSVHandler.js:197-227 | no file for no users; otherwise the results file of the shown users |
| `UserManager.FindIndex` | frontend/js/userManager.js:488-490 | the index is the first row matching e-mail, login id and name, or -1 when none matches |
| `UserManager.UserManager.constructor` | frontend/js/userManager.js:3-5 | the manager keeps the app it was given |
| `UserManager.UserManager.ImportCSVFile` | frontend/js/userManager.js:27-58 | the parsed users are merged with e-mail de-duplication and the page does not change |
| `UserManager.UserManager.AddUserRow` | frontend/js/userManager.js:170-188 | one blank row is appended and the page becomes the last page |
| `UserManager.UserManager.AddMultipleRows` | frontend/js/userManager.js:190-247 | a count outside 1..1000 changes nothing; otherwise the filled rows, in order, are followed by `count` blank rows and the page becomes the last |
| `UserManager.FilledRows` | frontend/js/userManager.js:211-229 | the kept rows are exactly the rows that are not blank |
| `UserManager.FilledRowsIdempotent` | frontend/js/userManager.js:211-229 | dropping blank rows twice is dropping them once |
| `UserManager.AddMultipleKeepsFilled` | frontend/js/userManager.js:211-235 | after adding rows, the filled rows are those before, and everything after them is blank |
| `UserManager.FilledRowsOfBlanks` | frontend/js/userManager.js:231-233 | added blank rows contribute no filled row |
| `UserManager.UserManager.RemoveUserRow` | frontend/js/userManager.js:302-327 | with at most one row, or no confirmation, nothing changes; otherwise that row is removed and the page is clamped to the page count |
| `UserManager.UserManager.ClearUserTable` | frontend/js/userManager.js:329-346 | a confirmed clear of a non-empty table empties it and goes to page 1; otherwise nothing changes |
| `UserManager.UserManager.ChangePage` | frontend/js/userManager.js:427-436 | the page moves by the direction only if the target is a valid page; the rows never change |
| `UserManager.UserManager.GoToPage` | frontend/js/userManager.js:438-446 | the page becomes the target only if it is a valid page; the rows never change |
| `UserManager.Submittable` | frontend/js/userManager.js:466 | the submitted users are exactly the shown users with e-mail, login id and name |
| `UserManager.UserManager.SubmitUsers` | frontend/js/userManager.js:483-524 | the loop marks each found row by its reply, in order, stops at the first thrown reply, and keeps the page valid |
| `UserManager.LastReplyDecides` | frontend/js/userManager.js:483-524 | a row ends `success` or `error` as the last reply about it says, with its message |
| `UserManager.NotAborted` | frontend/js/userManager.js:483-524 | a loop that only gets answers runs to the end |
| `UserManager.OutcomesCount` | frontend/js/userManager.js:483-527 | there is one outcome per user the table holds |
| `UserManager.SubmitKeepsKeys` | frontend/js/userManager.js:516-520 | the loop changes no row's e-mail, login id or name |
| `UserManager.SubmitFrame` | frontend/js/userManager.js:488-520 | a row no submitted user points at is left as it was |
| `UserManager.UserManager.RegisterUsers` | frontend/js/userManager.js:448-551 | without URL, token, password, rows or submittable users nothing changes; otherwise the loop runs, `aborted` says a reply threw, success plus fail counts equal the outcomes, and the page stays valid |
| `UserManager.FailedUsers` | frontend/js/userManager.js:615-617 | the retried users are exactly those of `error` rows with e-mail, login id and name |
| `UserManager.RetryUpdatesFirstTwin` | frontend/js/userManager.js:634-636 | a retry of a failed row marks its earlier identical twin and leaves the failed row as it was |
| `UserManager.UserManager.RetryFailedUsers` | frontend/js/userManager.js:604-687 | without URL, token, password or failed rows nothing changes; otherwise the failed users are resubmitted, `aborted` says a reply threw, the counts add up, and the page stays valid |
| `UserManager.SingleRetry` | frontend/js/userManager.js:711-748 | the row keeps its identity; it ends `success` exactly on a successful answer, taking the answer's message; a thrown reply makes it `error` |
| `UserManager.UserManager.RetrySingleUser` | frontend/js/userManager.js:689-749 | only a retryable row at a valid index is retried, given URL, token and password; nothing else changes and the page stays valid |
| `UserManager.ValidAfterGrowth` | frontend/js/userManager.js:180-181 | growing the table keeps the page valid |
| `ScriptUsers.IsValidIPIff` | frontend/js/script.js:195-198 | `isValidIP` holds exactly for four dot-separated groups of 1-3 digits, the last one optionally followed by `:` and 1-5 digits |
| `ScriptUsers.MatchDottedIff` | frontend/js/script.js:196 | the regular expression's dotted part matches exactly the texts that split on dots into digit groups |
| `ScriptUsers.GroupAndPortIff` | frontend/js/script.js:196 | the last group matches exactly 1-3 digits followed by an optional port |
| `ScriptUsers.NoRangeCheck` | frontend/js/script.js:196 | any four groups of up to three digits pass, 999.999.999.999 included |
| `ScriptUsers.SpliceOne` | frontend/js/script.js:664 | `splice(index, 1)` removes the element at the index, counting from the end for a negative index |
| `ScriptUsers.SpliceOneRemoves` | frontend/js/script.js:664 | it removes one element exactly when the list is non-empty and the index is before the end |
| `ScriptUsers.UserPage.constructor` | frontend/js/script.js:340-346 | the page starts with one blank user on page 1: `setupUserManagement` pushes it onto the empty `allUsers`, and script.js:3-4 sets the empty list and page 1 |
| `ScriptUsers.UserPage.CurrentPageUsers` | frontend/js/script.js:623-625 | the shown users are rows `(cur-1)*50` up to `cur*50`, at most 50, and none past the last page |
| `ScriptUsers.UserPage.PageNumbers` | frontend/js/script.js:701-702 | the window holds at most 5 pages and the current valid page |
| `ScriptUsers.UserPage.ImportCSVFile` | frontend/js/script.js:371-409 | an empty parse changes nothing; otherwise every parsed user is appended, without de-duplication, and the page becomes 1 |
| `ScriptUsers.UserPage.AddUserRow` | frontend/js/script.js:597-616 | one blank user is appended, and the page jumps to the last page only if that is beyond the current one |
| `ScriptUsers.UserPage.RemoveUserRow` | frontend/js/script.js:658-675 | with at most one user nothing changes; otherwise `splice` removes the user and the page is clamped |
| `ScriptUsers.UserPage.ChangePage` | frontend/js/script.js:723-732 | the page moves only to a valid page; the users never change |
| `ScriptUsers.UserPage.GoToPage` | frontend/js/script.js:735-743 | the page becomes the target only if it is valid |
| `ScriptUsers.UserPage.ClearUserTable` | frontend/js/script.js:746-754 | a confirmed clear empties the list and goes to page 1; otherwise nothing changes |
| `Submission.UploadSettleCases` | frontend/js/databaseManager.js:393-415 | an upload ends `success` exactly on an ok response; the message is the body's message, else its error, else a default, never empty |
| `Submission.RetrySettleCases` | frontend/js/databaseManager.js:537-543 | a retry ends `success` exactly on an ok response with a JSON body; the message is never empty |
| `Submission.SettlesAgreeOnJson` | frontend/js/serverManager.js:335-357 | for a thrown call or a plain JSON answer, upload and retry settle a row alike |
| `Submission.Find` | frontend/js/databaseManager.js:327-329 | the index is the first row with the item's key, or -1 when none has it |
| `Submission.FoundAt` | frontend/js/serverManager.js:289-293 | with distinct keys, an item of the batch is found at its own row |
| `Submission.Filter` | frontend/js/databaseManager.js:286-288 | the kept rows are exactly the rows that pass the test |
| `Submission.FilterDistinct` | frontend/js/databaseManager.js:286-288 | filtering keeps keys distinct |
| `Submission.FilterAll` | frontend/js/serverManager.js:248-250 | when every row passes, the filter keeps the whole batch |
| `Submission.SubmitKeepsKeys` | frontend/js/databaseManager.js:393-415 | the loop changes no row's key |
| `Submission.SubmitFrame` | frontend/js/databaseManager.js:325-418 | a row no item points at is left as it was |
| `Submission.LastReplyDecides` | frontend/js/databaseManager.js:393-415 | a row ends as the last reply about it settles it |
| `Submission.OutcomesCount` | frontend/js/databaseManager.js:325-418 | there is one outcome per item the batch holds |
| `Submission.AllFound` | frontend/js/serverManager.js:287-360 | items taken from the batch are all found |
| `Submission.SubmitSettlesEach` | frontend/js/databaseManager.js:325-418 | with distinct keys each item's row is settled by that item's reply, every other row is kept, and there is one outcome per item |
| `Submission.SuccessCount` | frontend/js/databaseManager.js:420 | the success count is at most the number of outcomes |
| `Submission.AllSucceeded` | frontend/js/serverManager.js:362 | the success count is the whole batch exactly when every outcome is a success |
| `DatabaseCsv.NormalizeDbType` | frontend/js/databaseManager.js:127-142 | the database type is always a valid one, and a valid one is kept |
| `DatabaseCsv.DbTypeAliases` | frontend/js/databaseManager.js:133-141 | lower-case aliases map to their valid type (`MySQL` to `Mysql`, `postgres` to `PostgreSQL`) |
| `DatabaseCsv.DbTypeFallback` | frontend/js/databaseManager.js:141 | an unknown type becomes `PostgreSQL` |
| `DatabaseCsv.ConstructorEscapes` | frontend/js/databaseManager.js:133-141 | as written, `constructor` finds an inherited object member instead of a type; corrected, it becomes `PostgreSQL` |
| `DatabaseCsv.AsWrittenAgreesElsewhere` | frontend/js/databaseManager.js:127-142 | for every other input the code as written and the corrected lookup agree |
| `DatabaseCsv.NormalizeClusterType` | frontend/js/databaseManager.js:162-169 | the cluster type is always Primary, Secondary or Single, and a valid one is kept |
| `DatabaseCsv.ClusterTypeIgnoresCase` | frontend/js/databaseManager.js:165-167 | any casing of a valid cluster type becomes that type |
| `DatabaseCsv.PortOf` | frontend/js/databaseManager.js:157 | the port is a number exactly when the text reads as a non-zero number, and otherwise the text itself |
| `DatabaseCsv.ProjectDbValid` | frontend/js/databaseManager.js:117-173 | a projected row's types are empty or valid |
| `DatabaseCsv.ParsedDbRowsValid` | frontend/js/databaseManager.js:106-176 | fewer than two lines give no rows, and every kept row has all seven fields and valid types |
| `DatabaseCsv.ProjectDbRow` | frontend/js/databaseManager.js:117-173 | the column loop projects the row |
| `DatabaseCsv.ReadDbRow` | frontend/js/databaseManager.js:115-179 | a row is read as the specification function says |
| `DatabaseCsv.CollectRows` | frontend/js/databaseManager.js:114-180 | the row loop collects the rows of the data lines |
| `DatabaseCsv.CollectDbRows` | frontend/js/databaseManager.js:105-180 | the file's rows are collected in order |
| `DatabaseCsv.FindKey` | frontend/js/databaseManager.js:188 | the index is the first connection with the key, or -1 when none has it |
| `DatabaseCsv.GroupIsGrouped` | frontend/js/databaseManager.js:183-207 | there is one connection per key, in order of first appearance, seeded from the first row with it and holding the clusters of the rows with it, in order |
| `DatabaseCsv.AddRowGrouped` | frontend/js/databaseManager.js:188-206 | adding one row keeps the grouping invariant |
| `DatabaseCsv.FirstKeysDistinct` | frontend/js/databaseManager.js:188 | no key appears twice among the connections |
| `DatabaseCsv.IndexNew` | frontend/js/databaseManager.js:188-198 | a row with a new key appends a connection seeded from it |
| `DatabaseCsv.IndexOld` | frontend/js/databaseManager.js:200-206 | a row with a known key adds its cluster to that connection |
| `DatabaseCsv.GroupRows` | frontend/js/databaseManager.js:183-207 | the map-based loop builds the same connections as the fold |
| `DatabaseCsv.ParseCSVData` | frontend/js/databaseManager.js:105-211 | the parser yields the file's rows grouped on name, type and user, with the corrected alias lookup (see "## Findings") |
| `DatabaseCsv.GroupKeepsEveryRow` | frontend/js/databaseManager.js:200-206 | the clusters of all connections number exactly the kept rows |
| `DatabaseCsv.ClustersFromRows` | frontend/js/databaseManager.js:200-206 | every cluster comes from a row with the connection's key |
| `DatabaseCsv.TripleGroupingDistinct` | frontend/js/databaseManager.js:183-198 | no two connections share name, type and user |
| `DatabaseCsv.TripleGroupingClusters` | frontend/js/databaseManager.js:200-206 | every cluster of a connection comes from a row with its name, type and user |
| `DatabaseCsv.TripleGroupingPassword` | frontend/js/databaseManager.js:188-198 | the password of a connection is the one of the first row with its name, type and user |
| `DatabaseCsv.FirstWithKeyIsFirst` | frontend/js/databaseManager.js:188-198 | the seed row is the first row with the key |
| `DatabaseCsv.StringKeyCollides` | frontend/js/databaseManager.js:186 | two different (name, type, user) triples give the same string key |
| `DatabaseCsv.StringKeyMerges` | frontend/js/databaseManager.js:186-206 | as written, two such rows become one connection with both clusters |
| `DatabaseCsv.TripleKeySeparates` | frontend/js/databaseManager.js:186-206 | keyed by the triple, two different rows stay two connections |
| `DatabaseCsv.GroupAgrees` | frontend/js/databaseManager.js:186-206 | two keys that tell the rows' triples apart alike group the rows into the same connections |
| `DatabaseCsv.StringKeyIff` | frontend/js/databaseManager.js:186 | for names without '_' and valid types, the joined key is equal exactly when name, type and user are |
| `DatabaseCsv.StringGroupingAgrees` | frontend/js/databaseManager.js:186-206 | on valid rows whose names hold no '_', the grouping as written equals the corrected one |
| `DatabaseManager.DatabaseManager.constructor` | frontend/js/databaseManager.js:3-8 | the page starts with no connections on page 1 |
| `DatabaseManager.DatabaseManager.CurrentPageDatabases` | frontend/js/databaseManager.js:284-289 | the submitted connections are exactly those with every field set and some cluster |
| `DatabaseManager.DatabaseManager.ImportCSVFile` | frontend/js/databaseManager.js:69-92 | an empty parse changes nothing; otherwise the batch is replaced and the page becomes 1 |
| `DatabaseManager.DatabaseManager.SubmitDatabases` | frontend/js/databaseManager.js:325-418 | the loop settles each connection's row by its reply, in order |
| `DatabaseManager.DatabaseManager.UploadDatabases` | frontend/js/databaseManager.js:301-438 | without URL, token or qualifying connections nothing changes; otherwise they are uploaded and the counts add up to the outcomes |
| `DatabaseManager.DatabaseManager.RetryFailedDatabases` | frontend/js/databaseManager.js:456-558 | without URL, token or failed qualifying connections nothing changes; otherwise they are resubmitted in retry mode |
| `DatabaseManager.DatabaseManager.RetrySingleDatabase` | frontend/js/databaseManager.js:560-641 | only a failed row at a valid index is retried, given URL and token |
| `DatabaseManager.MarkKeepsKey` | frontend/js/databaseManager.js:327-329 | marking a row keeps its key, and a later mark overrides an earlier one |
| `DatabaseManager.GroupedQualifies` | frontend/js/databaseManager.js:195-206 | every grouped connection of valid rows qualifies for upload |
| `DatabaseManager.GroupedBatchQualifies` | frontend/js/databaseManager.js:286-288 | the upload filter keeps a whole grouped batch, whose keys are distinct |
| `DatabaseManager.ImportedQualify` | frontend/js/databaseManager.js:286-288 | the same holds for every imported batch |
| `DatabaseManager.UploadAfterImport` | frontend/js/databaseManager.js:301-418 | uploading a fresh import settles the k-th connection by the k-th reply |
| `ServerCsv.OsTypeOf` | frontend/js/serverManager.js:136-150 | the OS type is always one of the six valid values, and an upper-cased valid one is kept |
| `ServerCsv.OsTypeOfLower` | frontend/js/serverManager.js:138-140 | any casing of a valid OS type becomes that type |
| `ServerCsv.OsTypeAliases` | frontend/js/serverManager.js:141-149 | LINUX becomes ETC, AWS becomes AWS_LINUX, REDHAT becomes RHEL, anything else ETC |
| `ServerCsv.Or` | frontend/js/serverManager.js:249 | `a \|\| b` on texts is empty exactly when both are |
| `ServerCsv.StepField` | frontend/js/serverManager.js:119-164 | a primary column sets its field; a legacy column sets it only when unset |
| `ServerCsv.ProjectField` | frontend/js/serverManager.js:119-164 | a field is the last primary value, else the first legacy value |
| `ServerCsv.NameColumnPrecedence` | frontend/js/serverManager.js:119-122 | `name` wins over `hostname` whatever their order; `hostname` fills an empty name |
| `ServerCsv.ProjectOsType` | frontend/js/serverManager.js:132-151 | the OS type is the normalised last OS column, or empty |
| `ServerCsv.ProjectLeavesState` | frontend/js/serverManager.js:170-173 | a parsed server has no status, result or message |
| `ServerCsv.ParsedServersFresh` | frontend/js/serverManager.js:106-173 | fewer than two lines give no servers, and every parsed server has name, host, port and OS type and no status |
| `ServerCsv.ProjectServerRow` | frontend/js/serverManager.js:116-166 | the column loop projects the row |
| `ServerCsv.ReadServer` | frontend/js/serverManager.js:114-174 | a row is read as the specification function says |
| `ServerCsv.CollectServers` | frontend/js/serverManager.js:114-176 | the row loop collects fresh servers, in order |
| `ServerCsv.ParseCSVData` | frontend/js/serverManager.js:105-178 | the parser yields the file's servers, all fresh |
| `ServerCsv.ReadServers` | frontend/js/serverManager.js:106-178 | the lines are read as the specification function says |
| `ServerManager.FullRequest` | frontend/js/serverManager.js:303-311 | the upload request carries ports 21, 23 and 5900 |
| `ServerManager.RetryRequest` | frontend/js/serverManager.js:437-442 | the retry request carries no FTP, Telnet or VNC port |
| `ServerManager.RequestsAgree` | frontend/js/serverManager.js:303-311 | the two requests differ only in those three ports |
| `ServerManager.RequestOfFresh` | frontend/js/serverManager.js:303-307 | a fresh server sends its name, host and valid OS type, and its SSH port read as a number, else 22 |
| `ServerManager.ServerManager.constructor` | frontend/js/serverManager.js:3-8 | the page starts with no servers on page 1, 20 a page |
| `ServerManager.ServerManager.CurrentPageServers` | frontend/js/serverManager.js:246-251 | the submitted servers are exactly those with name, host, port and OS type |
| `ServerManager.ServerManager.ImportCSVFile` | frontend/js/serverManager.js:69-92 | an empty parse changes nothing; otherwise the batch is replaced and the page becomes 1 |
| `ServerManager.ServerManager.ReplaceBatch` | frontend/js/serverManager.js:86-87 | the batch becomes the parsed servers, none with a status |
| `ServerManager.ServerManager.SubmitServers` | frontend/js/serverManager.js:287-360 | the loop settles each server's row by its reply, in order |
| `ServerManager.ServerManager.SettleServer` | frontend/js/serverManager.js:496-543 | one row is settled by one reply |
| `ServerManager.ServerManager.UploadServers` | frontend/js/serverManager.js:263-380 | without URL, token or qualifying servers nothing changes; otherwise they are uploaded and the counts add up |
| `ServerManager.ServerManager.RetryFailedServers` | frontend/js/serverManager.js:398-479 | the failed servers with a status are resubmitted; a batch without status never changes |
| `ServerManager.ServerManager.RetrySingleServer` | frontend/js/serverManager.js:481-544 | only a failed row at a valid index is retried, given URL and token |
| `ServerManager.MarkKeepsKey` | frontend/js/serverManager.js:289-293 | marking a row keeps its key and status, and a later mark overrides an earlier one |
| `ServerManager.ImportedQualify` | frontend/js/serverManager.js:248-250 | the upload filter keeps a whole imported batch |
| `ServerManager.NoStatusNoRetry` | frontend/js/serverManager.js:407-409 | rows without status give no bulk-retry candidates |
| `ServerManager.SubmitKeepsStatus` | frontend/js/serverManager.js:347-357 | the loop never sets a status |
| `ServerManager.RetryFilterStaysEmpty` | frontend/js/serverManager.js:386-388 | after any uploads of an import the bulk-retry filter is still empty |
| `ServerManager.UploadAfterImport` | frontend/js/serverManager.js:263-360 | uploading a fresh import with distinct keys settles the k-th server by the k-th reply |
| `ServerManager.UploadTwins` | frontend/js/serverManager.js:287-360 | with two fresh servers of the same name, host and SSH port, `findIndex` settles the first twin by the later twin's reply and never settles the later twin |
| `LegacyServer.SlotOf` | server_old.js:329-343 | a header fills the login id exactly when it is `loginid` or `login_id` |
| `LegacyServer.ProjectLegacyRow` | server_old.js:327-345 | the column loop yields the four fields as the last columns for them |
| `LegacyServer.ReadLegacyRow` | server_old.js:324-350 | a row is read as the specification function says |
| `LegacyServer.CollectLegacyUsers` | server_old.js:322-351 | the row loop collects the users, in order |
| `LegacyServer.ParseCSV` | server_old.js:316-354 | the parser yields the file's users |
| `LegacyServer.NaiveCellsTrimmed` | server_old.js:324 | every value is trimmed |
| `LegacyServer.CellUnderIn` | server_old.js:327-345 | a field is empty or one of the row's values |
| `LegacyServer.RowOfComplete` | server_old.js:347-349 | a row gives a user only with all four fields non-empty |
| `LegacyServer.ParsedLegacyUsersComplete` | server_old.js:317-349 | every user is complete, and there are fewer users than lines |
| `LegacyServer.LoginIdAliases` | server_old.js:333-336 | `loginid` and `login_id` headers read a row alike |
| `LegacyServer.LastHeaderWins` | server_old.js:327-345 | the last column for a field decides it |
| `LegacyServer.LegacyRoundTrip` | server_old.js:316-354 | a file of a four-column header and plain users parses back into those users |
| `LegacyServer.UploadScheme` | server_old.js:106 | the scheme is `https` exactly when the form field is the text `true` |
| `LegacyServer.ErrorOrNull` | server_old.js:115 | the answer carries an error exactly when the call failed with a non-empty error |
| `LegacyServer.UploadRoute` | server_old.js:85-214 | a missing file, IP or token is refused; otherwise one POST to the built URL, and success exactly when it went through |
| `LegacyServer.EntryOf` | server_old.js:289-293 | an entry records its user, success exactly when the POST went through, and an error exactly when it failed |
| `LegacyServer.Successes` | server_old.js:296 | the success flags of the entries, in order |
| `LegacyServer.RegisterEach` | server_old.js:286-294 | one POST and one entry per user, in order |
| `LegacyServer.RegisterParsed` | server_old.js:285-303 | the users are posted and the counts reported |
| `LegacyServer.BulkRegister` | server_old.js:255-303 | a missing file is refused first, then a missing URL or token; a file with no valid user is refused as such; otherwise every user is posted and the answer reports `success: true` |
| `LegacyServer.BulkTally` | server_old.js:296-297 | success plus fail counts equal the users; all succeed exactly when every POST went through |
| `ApiProxy.PortOr` | backend/controllers/serverController.js:68-70 | a port is the number read when non-zero, else the default, so never 0 with a non-zero default |
| `ApiProxy.PortDefaults` | backend/controllers/serverController.js:68-70 | an absent port or 0 takes the default; a non-zero number is kept |
| `ApiProxy.NumberParses` | backend/controllers/serverController.js:66 | `parseInt` of a number is that number |
| `ApiProxy.WordIsNaN` | backend/controllers/serverController.js:68 | `parseInt` of `undefined`, `null` or `false` is NaN |
| `ApiProxy.Outcome` | backend/controllers/serverController.js:82-94 | created exactly on success, with the data; otherwise the status or 500, and the error or the default text |
| `ApiProxy.OutcomeOfApiClient` | backend/utils/apiClient.js:21-43 | for a result the API client built, the answer's status is 2xx exactly on success and carries the upstream status and error |
| `ApiProxy.Upload` | backend/controllers/serverController.js:5-41 | missing URL or token is refused; otherwise the file text without a BOM, or the body, is posted and the result relayed |
| `ApiProxy.UploadDropsMark` | backend/controllers/serverController.js:22-24 | a file with a leading BOM is sent as the file without it |
| `UserController.RegisterUser` | backend/controllers/userController.js:7-33 | a POST is made exactly when all six values are present; it sends exactly the four user fields to the users endpoint; otherwise 400 |
| `UserController.Outcomes` | backend/controllers/userController.js:73 | the success flags of the results, in order |
| `UserController.PostEach` | backend/controllers/userController.js:63-71 | one POST and one result per user, in order |
| `UserController.PostAndTally` | backend/controllers/userController.js:63-79 | the loop and the report together |
| `UserController.RegisterUsersBulk` | backend/controllers/userController.js:36-88 | a missing file, URL or token is 400; the BOM-stripped file is parsed, no users is 400; otherwise every user is posted and reported |
| `UserController.BulkVerdict` | backend/controllers/userController.js:73-79 | the report says success exactly when every POST succeeded, and the counts add up |
| `UserController.BulkReadsThroughMarks` | backend/controllers/userController.js:49-54 | one or two leading BOMs do not change the users read |
| `ServerController.UploadServer` | backend/controllers/serverController.js:5-41 | the upload handler posts to the servers endpoint exactly when URL and token are present |
| `ServerController.CreateServer` | backend/controllers/serverController.js:44-102 | the URL and token are checked first, then the four fields, both with 400; a valid form is posted to the servers endpoint and answered from the result |
| `ServerController.ServerRequestFields` | backend/controllers/serverController.js:63-71 | name, host and OS type are sent as they came, the SSH port as read, and each other port is the given non-zero number or its default, so never 0 |
| `ServerController.FalsyPortDefaults` | backend/controllers/serverController.js:68-70 | a falsy port takes the default |
| `DatabaseController.UploadDatabase` | backend/controllers/databaseController.js:5-41 | the upload handler posts to the database endpoint exactly when URL and token are present |
| `DatabaseController.MapClusters` | backend/controllers/databaseController.js:78-82 | every cluster maps to host, port and type, one to one and in order; a null or undefined item throws at the first one |
| `DatabaseController.FirstNullish` | backend/controllers/databaseController.js:78-82 | the item that throws is the first null or undefined one |
| `DatabaseController.CreateDBConnection` | backend/controllers/databaseController.js:44-126 | URL and token are checked first, then the six fields, both with 400; a null cluster answers 500; otherwise the request is posted and answered from the result |
| `DatabaseController.UndefinedOnlyDefaults` | backend/controllers/databaseController.js:67-93 | the defaults apply only to undefined values, so false and 0 are kept; the proxy auth type defaults whenever falsy |
| `DatabaseController.SentConnection` | backend/controllers/databaseController.js:60-92 | the request carries the connection fields as given, the account never defaulted, and the mapped clusters |
| `DatabaseController.CreateCluster` | backend/controllers/databaseController.js:129-185 | URL and token are checked first, then the four fields; a valid form is posted to the group's clusters endpoint and answered from the result |
| `DatabaseController.ClusterUrlsDistinct` | backend/controllers/databaseController.js:154 | different group ids give different URLs |
| `DatabaseController.ClusterUrlShape` | backend/controllers/databaseController.js:154 | the URL starts with the target and ends with `/clusters` |

## Left out

- DOM rendering, Toast messages, buttons, drag and drop, `FileReader` and the template downloads are presentation.
  `confirm()` is a boolean parameter.
- `fetch` and axios are not modelled. Frontend replies come from an oracle sequence, one per submission position.
  `ApiClient.callExternalAPI` is an `Upstream` value; `ApiProxy.FromApiClient` states the two shapes it builds.
- `async`/`await` is modelled as plain sequential code; nothing runs concurrently.
- The random dummy data of userManager.js (832-907) and `generateFailedItems` of script.js are nondeterministic.
- `registerUsers` of script.js (757-836) is a separate loop and is not modelled: it updates no batch state (no row is
  marked `processing`, `success` or `error`), reads a fourth `.table-input` as a password that script.js's own row
  renderer (644-646) never creates, posts `{...user, targetUrl}`, and on no failure opens a modal and clears the table.
- `downloadResults` of userManager.js (777-830) is not modelled separately: apart from its parameter and the outer
  try/catch it equals `userCSVHandler.downloadResults`, which `UserCsvHandler.UserCSVHandler.DownloadResults` models.
- `UserManager.UserManager.RegisterUsers`: the `page` parameter stands for what `getCurrentPageUsers`
  (frontend/js/userManager.js:553-577) reads from the `.table-input` cells of the rendered rows. userManager's own
  renderer never creates such cells (only script.js:644-646 does), so reading the DOM is not modelled, and the model
  does not promise that `page` matches `allUsers`.
- `server_old.js`'s `/api/users` form route (217-252) and its own `callExternalAPI` (359-380) are network wrappers.
- `trim`, `toLowerCase`, `toUpperCase` and `parseInt` are modelled on ASCII: Unicode white space and case mapping are
  not modelled. `parseInt` is called without a radix everywhere, and the model reads the `0x`/`0X` prefix as
  hexadecimal just as it does.
- JSON numbers are unbounded integers written in decimal: fractions, NaN in a body and `toFixed` are not modelled,
  nor JavaScript's exponent form for numbers of 1e21 and above (`String(1e21)` is `1e+21`, which `parseInt` reads
  as 1), so `ApiProxy.NumberParses` holds in JavaScript only below 1e21.
- UTF-8 decoding of uploaded buffers is not modelled; a file is its decoded text.
- The catch branches of the controllers answer 500 on exceptions the model cannot raise (axios never throws through
  `callExternalAPI`). The one reachable crash, a null cluster in `createDBConnection`, is modelled.
- Member access on a JSON value that is not an object is not modelled beyond the fields the handlers read.
- Console logging is left out.
- multer's filter in server_old.js (49-63) is not modelled: the legacy routes start after it. A file whose MIME type is
  not `application/json`, `text/csv` or `text/plain`, or that exceeds 10 MB, never reaches them; the error middleware
  (383-399) answers 400 for the size and 500 otherwise. `LegacyServer.UploadedFile.mimetype` is therefore unconstrained.
- `DatabaseCsv.ParseCSVData` and `DatabaseManager.DatabaseManager.ImportCSVFile` use the corrected grouping key and
  alias lookup of the two "## Findings" rows, not the code as written. So an imported batch never merges two
  connections whose joined keys collide, and never stores an inherited `typeMap` member as its type.
  `DatabaseCsv.StringGroupingAgrees` and `DatabaseCsv.AsWrittenAgreesElsewhere` state the inputs on which the two agree.
- `UserManager.UserManager.SubmitUsers`: the frontend posts a request built from the row and the default password;
  the model records only the outcome of each POST, not its body.
- `ServerManager.ServerManager.RetryFailedServers`: it states the new batch and that a batch without status never
  changes, but no success counts, because the source's retry returns none.

## Findings

| source | as written | input that shows it | evidently intended | confidence | as-written member | corrected member |
|---|---|---|---|---|---|---|
| frontend/js/databaseManager.js:133-141 | the alias lookup `typeMap[dbType.toLowerCase()]` reads a plain object, so inherited members are found | a `databaseType` of `constructor` yields the Object constructor instead of a database type | an unknown type falls back to `PostgreSQL` | not executed | `DatabaseCsv.ConstructorEscapes` | `DatabaseCsv.NormalizeDbType` |
| frontend/js/databaseManager.js:186 | rows are grouped by the string `${name}_${databaseType}_${userName}`, which is not one-to-one | rows (`x`, `Mysql`, `y_Mysql_z`) and (`x_Mysql_y`, `Mysql`, `z`) become one connection | one connection per distinct (name, type, user) | not executed | `DatabaseCsv.StringKeyMerges` | `DatabaseCsv.TripleKeySeparates` |
