# mysql-tables-to-gcs: a Dafny model of the sequential core

The tool backs up every table of every database of a MySQL server to a
Google Cloud Storage bucket. For each table it runs `mysqldump`, streams the
output through gzip, and writes it to one object. This project models the
sequential logic under that plumbing and proves properties of it:

- **Database and table listing** (`Listing`, `Strings`). The skip flag is
  split on commas with no trimming. The listing rows are walked in order,
  and each name that `contains` does not find in the skip list is appended.
  The first row that fails to scan ends the listing with that error and no
  list. The rows are an input: a query outcome holding a sequence of
  per-row scan outcomes.
- **Object names** (`Keys`). Each table task builds the prefix
  `host/database/stamp`, and its object is `prefix/table.sql.gz`. The key
  parses back into its four parts when host, database and stamp contain no
  slash, so distinct tables never share an object.
- **The table task** (`TableTask`). Its steps are: create the stdout pipe,
  start `mysqldump`, upload, wait. The first failing step's error is
  returned, wrapped in that step's message, and no later step runs.
- **The upload** (`Upload`). Its checked steps are client creation, copy
  and flush, with the same first-error rule. A close is deferred for the
  client, the object writer and the gzip stage as each one is opened. The
  deferred closes run in LIFO order when the function returns, and their
  errors are dropped.

Every foreign call is an input outcome: the MySQL driver, `mysqldump`, the
storage client, gzip and bufio. The table task and the upload record the
calls they make as an event trace (`Trace`). `Trace.Held` replays a trace
against a stack of acquired resources, which lets the model state which
resources are given back and in what order.

Points about the code that the model follows:

- The key order is host/database/stamp/table.
- The stamp (`time.Now()` formatted to the hour) is taken inside each table
  task. So two tables of one run can fall into different hour buckets. In
  the model the stamp is a parameter of each task.
- The errors of the deferred `gzipWriter.Close` and `writer.Close` are
  discarded, although `writer.Close` is the call that finalises the object.
  Nothing reads the object back after the upload.
- When the upload fails, the table task returns without `cmd.Wait`, so the dump
  process is not reaped (`TableTask.TableReaping`).
- The skip list is a comma-split string with no trimming
  (`Listing.UntrimmedSkipExample`).

## Model

| member | source | states |
|---|---|---|
| Strings.Split | main.go:161 | `strings.Split` on ",": one more piece than there are commas, and no piece contains a comma |
| Strings.JoinSplit | main.go:161 | joining the split pieces with the separator gives back the flag value: the split drops and trims nothing |
| Strings.SplitJoin | main.go:161 | splitting a join of comma-free pieces gives back exactly those pieces |
| Strings.SplitThree | main.go:161 | three comma-free pieces joined by commas split back into exactly those three pieces |
| Listing.Contains | main.go:224-231 | returns true iff the value is an element of the slice; when true, the scan stopped at the first element equal to the value |
| Listing.GetDatabases | main.go:153-174 | the loop returns exactly `DatabasesResult`: the query's error, or the first scan error, or the scanned names not in the split skip list, in row order |
| Listing.GetTables | main.go:176-193 | the loop returns the query's error, or the first scan error, or every scanned name in row order |
| Listing.TablesResultAllScanned | main.go:183-192 | when every row scans, `getTables` returns every row's name in row order |
| Listing.KeepMembers | main.go:167-168 | a name is in the filtered list iff it was scanned and is not in the skip list |
| Listing.KeepIsSubsequence | main.go:162-170 | the filtered list is a subsequence of the scanned names, so row order is kept |
| Listing.DatabasesResultAllOrNothing | main.go:154-166 | a list is returned iff the query worked and every row scanned; otherwise the error is the query's or that of the first row that failed to scan |
| Listing.DatabasesResultFilters | main.go:161-170 | on success every row scanned, and the result is an order-preserving subsequence of the names holding exactly those not in the skip list |
| Listing.DefaultSkipExample | main.go:44 | the default flag splits into information_schema, performance_schema and test; rows information_schema, test, appdb give [appdb] |
| Listing.UntrimmedSkipExample | main.go:161 | the flag "a, b" skips "a" and " b" but keeps "b" |
| Keys.ParseObjectKey | main.go:90 | when host, database and stamp contain no slash, the key `host/database/stamp/table.sql.gz` parses back into exactly those four parts |
| Keys.ParseKeySound | main.go:203 | every key that parses is the object name built from its parsed parts, and the first three parts contain no slash |
| Keys.ObjectKeyInjective | main.go:203 | for slash-free host, database and stamp, equal keys mean equal (host, database, stamp, table) |
| Keys.SlashInDatabaseCollides | main.go:90 | without the slash-free condition keys collide: database "a/b" and database "a" with stamp "b" can name the same object |
| Trace.RunSteps | main.go:112-127 | the early-return chain succeeds iff every step succeeds; otherwise its error wraps the first failing step's error in that step's context |
| Trace.HeldAppend | main.go:200-209 | replaying a concatenated trace replays the first part and then the second part on the resources left held |
| Upload.RunDeferred | main.go:200-209 | draining the deferred closes records them last-deferred first, each with the outcome it reports |
| Upload.UploadToGCS | main.go:195-221 | the result is the first failing step's error (client, copy, flush), wrapped; the trace is the client call, then (only if the client was created) writer, gzip stage, copy, the flush if the copy worked, and the closes of gzip, writer and client in that order |
| Upload.UploadResultCases | main.go:196-219 | the first-error chain gives exactly the function's early returns: the client error, else the copy error, else the flush error, each in its own message, else success |
| Upload.UploadSucceedsIff | main.go:196-219 | the upload succeeds iff client creation, copy and flush all succeed |
| Upload.CloseErrorsIgnored | main.go:206-209 | two runs whose client, copy and flush outcomes agree return the same result, whatever the closes report |
| Upload.UploadStagesNeedClient | main.go:196-211 | the object writer, gzip stage, copy and writer close happen iff the client was created; the flush happens iff the copy also worked |
| Upload.UploadReleasesAll | main.go:200-209 | on every path each resource the upload obtains is given back in LIFO order: gzip stage, then writer, then client |
| TableTask.BackupTable | main.go:89-132 | the result is the first failing step's error (pipe, start, upload, wait), wrapped; the trace holds the calls up to that step and none after it |
| TableTask.TableResultCases | main.go:112-131 | the first-error chain gives exactly the closure's early returns: pipe, then start, then upload, then wait, each in its own message, else success |
| TableTask.TableSucceedsIff | main.go:112-131 | a task succeeds iff pipe, start, client creation, copy, flush and wait all succeed |
| TableTask.ExitStatusDominates | main.go:125-127 | after a successful upload, a failed wait fails the table task with the wait error, wrapped |
| TableTask.UploadFailureFailsTask | main.go:121-123 | after a successful start, a failed upload fails the table task with an error wrapping the upload's error |
| TableTask.LaterStepsNeedEarlier | main.go:112-123 | `cmd.Start` is called iff the pipe was created; the storage client is requested iff both the pipe and the start succeeded |
| TableTask.WaitOnlyAfterUpload | main.go:121-127 | `cmd.Wait` is called iff the pipe, the start and the upload all succeeded |
| TableTask.TableReaping | main.go:117-127 | all storage resources are always given back; the dump process is reaped on every path except a failed upload after a successful start, where it is still held |
| TableTask.WritesOnlyItsKey | main.go:90 | the only object writer the table task opens is in the configured bucket, at `ObjectKey(host, database, stamp, table)` |
| TableTask.KeyExample | main.go:90 | table users of database appdb on host db1 at stamp 2024-05-01-13 is stored at db1/appdb/2024-05-01-13/users.sql.gz |

## Left out

- Flag parsing, the required-argument check, logging and `log.Fatal` exits (main.go:37-50, 146-150) are user interface, not logic. The fatal exits on a hostname failure, an `sql.Open` failure and a `getDatabases` error (main.go:52-55, 57-60, 63-66) are left out with them; `getDatabases` itself is modelled.
- `os.Hostname` and `time.Now().Format("2006-01-02-15")` are opaque string inputs. The model does not check that the stamp has the hour-granularity format.
- The MySQL connection and the `SHOW DATABASES` / `SHOW TABLES` queries are external. Their outcome is an input: a query error, or rows whose scans each succeed or fail.
- `rows.Err()` is never consulted after the `rows.Next()` loop. An iteration that stops early on a driver error therefore looks like the end of the rows. The model's row sequence is whatever `Next` delivered.
- The `mysqldump` command line (its options and credentials), the process, its pipe and its exit status are reduced to the outcomes of the pipe, start and wait calls.
- The storage client, bucket and object writer, gzip compression and the 16 KiB bufio buffer are reduced to call outcomes. Bytes are not modelled, so nothing is said about what reaches the object.
- The database-level closure and `main`'s fan-out are left out (main.go:68-88, 133-144). This covers both errgroups, their `SetLimit` bounds, first-error cancellation, the discarded inner context, the wrap of a `getTables` error with the database name, and the aggregation of task errors. All of these concern concurrency and are not modelled sequentially.
- The context passed to `storage.NewClient` and `NewWriter` is not modelled. A cancelled context shows up only as a failing client, copy or flush outcome, or as a `writer.Close` failure, whose error is discarded (`Upload.CloseErrorsIgnored`): the object is then not committed, yet the upload reports success. `NewWriter` itself returns no error (main.go:205).
