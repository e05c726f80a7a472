# skipper-disk receiver: a Dafny model

This project models the decision logic of skipper-disk's disk receiver
(`standalone/build-disk-receiver-stream.js`). The receiver is a writable
object stream that Skipper hands one uploaded file at a time. For each file it
works out the destination path, creates the parent directories, pipes the bytes
through a progress stream into a file write stream, and reports the outcome.
The model covers three parts of that file:

- **Upload-limit normalisation** (`UploadLimit`). A truthy `maxBytes` whose
  string form contains digits followed by `m` or `M` becomes that many
  megabytes (N * 1024 * 1024). The regular expression `/(\d+)m/i` is written
  out as a hand scan, `FindShorthand`, and proved against a declarative
  definition of its leftmost match, `LeftmostShorthand`. After that,
  `_.defaults` fills in `maxBytes` (15000000) and `dirname` (the value of
  `dirpath`), but only where the option is `undefined`.
- **Destination selection** (`Destination`). The identifier is `skipperFd`
  when that is truthy, and otherwise `fd` when `fd` is a string. A value that
  is not a string is refused before any file-system call. An identifier
  beginning with `/` is kept. Any other identifier is replaced by
  `resolve(cwd, dirpath, filename)`, which does not depend on the identifier.
- **The receiver's callbacks** (`DiskReceiver.Receiver`). The receiver is a
  class. It owns the `_files` record list, a log of its observable actions
  (directory creation, writer opened, `writefile`, `error` and `done`), and
  the phase of the admitted file. Each callback of the source is a method:
  `_write`, the `mkdirs` callback, `finish`, `E_EXCEEDS_UPLOAD_LIMIT`, and the
  write-stream and progress-stream `error` handlers. Each method states the
  whole new state. The object invariant `Valid()` says that the number of
  `done` calls in the log equals the number of completed admissions. This
  rests on the assumption, stated under "## Left out", that `finish` and the
  limit-exceeded signal fire only while their file is being written.

JavaScript values whose type is only known at run time are modelled by
`JsValues.JsValue`, which has the cases undefined, null, boolean, integer
number and string, along with JavaScript truthiness and string conversion.

In these places the code's behaviour is easy to misread; the model follows
the code:
- An empty `fd` is accepted when `skipperFd` is falsy, because it is a
  string. Having no leading `/`, it is then replaced by the options path
  (`Destination.EmptyFdAccepted`).
- A relative identifier is replaced by a path built from `options.filename`,
  which is the same for every file. It is not built from a per-file name.
- Read errors on the incoming file are only logged. They are neither emitted
  nor passed to `done`.
- Write-stream and progress-stream errors are emitted but never complete the
  admission. The receiver therefore stays in `Writing` after one of them
  (`OnWriterError`, `OnProgressError`: `phase == old(phase)`).

## Model

| member | source | states |
|---|---|---|
| `JsValues.Truthy` | standalone/build-disk-receiver-stream.js:30 | a value is falsy exactly when it is `undefined`, `null`, `false`, `0` or `""` |
| `JsValues.ToJsString` | standalone/build-disk-receiver-stream.js:31 | `value + ''` gives a string itself, and the string form of any other value contains no `m` or `M` |
| `JsValues.DecimalValue` | standalone/build-disk-receiver-stream.js:33 | the number k digits denote is below ten to the k |
| `JsValues.NatToDecimal` | standalone/build-disk-receiver-stream.js:31 | the string form of a number is a non-empty run of decimal digits with no leading zero |
| `JsValues.NumberToString` | standalone/build-disk-receiver-stream.js:31 | the string form of any integer holds only digits and `-` |
| `JsValues.DecimalRoundTrip` | standalone/build-disk-receiver-stream.js:33 | reading the numeral of n back as a number gives n (the capture is converted by `*`) |
| `UploadLimit.DigitRunEnd` | standalone/build-disk-receiver-stream.js:31 | the greedy `\d+` stops at the first non-digit: everything before the end is a digit, the end is the string's end or a non-digit |
| `UploadLimit.FindShorthand` | standalone/build-disk-receiver-stream.js:31 | the scan returns a match of `(\d+)m` (either case) with no match starting earlier, or none when no match exists at or after the start |
| `UploadLimit.LeftmostCapturesWholeRun` | standalone/build-disk-receiver-stream.js:31 | the captured digits are a whole run: the character before the leftmost match is not a digit |
| `UploadLimit.MegabyteShorthand` | standalone/build-disk-receiver-stream.js:31-33 | there is a result exactly when the string has a digits-then-`m` match, and it is the leftmost capture's value times 1024 * 1024 |
| `UploadLimit.ParseMaxBytes` | standalone/build-disk-receiver-stream.js:30-35 | a truthy limit whose string form holds the shorthand becomes N megabytes for the leftmost match; every other value is left unchanged |
| `UploadLimit.ShorthandLimit` | standalone/build-disk-receiver-stream.js:30-34 | a numeral followed by `m` or `M` and anything after it is that number of megabytes |
| `UploadLimit.FifteenMegabytes` | standalone/build-disk-receiver-stream.js:30-34 | "15m", "15M" and "15mb" all give 15728640 |
| `UploadLimit.FractionReadsTrailingDigits` | standalone/build-disk-receiver-stream.js:31-33 | "1.5m" gives 5 megabytes, as only the digits right before `m` are captured |
| `UploadLimit.NumberIsNotShorthand` | standalone/build-disk-receiver-stream.js:31-32 | the string form of a number never matches the shorthand |
| `UploadLimit.NumericLimitKept` | standalone/build-disk-receiver-stream.js:30-35 | a numeric limit such as 2048 passes through unchanged |
| `UploadLimit.PlainLimitsKept` | standalone/build-disk-receiver-stream.js:30-35 | "2048", "10kb" and 2048 are left as given |
| `UploadLimit.Default` | standalone/build-disk-receiver-stream.js:37-62 | a property that is not `undefined` is kept, an `undefined` one takes the default, and the result is `undefined` only when both are |
| `UploadLimit.Configure` | standalone/build-disk-receiver-stream.js:25-62 | an absent limit becomes 15000000, a supplied one is only parsed and never replaced by the default, an undefined `dirname` takes `dirpath`, and `dirpath` and `filename` are untouched |
| `UploadLimit.DefaultLimit` | standalone/build-disk-receiver-stream.js:37-62 | with no options the limit is 15000000 |
| `Destination.SelectFd` | standalone/build-disk-receiver-stream.js:88-91 | a truthy `skipperFd` is used when it is a string and refused otherwise; a falsy one falls back to `fd` when that is a string, and otherwise `undefined` is refused |
| `Destination.IsAbsolute` | standalone/build-disk-receiver-stream.js:95 | `/^\//` holds exactly when the identifier has `/` as a prefix |
| `Destination.ResolveDestination` | standalone/build-disk-receiver-stream.js:95-96 | an identifier with a leading `/` is the path; any other gives `resolve(cwd, dirpath, filename)`; the path is absolute whenever `resolve` yields absolute paths |
| `Destination.SkipperFdPreferred` | standalone/build-disk-receiver-stream.js:88 | a non-empty string `skipperFd` is chosen whatever `fd` is |
| `Destination.TruthyNonStringRefused` | standalone/build-disk-receiver-stream.js:88-91 | a truthy non-string `skipperFd` is refused even when `fd` is a string |
| `Destination.EmptyFdAccepted` | standalone/build-disk-receiver-stream.js:88-98 | an empty `fd` passes the string check and is replaced by the resolved options path |
| `Destination.AbsoluteIdentifierKept` | standalone/build-disk-receiver-stream.js:95 | an identifier starting with `/` is used as it is |
| `Destination.RelativeIdentifierIgnored` | standalone/build-disk-receiver-stream.js:95-96 | any identifier without a leading `/` becomes `resolve(cwd, dirpath, filename)`, so two such identifiers give the same path |
| `Destination.DestinationIsAbsolute` | standalone/build-disk-receiver-stream.js:95-96 | when `resolve` yields absolute paths, every destination is absolute and resolving it again leaves it unchanged |
| `DiskReceiver.FindRecord` | standalone/build-disk-receiver-stream.js:124 | the lookup returns the position of the first record whose `fd` equals the path, and none exactly when no record has it |
| `DiskReceiver.Receiver.constructor` | standalone/build-disk-receiver-stream.js:24-74 | the options are normalised once, `_files` and the log start empty and no file is admitted |
| `DiskReceiver.Receiver.OnFile` | standalone/build-disk-receiver-stream.js:80-102 | an unusable identifier completes the admission with the refused value and logs nothing else (no directory creation, no writer); otherwise the path is resolved, written back to `skipperFd` only for a relative identifier, and directory creation is requested |
| `DiskReceiver.Receiver.OnMkdirs` | standalone/build-disk-receiver-stream.js:102-118 | a directory-creation failure calls `done` with that failure and opens no writer; success opens the writer and binds its handlers |
| `DiskReceiver.Receiver.OnFinish` | standalone/build-disk-receiver-stream.js:121-140 | `byteCount` becomes the first matching record's `total`, or is left alone when there is none; exactly one `writefile` and then `done()` without error are logged; `_files` is unchanged |
| `DiskReceiver.Receiver.OnLimitExceeded` | standalone/build-disk-receiver-stream.js:141-143 | the limit-exceeded signal calls `done` with that error and nothing else; `_files` is unchanged |
| `DiskReceiver.Receiver.OnWriterError` | standalone/build-disk-receiver-stream.js:154-157 | a write error on a file whose writer was opened is emitted on the receiver, naming that file's field, and never calls `done`; nothing else changes |
| `DiskReceiver.Receiver.OnProgressError` | standalone/build-disk-receiver-stream.js:158-161 | a progress-stream error on a file whose writer was opened is emitted on the receiver, naming that file's field, and never calls `done`; nothing else changes |
| `DiskReceiver.Receiver.RecordTotals` | standalone/build-disk-receiver-stream.js:147 | the progress stream's update of `_files` replaces the list and changes nothing else |

## Left out

- The progress stream (`./build-progress-stream`) is not part of this model. Its byte counting, milestones and quota check are not modelled. It appears only as the source of the limit-exceeded signal, of its `error` events and of the `_files` contents (`RecordTotals`).
- The Node stream machinery is not modelled: `Writable`, `pipe`, object-mode backpressure and the `encoding` argument. The rule that `_write` is not called again before `done` is a precondition (`phase.Idle?`).
- Receiver.OnFinish, Receiver.OnLimitExceeded: the model assumes these fire only while their file is being written (`phase.Writing?`). The source's closures call `done` with no guard, so a `finish` after a limit signal would call `done` a second time; the model does not capture that case. Only because of this assumption does `Valid()` equate the `done` calls with the completed admissions.
- Receiver.OnLimitExceeded: `done(err)` returns the model to `Idle`, exactly like `done()`, so a further `OnFile` is accepted. The same holds for the `done(err)` of Receiver.OnFile (refused identifier) and Receiver.OnMkdirs (directory creation failed). A Node `Writable` whose write callback receives an error instead emits `error` and stops, and no further file reaches `_write`; the model does not capture that stop.
- `fsx.mkdirs` and `fsx.createWriteStream` are file-system I/O. They appear only as log entries and as the success or failure passed to `OnMkdirs`. `path.dirname` of the destination is not computed: the log records the destination whose parent is created.
- `path.resolve` and `process.cwd()` are a parameter of the receiver (`resolve`) and of `OnFile` (`cwd`). This includes the `TypeError` that `path.resolve` throws when `dirpath` or `filename` is not a string.
- The read-error handler of the incoming file (lines 112-115) only writes diagnostics, so it has no effect on the modelled state. `debug`, `log` and the text of error messages are diagnostics and are left out too.
- The `onProgress` option is not modelled. Its default `undefined` never changes a value, and binding it to `progress` events is event-emitter wiring.
- The `adapter` argument is not modelled. It is only passed on to the progress stream.
- `options || {}` is modelled as `Option<Options>`: an absent options object is one with every property undefined. A truthy options value that is not an object is not modelled.
- Only part of JavaScript's value space is modelled. Numbers are integers: NaN, fractions and the exponent notation `String` uses from 1e21 upwards are not. The product `N * 1024 * 1024` is exact, and the rounding of doubles above 2^53 is not modelled.
- Options are returned as a new value. The model does not capture that the caller's options object is updated in place and that the caller can observe this through aliasing.
