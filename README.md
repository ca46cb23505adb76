# processFile, modelled in Dafny

`processFile(fileName, fileData)` (project-task.js:21-65) is a small
validator with a resource lifecycle:

- It checks its two arguments in a fixed order. The file name must be
  truthy, the data must be a string, and the trimmed data must not be empty.
  The first check that fails throws.
- Only when every check passes does it acquire a simulated handle
  `Handle-<name>` and log four milestones: opened, processing, the
  upper-cased content, saved.
- A thrown failure is reported on the error channel.
- The `finally` block always runs. It closes and nulls the handle, or reports
  that there is none, and then logs a terminal line.

The driver at project-task.js:71-81 prints a heading and makes one call, four
times over.

The model has four modules:

- `Wrappers` (`wrappers.dfy`): the `Option` type that records whether, and
  what, the `try` block threw.
- `JsValues` (`js_values.dfy`): the JavaScript fragment the routine relies on.
  It covers argument values and their truthiness, `String(v)` as used by
  template literals, `String.prototype.trim` with ECMAScript's whitespace
  set, and `String.prototype.toUpperCase` on ASCII letters.
- `FileProcessing` (`file_processing.dfy`): the parts of the routine:
  - the three failure kinds, standing for ReferenceError, TypeError and
    Error with their exact messages;
  - the console events;
  - the classification function `Validate`;
  - the functions `ResultOf`, `HandleAtCleanup` and `Trace`, which say what
    a call returns, holds and prints;
  - a `Console` class whose methods append to an event sequence;
  - the imperative method `ProcessFile`. It follows the source statement by
    statement: the local `fileHandle` goes null, then handle, then null
    again, and the `try`/`catch`/`finally` runs in order. It is proved
    against those functions.
- `ProcessFileProperties` (`process_file_properties.dfy`): what the routine
  promises, stated over those specification functions.
- `DriverScenarios` (`driver_scenarios.dfy`): the driver's four calls as
  lemmas, and the driver itself as a method on one console.

`console.log` and `console.error` become `Log(milestone)` and
`Error(message)` events. A milestone records which line was printed and the
strings interpolated into it. The fixed wording and the emoji of each line
are represented by the milestone's constructor.

## Model

| member | source | states |
|---|---|---|
| JsValues.Truthy | project-task.js:28 | definition of JavaScript truthiness, used by `!fileName` (line 28) and `if (fileHandle)` (line 57); characterised through ValidateFirstFailure and HandleOnlyOnSuccess |
| JsValues.IntToString | project-task.js:43-44 | definition of `String(n)` for an integer; characterised by IntToStringRoundTrip |
| JsValues.Show | project-task.js:43-58 | definition of `${v}` in the template literals at lines 43, 44, 46, 49 and 58; characterised by ShowProperties |
| JsValues.IsWhitespace | project-task.js:38 | definition of the characters `trim()` removes: ECMAScript WhiteSpace and LineTerminator |
| JsValues.TrimStart | project-task.js:38 | definition of dropping leading whitespace; characterised by TrimStartSpec |
| JsValues.TrimEnd | project-task.js:38 | definition of dropping trailing whitespace; characterised by TrimEndSpec |
| JsValues.Trim | project-task.js:38 | definition of `fileData.trim()`; characterised by TrimSpec |
| JsValues.ToUpper | project-task.js:47 | definition of `fileData.toUpperCase()`; characterised by ToUpperAt and ToUpperIdempotent |
| JsValues.NatToDecimal | project-task.js:43-44 | the decimal numeral of a number is a non-empty string of digits, with a leading zero only for 0 itself |
| JsValues.DecimalRoundTrip | project-task.js:43-44 | reading the decimal numeral of `n` back gives `n` |
| JsValues.IntToStringRoundTrip | project-task.js:43-44 | `String(n)` of an integer is non-empty; for `n >= 0` it is digits reading back as `n`; for `n < 0` it is `-` followed by digits reading back as `-n` |
| JsValues.ShowProperties | project-task.js:43-46 | a string argument is interpolated into a template literal as itself; every other value is interpolated as a non-empty string |
| JsValues.TrimStartSpec | project-task.js:38 | removing leading whitespace leaves a suffix of the input; everything removed is whitespace, and the result does not start with whitespace |
| JsValues.TrimEndSpec | project-task.js:38 | removing trailing whitespace leaves a prefix of the input; everything removed is whitespace, and the result does not end with whitespace |
| JsValues.TrimSpec | project-task.js:38 | `trim()` is an infix of the input with only whitespace outside it, and neither end of it is whitespace; it is empty exactly when the input is all whitespace |
| JsValues.UpperChar | project-task.js:47 | a lower-case ASCII letter becomes the matching upper-case letter; every other character is unchanged; no lower-case letter remains |
| JsValues.ToUpperAt | project-task.js:47 | `toUpperCase()` keeps the length and upper-cases each character in place |
| JsValues.ToUpperIdempotent | project-task.js:47 | upper-casing twice equals upper-casing once, and the result has no lower-case ASCII letter |
| FileProcessing.Message | project-task.js:29-39 | definition of the messages thrown at lines 29, 34 and 39; characterised through OneOutcomePerCall and the scenario lemmas |
| FileProcessing.Errors | project-task.js:53 | definition of the messages of the error lines of a log; characterised by ErrorsAppend and ErrorsOfLogs |
| FileProcessing.Validate | project-task.js:28-40 | definition of the three checks in order, giving the first failure if any; characterised by ValidateFirstFailure |
| FileProcessing.ResultOf | project-task.js:28-53 | definition of the call's outcome: success, or the failure caught by the `catch` block with its message; characterised by SuccessIff and OneOutcomePerCall |
| FileProcessing.HandleFor | project-task.js:43 | definition of the handle string `Handle-${fileName}` |
| FileProcessing.HandleAtCleanup | project-task.js:22-43 | definition of `fileHandle` when the `finally` block starts; characterised by HandleOnlyOnSuccess |
| FileProcessing.TryEvents | project-task.js:43-49 | definition of the four log lines of the `try` block, printed only when every check passed; characterised by TraceShape |
| FileProcessing.CatchEvents | project-task.js:51-53 | definition of the one error line of the `catch` block, printed only on failure; characterised by TraceShape and ErrorsOfTrace |
| FileProcessing.FinallyEvents | project-task.js:55-63 | definition of the `finally` block's lines for a given handle; characterised by FinallyReportsNoError and CleanupMatchesHandle |
| FileProcessing.Trace | project-task.js:21-65 | definition of everything one call prints, in order; characterised by TraceShape, ErrorsOfTrace and FinallyOnceAndLast |
| FileProcessing.ErrorsAppend | project-task.js:53 | the error lines of two logs written one after the other are the first log's error lines followed by the second's |
| FileProcessing.ErrorsOfLogs | project-task.js:44-63 | a log made only of `console.log` lines has no error line |
| FileProcessing.ValidateFirstFailure | project-task.js:28-40 | the checks run in order and the first failure wins: MissingIdentifier exactly when the name is falsy; InvalidType exactly when the name is truthy and the data is not a string; EmptyContent exactly when the name is truthy and the data is an all-whitespace string; no failure exactly when the name is truthy and the data is a string with a non-whitespace character |
| FileProcessing.Console.Log | project-task.js:44-49 | `console.log` appends exactly one log line and changes nothing else |
| FileProcessing.Console.Error | project-task.js:53 | `console.error("Error:", message)` appends exactly one error line carrying the message |
| FileProcessing.TraceShape | project-task.js:43-63 | a successful call prints opened, processing, content, saved, closing, finally-executed; a failing call prints the error line with its message, "no handle", finally-executed |
| FileProcessing.ProcessFile | project-task.js:21-65 | the call returns the outcome that `Validate` classifies, and appends exactly `Trace` to the console. `fileHandle` holds `HandleAtCleanup` when the `finally` block starts and is null when the call returns |
| ProcessFileProperties.MissingNameWins | project-task.js:28-30 | a falsy name fails with MissingIdentifier and "File name is missing!" whatever the data; no handle is acquired and exactly that error is reported |
| ProcessFileProperties.NonStringDataIsInvalidType | project-task.js:33-35 | with a truthy name, non-string data fails with InvalidType and "File data must be a string!"; the log is the same for every non-string value, so the data is never trimmed |
| ProcessFileProperties.BlankDataIsEmptyContent | project-task.js:38-40 | with a truthy name, string data that is empty or only whitespace fails with EmptyContent and "File data cannot be empty!" |
| ProcessFileProperties.SuccessIff | project-task.js:28-43 | a call succeeds exactly when the name is truthy and the data is a string with a non-whitespace character |
| ProcessFileProperties.OneOutcomePerCall | project-task.js:28-40 | every failure carries its kind's message; each failure kind happens exactly under its own condition |
| ProcessFileProperties.HandleOnlyOnSuccess | project-task.js:22-43 | `fileHandle` is non-null when cleanup starts exactly when the call succeeded, and it then is the truthy string `Handle-<name>` |
| ProcessFileProperties.CleanupMatchesHandle | project-task.js:57-62 | the log has the closing line exactly when the call succeeded, and the "no handle" line exactly when it failed |
| ProcessFileProperties.SuccessLog | project-task.js:44-49 | on success the log is opened, processing, content, saved, closing, finally-executed; the content line carries the data upper-cased, untrimmed, of the same length and character by character |
| ProcessFileProperties.SuccessWithStringName | project-task.js:43-49 | a non-empty string name with data that is not all whitespace succeeds; the handle is `Handle-<name>` and every line naming the file carries the name verbatim |
| ProcessFileProperties.FinallyReportsNoError | project-task.js:55-64 | the `finally` block prints no error line, whatever the handle |
| ProcessFileProperties.ErrorsOfTrace | project-task.js:51-63 | a success prints no error line; a failure prints exactly one, with its message, as the call's first line, followed straight away by the cleanup lines for a null handle |
| ProcessFileProperties.FinallyOnceAndLast | project-task.js:55-63 | on every path the finally-executed line is the last line of the call and appears nowhere else in it |
| DriverScenarios.MissingFileName | project-task.js:71-72 | `processFile()` fails with MissingIdentifier and prints the error, "no handle", finally-executed |
| DriverScenarios.DataNotAString | project-task.js:74-75 | `processFile("myFile.txt", 42)` fails with InvalidType and prints the error, "no handle", finally-executed |
| DriverScenarios.EmptyFileData | project-task.js:77-78 | `processFile("myFile.txt", "")` fails with EmptyContent and prints the error, "no handle", finally-executed |
| DriverScenarios.UpperCaseGreeting | project-task.js:47 | `"Hello, world!".toUpperCase()` is `HELLO, WORLD!` |
| DriverScenarios.ValidFileData | project-task.js:80-81 | `processFile("myFile.txt", "Hello, world!")` succeeds and prints the four milestones for `myFile.txt`, with content `HELLO, WORLD!`, then closing and finally-executed |
| DriverScenarios.DriverLog | project-task.js:71-81 | definition of everything the driver prints: each heading, then its call's log; characterised by Driver and DriverErrors |
| DriverScenarios.ErrorsOfRun | project-task.js:71-81 | with headings between calls, three failing calls followed by a successful one print exactly the three failure messages, in call order |
| DriverScenarios.DriverErrors | project-task.js:71-81 | the whole driver run prints exactly three error lines: "File name is missing!", "File data must be a string!" and "File data cannot be empty!", in that order |
| DriverScenarios.Driver | project-task.js:71-81 | the driver prints each heading followed by that call's log, for the four calls in order |

## Left out

- Real console output. The fixed wording of each line, its emoji and the
  trailing newline are not kept as text. They are represented by the
  milestone's constructor. The failure messages are kept exactly.
- JavaScript values beyond undefined, null, booleans, integers and strings.
  NaN, fractional numbers, objects and symbols are not modelled, so neither
  is their truthiness or their `String(v)` form.
- `String(n)` for numbers uses plain decimal digits. JavaScript switches to
  exponent notation from 1e21 upwards; that is not modelled.
- Strings are Dafny strings, which are sequences of Unicode scalar values.
  JavaScript strings are sequences of UTF-16 code units. A lone surrogate
  cannot be represented, and lengths (as in ToUpperAt) count code points, not
  `.length`.
- `Num(n)` takes any integer. A JavaScript number holds integers exactly only
  up to 2^53, so the larger values of `n` have no JavaScript counterpart.
- `toUpperCase` maps ASCII letters only. Full Unicode case mapping is not
  modelled; in JavaScript it can change the length of the string.
- The three exception classes (ReferenceError, TypeError, Error) and the
  exception mechanism become a tagged `Outcome` and a `thrown` variable in
  `ProcessFile`. The value `processFile` returns to its callers is JavaScript
  `undefined`; the `Outcome` stands for the exception that was caught.
- ProcessFile: the local `fileHandle` is not observable in JavaScript. The
  model exposes its value when the `finally` block starts and when the call
  returns as ghost out-parameters.
- The driver is a verified method on a console object, not executed code.
