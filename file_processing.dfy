/**
  `processFile(fileName, fileData)`: validate the two arguments in a fixed
  order (first failure wins), acquire a simulated file handle only when all
  checks pass, log the processing milestones, report a failure on the error
  channel, and in every case run the cleanup that releases the handle.

  The thrown exceptions become a tagged `Outcome`; `console.log` and
  `console.error` become appends to the event sequence of a `Console`.
 */
module FileProcessing {
  import opened Wrappers
  import opened JsValues

  // ---------------------------------------------------------------------------
  // Outcomes and observations
  // ---------------------------------------------------------------------------

  /** The three validation failures, in the order they are checked; they stand
      for the ReferenceError, TypeError and Error the routine throws. */
  datatype FailureKind = MissingIdentifier | InvalidType | EmptyContent

  /** The one result of a call. */
  datatype Outcome = Success | Failure(kind: FailureKind, message: string)

  /** The message each failure is thrown with. */
  function Message(kind: FailureKind): string
  {
    match kind
    case MissingIdentifier => "File name is missing!"
    case InvalidType => "File data must be a string!"
    case EmptyContent => "File data cannot be empty!"
  }

  /** What a `console.log` line reports. */
  datatype Milestone =
    | Heading(text: string)        // a driver line such as === Test 1: Missing file name ===
    | Opened(name: string)         // File "<name>" opened successfully.
    | Processing(name: string)     // Processing file: <name>
    | Content(text: string)        // File content: <text>
    | Saved(name: string)          // File "<name>" processed and saved successfully.
    | Closing(name: string)        // Closing file handle for "<name>"
    | NoHandle                     // No file handle to close.
    | FinallyExecuted              // Finally block executed

  /** One console call: a log line, or an error line carrying a message. */
  datatype Event = Log(milestone: Milestone) | Error(message: string)

  /** The messages of the error lines of `t`, in order. */
  function Errors(t: seq<Event>): seq<string>
  {
    if t == [] then []
    else (if t[0].Error? then [t[0].message] else []) + Errors(t[1..])
  }

  lemma {:induction false} ErrorsAppend(a: seq<Event>, b: seq<Event>)
    ensures Errors(a + b) == Errors(a) + Errors(b)
    decreases |a|
  {
    if a == [] {
      assert a + b == b;
    } else {
      assert (a + b)[0] == a[0];
      assert (a + b)[1..] == a[1..] + b;
      ErrorsAppend(a[1..], b);
    }
  }

  /** A log with no error line reports no error. */
  lemma {:induction false} ErrorsOfLogs(t: seq<Event>)
    requires forall i :: 0 <= i < |t| ==> t[i].Log?
    ensures Errors(t) == []
    decreases |t|
  {
    if t != [] {
      assert forall i :: 0 <= i < |t[1..]| ==> t[1..][i] == t[i + 1];
      ErrorsOfLogs(t[1..]);
    }
  }

  /** Regrouping a concatenation. The verifier does not apply this on its own
      in large contexts; the methods below call it to keep their proofs small. */
  lemma AppendAssoc<T>(a: seq<T>, b: seq<T>, c: seq<T>)
    ensures a + (b + c) == a + b + c
  {
  }

  // ---------------------------------------------------------------------------
  // Specification of one call
  // ---------------------------------------------------------------------------

  /** The validation of lines 28-40: the first check that fails, if any. */
  function Validate(fileName: Value, fileData: Value): Option<FailureKind>
  {
    if !Truthy(fileName) then Some(MissingIdentifier)
    else if !fileData.Str? then Some(InvalidType)
    else if Trim(fileData.s) == "" then Some(EmptyContent)
    else None
  }

  /** The checks run in order and the first failure wins: the name is checked
      before the data's type and the type before the data's emptiness, so each
      failure is reported exactly when every earlier check passed. */
  lemma ValidateFirstFailure(fileName: Value, fileData: Value)
    ensures Validate(fileName, fileData) == Some(MissingIdentifier) <==> !Truthy(fileName)
    ensures Validate(fileName, fileData) == Some(InvalidType)
            <==> Truthy(fileName) && !fileData.Str?
    ensures Validate(fileName, fileData) == Some(EmptyContent)
            <==> Truthy(fileName) && fileData.Str? && AllWhitespace(fileData.s)
    ensures Validate(fileName, fileData) == None
            <==> Truthy(fileName) && fileData.Str? && !AllWhitespace(fileData.s)
  {
    if fileData.Str? {
      TrimSpec(fileData.s);
    }
  }

  /** The outcome of a call. */
  function ResultOf(fileName: Value, fileData: Value): Outcome
  {
    match Validate(fileName, fileData)
    case None => Success
    case Some(kind) => Failure(kind, Message(kind))
  }

  /** The simulated handle `Handle-<name>`. */
  function HandleFor(fileName: Value): string
  {
    "Handle-" + Show(fileName)
  }

  /** The value of `fileHandle` when the `finally` block starts: the handle if
      every check passed, otherwise still the `null` it was initialised to. */
  function HandleAtCleanup(fileName: Value, fileData: Value): Value
  {
    if Validate(fileName, fileData).None? then Str(HandleFor(fileName)) else Null
  }

  /** The log lines of the `try` block: the four milestones, only on success. */
  function TryEvents(fileName: Value, fileData: Value): seq<Event>
  {
    if Validate(fileName, fileData).None? then
      [Log(Opened(Show(fileName))), Log(Processing(Show(fileName))),
       Log(Content(ToUpper(fileData.s))), Log(Saved(Show(fileName)))]
    else []
  }

  /** The error line of the `catch` block, only on failure. */
  function CatchEvents(fileName: Value, fileData: Value): seq<Event>
  {
    match Validate(fileName, fileData)
    case None => []
    case Some(kind) => [Error(Message(kind))]
  }

  /** The log lines of the `finally` block for a given handle value. */
  function FinallyEvents(fileHandle: Value, fileName: Value): seq<Event>
  {
    (if Truthy(fileHandle) then [Log(Closing(Show(fileName)))] else [Log(NoHandle)])
    + [Log(FinallyExecuted)]
  }

  /** Everything one call prints, in order. */
  function Trace(fileName: Value, fileData: Value): seq<Event>
  {
    TryEvents(fileName, fileData) + CatchEvents(fileName, fileData)
    + FinallyEvents(HandleAtCleanup(fileName, fileData), fileName)
  }

  // ---------------------------------------------------------------------------
  // The console and the routine
  // ---------------------------------------------------------------------------

  /** The observation sink standing for `console`: every call appends. */
  class Console {
    var events: seq<Event>

    constructor ()
      ensures events == []
    {
      events := [];
    }

    /** `console.log` */
    method Log(m: Milestone)
      modifies this
      ensures events == old(events) + [Event.Log(m)]
    {
      events := events + [Event.Log(m)];
    }

    /** `console.error("Error:", message)` */
    method Error(message: string)
      modifies this
      ensures events == old(events) + [Event.Error(message)]
    {
      events := events + [Event.Error(message)];
    }
  }

  /** The whole log of a call, spelled out: on success the four processing
      milestones, the closing of the handle and the terminal line; on a
      failure the error line with the failure's message, the "no handle"
      line and the terminal line. */
  lemma TraceShape(fileName: Value, fileData: Value)
    ensures Validate(fileName, fileData).None? ==>
      Trace(fileName, fileData)
      == [Log(Opened(Show(fileName))), Log(Processing(Show(fileName))),
          Log(Content(ToUpper(fileData.s))), Log(Saved(Show(fileName))),
          Log(Closing(Show(fileName))), Log(FinallyExecuted)]
    ensures Validate(fileName, fileData).Some? ==>
      Trace(fileName, fileData)
      == [Error(Message(Validate(fileName, fileData).value)), Log(NoHandle), Log(FinallyExecuted)]
  {
  }

  /** `processFile(fileName, fileData)`, step by step. `handleAtCleanup` and
      `handleAtExit` expose the local `fileHandle` when the `finally` block
      starts and when the call returns. */
  method ProcessFile(console: Console, fileName: Value, fileData: Value)
    returns (outcome: Outcome, ghost handleAtCleanup: Value, ghost handleAtExit: Value)
    modifies console
    ensures outcome == ResultOf(fileName, fileData)
    ensures console.events == old(console.events) + Trace(fileName, fileData)
    ensures handleAtCleanup == HandleAtCleanup(fileName, fileData)
    ensures handleAtExit == Null
  {
    var fileHandle: Value := Null;
    var thrown: Option<FailureKind> := None;
    ghost var before := console.events;

    // try
    if !Truthy(fileName) {
      thrown := Some(MissingIdentifier);
    } else if !fileData.Str? {
      thrown := Some(InvalidType);
    } else if Trim(fileData.s) == "" {
      thrown := Some(EmptyContent);
    } else {
      fileHandle := Str("Handle-" + Show(fileName));
      console.Log(Opened(Show(fileName)));
      console.Log(Processing(Show(fileName)));
      console.Log(Content(ToUpper(fileData.s)));
      console.Log(Saved(Show(fileName)));
    }
    assert thrown == Validate(fileName, fileData);
    assert fileHandle == HandleAtCleanup(fileName, fileData);
    assert console.events == before + TryEvents(fileName, fileData);

    // catch
    outcome := Success;
    if thrown.Some? {
      outcome := Failure(thrown.value, Message(thrown.value));
      console.Error(Message(thrown.value));
    }
    ghost var caught := console.events;
    assert caught == before + TryEvents(fileName, fileData) + CatchEvents(fileName, fileData);

    // finally
    handleAtCleanup := fileHandle;
    ghost var cleanup := if Truthy(fileHandle) then Log(Closing(Show(fileName))) else Log(NoHandle);
    if Truthy(fileHandle) {
      console.Log(Closing(Show(fileName)));
      fileHandle := Null;
    } else {
      console.Log(NoHandle);
    }
    console.Log(FinallyExecuted);
    handleAtExit := fileHandle;
    AppendAssoc(caught, [cleanup], [Log(FinallyExecuted)]);
    AppendAssoc(before, TryEvents(fileName, fileData), CatchEvents(fileName, fileData));
    AppendAssoc(before, TryEvents(fileName, fileData) + CatchEvents(fileName, fileData),
                FinallyEvents(handleAtCleanup, fileName));
  }
}
