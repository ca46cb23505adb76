/**
  The four calls the driver makes (project-task.js:71-81), as facts about
  the model; and the driver itself, run against one console.
 */
module DriverScenarios {
  import opened JsValues
  import opened FileProcessing
  import opened ProcessFileProperties

  const FileName: Value := Str("myFile.txt")

  /** `processFile()`: both arguments undefined. */
  lemma MissingFileName()
    ensures ResultOf(Undefined, Undefined) == Failure(MissingIdentifier, "File name is missing!")
    ensures Trace(Undefined, Undefined)
            == [Error("File name is missing!"), Log(NoHandle), Log(FinallyExecuted)]
  {
    MissingNameWins(Undefined, Undefined);
  }

  /** `processFile("myFile.txt", 42)` */
  lemma DataNotAString()
    ensures ResultOf(FileName, Num(42)) == Failure(InvalidType, "File data must be a string!")
    ensures Trace(FileName, Num(42))
            == [Error("File data must be a string!"), Log(NoHandle), Log(FinallyExecuted)]
  {
    NonStringDataIsInvalidType(FileName, Num(42));
  }

  /** `processFile("myFile.txt", "")` */
  lemma EmptyFileData()
    ensures ResultOf(FileName, Str("")) == Failure(EmptyContent, "File data cannot be empty!")
    ensures Trace(FileName, Str(""))
            == [Error("File data cannot be empty!"), Log(NoHandle), Log(FinallyExecuted)]
  {
    BlankDataIsEmptyContent(FileName, Str(""));
  }

  /** `"Hello, world!".toUpperCase()` is `HELLO, WORLD!`: letters are
      upper-cased, the comma, the space and the exclamation mark are kept. */
  lemma UpperCaseGreeting(data: string)
    requires data == "Hello, world!"
    ensures ToUpper(data) == "HELLO, WORLD!"
  {
    ToUpperAt(data);
    var u := ToUpper(data);
    assert u[0] == 'H' && u[1] == 'E' && u[2] == 'L' && u[3] == 'L' && u[4] == 'O';
    assert u[5] == ',' && u[6] == ' ';
    assert u[7] == 'W' && u[8] == 'O' && u[9] == 'R' && u[10] == 'L' && u[11] == 'D' && u[12] == '!';
  }

  /** `processFile("myFile.txt", "Hello, world!")`: the call succeeds and the
      content line reads `HELLO, WORLD!`. */
  lemma ValidFileData()
    ensures ResultOf(FileName, Str("Hello, world!")) == Success
    ensures Trace(FileName, Str("Hello, world!"))
            == [Log(Opened("myFile.txt")), Log(Processing("myFile.txt")),
                Log(Content("HELLO, WORLD!")), Log(Saved("myFile.txt")),
                Log(Closing("myFile.txt")), Log(FinallyExecuted)]
  {
    assert !IsWhitespace("Hello, world!"[0]);
    UpperCaseGreeting("Hello, world!");
    SuccessWithStringName("myFile.txt", Str("Hello, world!"));
  }

  /** Everything the driver prints: before each call its `=== Test <n> ===`
      heading, then what the call prints. */
  function DriverLog(): seq<Event>
  {
    [Log(Heading("=== Test 1: Missing file name ==="))] + Trace(Undefined, Undefined)
    + [Log(Heading("=== Test 2: File data not a string ==="))] + Trace(FileName, Num(42))
    + [Log(Heading("=== Test 3: Empty file data ==="))] + Trace(FileName, Str(""))
    + [Log(Heading("=== Test 4: Valid file data ==="))] + Trace(FileName, Str("Hello, world!"))
  }

  /** Headings and calls interleaved: when three calls fail and the fourth
      succeeds, the error lines are the three failure messages in call order. */
  lemma ErrorsOfRun(h1: Event, t1: seq<Event>, h2: Event, t2: seq<Event>,
                    h3: Event, t3: seq<Event>, h4: Event, t4: seq<Event>,
                    m1: string, m2: string, m3: string)
    requires h1.Log? && h2.Log? && h3.Log? && h4.Log?
    requires Errors(t1) == [m1] && Errors(t2) == [m2] && Errors(t3) == [m3] && Errors(t4) == []
    ensures Errors([h1] + t1 + [h2] + t2 + [h3] + t3 + [h4] + t4) == [m1, m2, m3]
  {
    ErrorsOfLogs([h1]);
    ErrorsOfLogs([h2]);
    ErrorsOfLogs([h3]);
    ErrorsOfLogs([h4]);
    ErrorsAppend([h1] + t1 + [h2] + t2 + [h3] + t3 + [h4], t4);
    ErrorsAppend([h1] + t1 + [h2] + t2 + [h3] + t3, [h4]);
    ErrorsAppend([h1] + t1 + [h2] + t2 + [h3], t3);
    ErrorsAppend([h1] + t1 + [h2] + t2, [h3]);
    ErrorsAppend([h1] + t1 + [h2], t2);
    ErrorsAppend([h1] + t1, [h2]);
    ErrorsAppend([h1], t1);
  }

  /** The error lines of the whole driver run: one per failing call, in the
      order of the calls. */
  lemma DriverErrors()
    ensures Errors(DriverLog())
            == ["File name is missing!", "File data must be a string!", "File data cannot be empty!"]
  {
    MissingFileName();
    ErrorsOfTrace(Undefined, Undefined);
    DataNotAString();
    ErrorsOfTrace(FileName, Num(42));
    EmptyFileData();
    ErrorsOfTrace(FileName, Str(""));
    ErrorsOfTrace(FileName, Str("Hello, world!"));
    ValidFileData();
    ErrorsOfRun(Log(Heading("=== Test 1: Missing file name ===")), Trace(Undefined, Undefined),
                Log(Heading("=== Test 2: File data not a string ===")), Trace(FileName, Num(42)),
                Log(Heading("=== Test 3: Empty file data ===")), Trace(FileName, Str("")),
                Log(Heading("=== Test 4: Valid file data ===")), Trace(FileName, Str("Hello, world!")),
                "File name is missing!", "File data must be a string!",
                "File data cannot be empty!");
  }

  /** `s + (a1 + ... + a8) == s + a1 + ... + a8`, which `Driver` needs to
      match its console to `DriverLog`. */
  lemma Regroup<T>(s: seq<T>, a1: seq<T>, a2: seq<T>, a3: seq<T>, a4: seq<T>,
                   a5: seq<T>, a6: seq<T>, a7: seq<T>, a8: seq<T>)
    ensures s + (a1 + a2 + a3 + a4 + a5 + a6 + a7 + a8) == s + a1 + a2 + a3 + a4 + a5 + a6 + a7 + a8
  {
    AppendAssoc(s, a1 + a2 + a3 + a4 + a5 + a6 + a7, a8);
    AppendAssoc(s, a1 + a2 + a3 + a4 + a5 + a6, a7);
    AppendAssoc(s, a1 + a2 + a3 + a4 + a5, a6);
    AppendAssoc(s, a1 + a2 + a3 + a4, a5);
    AppendAssoc(s, a1 + a2 + a3, a4);
    AppendAssoc(s, a1 + a2, a3);
    AppendAssoc(s, a1, a2);
  }

  /** The driver: each heading, then the call, on one console. */
  method Driver(console: Console)
    modifies console
    ensures console.events == old(console.events) + DriverLog()
  {
    ghost var start := console.events;
    console.Log(Heading("=== Test 1: Missing file name ==="));
    var outcome, atCleanup, atExit := ProcessFile(console, Undefined, Undefined);
    MissingFileName();
    assert outcome.Failure? && outcome.kind == MissingIdentifier;

    console.Log(Heading("=== Test 2: File data not a string ==="));
    outcome, atCleanup, atExit := ProcessFile(console, FileName, Num(42));
    DataNotAString();
    assert outcome.Failure? && outcome.kind == InvalidType;

    console.Log(Heading("=== Test 3: Empty file data ==="));
    outcome, atCleanup, atExit := ProcessFile(console, FileName, Str(""));
    EmptyFileData();
    assert outcome.Failure? && outcome.kind == EmptyContent;

    console.Log(Heading("=== Test 4: Valid file data ==="));
    outcome, atCleanup, atExit := ProcessFile(console, FileName, Str("Hello, world!"));
    ValidFileData();
    HandleOnlyOnSuccess(FileName, Str("Hello, world!"));
    assert outcome == Success && atCleanup == Str(HandleFor(FileName)) && atExit == Null;

    Regroup(start, [Log(Heading("=== Test 1: Missing file name ==="))], Trace(Undefined, Undefined),
            [Log(Heading("=== Test 2: File data not a string ==="))], Trace(FileName, Num(42)),
            [Log(Heading("=== Test 3: Empty file data ==="))], Trace(FileName, Str("")),
            [Log(Heading("=== Test 4: Valid file data ==="))], Trace(FileName, Str("Hello, world!")));
  }
}
