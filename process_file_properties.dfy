/**
  What `processFile` promises, stated over the specification functions that
  ProcessFile is proved against: which failure wins, when the handle exists,
  what is logged and in which order.
 */
module ProcessFileProperties {
  import opened Wrappers
  import opened JsValues
  import opened FileProcessing

  /** A falsy file name fails with MissingIdentifier whatever the data is:
      the name is checked first, so nothing else is reported and no handle
      is acquired. */
  lemma MissingNameWins(fileName: Value, fileData: Value)
    requires !Truthy(fileName)
    ensures ResultOf(fileName, fileData) == Failure(MissingIdentifier, "File name is missing!")
    ensures HandleAtCleanup(fileName, fileData) == Null
    ensures Trace(fileName, fileData)
            == [Error("File name is missing!"), Log(NoHandle), Log(FinallyExecuted)]
  {
    TraceShape(fileName, fileData);
  }

  /** With a truthy name, data that is not a string fails with InvalidType;
      its emptiness is never examined. */
  lemma NonStringDataIsInvalidType(fileName: Value, fileData: Value)
    requires Truthy(fileName) && !fileData.Str?
    ensures ResultOf(fileName, fileData) == Failure(InvalidType, "File data must be a string!")
    ensures Trace(fileName, fileData)
            == [Error("File data must be a string!"), Log(NoHandle), Log(FinallyExecuted)]
    ensures forall other: Value :: !other.Str? ==> Trace(fileName, other) == Trace(fileName, fileData)
  {
    TraceShape(fileName, fileData);
    forall other: Value | !other.Str? ensures Trace(fileName, other) == Trace(fileName, fileData) {
      TraceShape(fileName, other);
    }
  }

  /** With a truthy name, string data that is empty or only whitespace fails
      with EmptyContent. */
  lemma BlankDataIsEmptyContent(fileName: Value, fileData: Value)
    requires Truthy(fileName) && fileData.Str? && AllWhitespace(fileData.s)
    ensures ResultOf(fileName, fileData) == Failure(EmptyContent, "File data cannot be empty!")
    ensures Trace(fileName, fileData)
            == [Error("File data cannot be empty!"), Log(NoHandle), Log(FinallyExecuted)]
  {
    ValidateFirstFailure(fileName, fileData);
    TraceShape(fileName, fileData);
  }

  /** A call succeeds exactly when the name is truthy and the data is a
      string with at least one character that is not whitespace. */
  lemma SuccessIff(fileName: Value, fileData: Value)
    ensures ResultOf(fileName, fileData) == Success
            <==> Truthy(fileName) && fileData.Str? && !AllWhitespace(fileData.s)
  {
    ValidateFirstFailure(fileName, fileData);
  }

  /** The failure kinds are exhaustive and exclusive, and each failure carries
      the message its kind is thrown with. */
  lemma OneOutcomePerCall(fileName: Value, fileData: Value)
    ensures var o := ResultOf(fileName, fileData);
      (o.Failure? ==> o.message == Message(o.kind))
      && (o.Failure? && o.kind == MissingIdentifier <==> !Truthy(fileName))
      && (o.Failure? && o.kind == InvalidType <==> Truthy(fileName) && !fileData.Str?)
      && (o.Failure? && o.kind == EmptyContent
          <==> Truthy(fileName) && fileData.Str? && AllWhitespace(fileData.s))
  {
    ValidateFirstFailure(fileName, fileData);
  }

  /** The handle exists when cleanup starts exactly when the call succeeded,
      and it is then `Handle-<name>`; on every failure it is still null. */
  lemma HandleOnlyOnSuccess(fileName: Value, fileData: Value)
    ensures HandleAtCleanup(fileName, fileData) != Null <==> ResultOf(fileName, fileData) == Success
    ensures ResultOf(fileName, fileData) == Success
            ==> (HandleAtCleanup(fileName, fileData) == Str("Handle-" + Show(fileName))
                 && Truthy(HandleAtCleanup(fileName, fileData)))
  {
  }

  /** Cleanup closes the handle exactly when one was acquired, and reports
      "no handle" exactly when none was. */
  lemma CleanupMatchesHandle(fileName: Value, fileData: Value)
    ensures Log(Closing(Show(fileName))) in Trace(fileName, fileData)
            <==> ResultOf(fileName, fileData) == Success
    ensures Log(NoHandle) in Trace(fileName, fileData)
            <==> ResultOf(fileName, fileData) != Success
  {
    TraceShape(fileName, fileData);
  }

  /** On success the log is opened, processing, content, saved, closing,
      finally-executed, in that order, and the content line carries exactly
      the upper-cased data: untrimmed, of the same length, each character
      upper-cased. */
  lemma SuccessLog(fileName: Value, fileData: Value)
    requires ResultOf(fileName, fileData) == Success
    ensures fileData.Str?
    ensures Trace(fileName, fileData)
            == [Log(Opened(Show(fileName))), Log(Processing(Show(fileName))),
                Log(Content(ToUpper(fileData.s))), Log(Saved(Show(fileName))),
                Log(Closing(Show(fileName))), Log(FinallyExecuted)]
    ensures |ToUpper(fileData.s)| == |fileData.s|
    ensures forall i :: 0 <= i < |fileData.s| ==> ToUpper(fileData.s)[i] == UpperChar(fileData.s[i])
  {
    TraceShape(fileName, fileData);
    ToUpperAt(fileData.s);
  }

  /** A string name is logged as itself: with a non-empty name and data that
      is not all whitespace the call succeeds, the handle is `Handle-<name>`
      and every line that names the file carries `name` verbatim. */
  lemma SuccessWithStringName(name: string, fileData: Value)
    requires name != "" && fileData.Str? && !AllWhitespace(fileData.s)
    ensures ResultOf(Str(name), fileData) == Success
    ensures HandleAtCleanup(Str(name), fileData) == Str("Handle-" + name)
    ensures Trace(Str(name), fileData)
            == [Log(Opened(name)), Log(Processing(name)), Log(Content(ToUpper(fileData.s))),
                Log(Saved(name)), Log(Closing(name)), Log(FinallyExecuted)]
  {
    ValidateFirstFailure(Str(name), fileData);
    TraceShape(Str(name), fileData);
  }

  /** The cleanup writes log lines only, never an error line, whatever the
      handle. */
  lemma FinallyReportsNoError(fileHandle: Value, fileName: Value)
    ensures Errors(FinallyEvents(fileHandle, fileName)) == []
  {
    ErrorsOfLogs(FinallyEvents(fileHandle, fileName));
  }

  /** A failure is reported by exactly one error line, carrying its message,
      at the start of the log and straight before the cleanup lines; a
      success reports no error at all. */
  lemma ErrorsOfTrace(fileName: Value, fileData: Value)
    ensures ResultOf(fileName, fileData) == Success ==> Errors(Trace(fileName, fileData)) == []
    ensures ResultOf(fileName, fileData).Failure? ==>
      var message := ResultOf(fileName, fileData).message;
      Errors(Trace(fileName, fileData)) == [message]
      && Trace(fileName, fileData)[0] == Error(message)
      && Trace(fileName, fileData)[1..] == FinallyEvents(Null, fileName)
  {
    var tried, caught := TryEvents(fileName, fileData), CatchEvents(fileName, fileData);
    var cleanup := FinallyEvents(HandleAtCleanup(fileName, fileData), fileName);
    ErrorsAppend(tried + caught, cleanup);
    ErrorsAppend(tried, caught);
    FinallyReportsNoError(HandleAtCleanup(fileName, fileData), fileName);
    if Validate(fileName, fileData).None? {
      ErrorsOfLogs(tried);
    } else {
      assert caught[1..] == [];
      assert tried + caught + cleanup == [caught[0]] + cleanup;
    }
  }

  /** Whatever the path, the log ends with the "finally executed" line, and
      that line occurs nowhere else. */
  lemma FinallyOnceAndLast(fileName: Value, fileData: Value)
    ensures |Trace(fileName, fileData)| > 0
    ensures Trace(fileName, fileData)[|Trace(fileName, fileData)| - 1] == Log(FinallyExecuted)
    ensures forall i :: 0 <= i < |Trace(fileName, fileData)| - 1
                        ==> Trace(fileName, fileData)[i] != Log(FinallyExecuted)
  {
    TraceShape(fileName, fileData);
  }
}
