/**
  The error record produced when type checking a Pandas data frame or series,
  and the formatter that turns all errors found for one call into a single
  multi-line diagnostic (`pandas_type_checks/errors.py`).
*/
module Errors {
  import opened Wrappers
  import opened Text

  /** A Pandas / NumPy data type, known to this model only by its printed name. */
  datatype DType = DType(repr: string)

  /** The failure cases a Pandera validation reports, as rendered rows of a data frame. */
  datatype FailureCases = FailureCases(rows: seq<string>)

  /**
    One type check error. Only the message is required; the other fields
    default to `None` when a caller omits them.
  */
  datatype TypeCheckError = TypeCheckError(
    errorMsg: string,
    expectedType: Option<DType> := None,
    givenType: Option<DType> := None,
    columnName: Option<string> := None,
    panderaFailureCases: Option<FailureCases> := None)

  /** The type check errors found per argument, in the order the arguments were checked. */
  type ArgErrors = seq<(string, seq<TypeCheckError>)>

  /** A record built from a message alone keeps it verbatim and leaves every optional field unset. */
  lemma MessageOnlyError(msg: string)
    ensures TypeCheckError(msg).errorMsg == msg
    ensures TypeCheckError(msg).expectedType == None && TypeCheckError(msg).givenType == None
    ensures TypeCheckError(msg).columnName == None && TypeCheckError(msg).panderaFailureCases == None
  {
  }

  /** A record built with every field given stores each of them verbatim. */
  lemma FullError(msg: string, expected: DType, given: DType, column: string, cases: FailureCases)
    ensures var e := TypeCheckError(msg, Some(expected), Some(given), Some(column), Some(cases));
      e.errorMsg == msg && e.expectedType == Some(expected) && e.givenType == Some(given)
      && e.columnName == Some(column) && e.panderaFailureCases == Some(cases)
  {
  }

  // ---------------------------------------------------------------------------
  // Specification of the message

  /** First line of the message: names the function whose checks failed. */
  function FunctionHeader(funcName: string): string
  {
    "Pandas type error in function '" + funcName + "'"
  }

  /** One tab-indented segment per error, in list order. */
  function TabIndented(errors: seq<TypeCheckError>): (r: seq<string>)
    ensures |r| == |errors|
    ensures forall i :: 0 <= i < |errors| ==> r[i] == "\t" + errors[i].errorMsg
  {
    if errors == [] then []
    else TabIndented(errors[..|errors| - 1]) + ["\t" + errors[|errors| - 1].errorMsg]
  }

  /** The segments of a list of errors, joined by newlines. */
  function ErrorLines(errors: seq<TypeCheckError>): string
  {
    Join(TabIndented(errors), "\n")
  }

  function ArgBlock(argName: string, errors: seq<TypeCheckError>): string
  {
    "Type error in argument '" + argName + "':\n" + ErrorLines(errors)
  }

  function ReturnBlock(errors: seq<TypeCheckError>): string
  {
    "Type error in return value:\n" + ErrorLines(errors)
  }

  /** One block per argument entry, in entry order. */
  function ArgBlocks(argErrors: ArgErrors): (r: seq<string>)
    ensures |r| == |argErrors|
    ensures forall i :: 0 <= i < |argErrors| ==> r[i] == ArgBlock(argErrors[i].0, argErrors[i].1)
  {
    if argErrors == [] then []
    else
      var last := argErrors[|argErrors| - 1];
      ArgBlocks(argErrors[..|argErrors| - 1]) + [ArgBlock(last.0, last.1)]
  }

  /** The blocks after the header: every argument block, then the return block if there are return errors. */
  function Blocks(argErrors: ArgErrors, retErrors: seq<TypeCheckError>): (r: seq<string>)
    ensures |r| == |argErrors| + (if retErrors == [] then 0 else 1)
    ensures forall i :: 0 <= i < |argErrors| ==> r[i] == ArgBlock(argErrors[i].0, argErrors[i].1)
    ensures retErrors != [] ==> r[|r| - 1] == ReturnBlock(retErrors)
  {
    ArgBlocks(argErrors) + (if retErrors == [] then [] else [ReturnBlock(retErrors)])
  }

  /** The whole message: the header and every block, joined by newlines. */
  function Message(header: string, argErrors: ArgErrors, retErrors: seq<TypeCheckError>): string
  {
    Join([header] + Blocks(argErrors, retErrors), "\n")
  }

  // ---------------------------------------------------------------------------
  // The formatter

  /** Builds the message for a failed call of `funcName`, block by block as `errors.py` does. */
  method BuildExceptionMessage(funcName: string, argErrors: ArgErrors, retErrors: seq<TypeCheckError>)
    returns (msg: string)
    ensures msg == Message(FunctionHeader(funcName), argErrors, retErrors)
  {
    var execMsg := [FunctionHeader(funcName)];
    for i := 0 to |argErrors|
      invariant execMsg == [FunctionHeader(funcName)] + ArgBlocks(argErrors[..i])
    {
      var (argName, typeCheckErrors) := argErrors[i];
      var errorMsgs := TabIndented(typeCheckErrors);
      execMsg := execMsg + ["Type error in argument '" + argName + "':\n" + Join(errorMsgs, "\n")];
      assert argErrors[..i + 1][..i] == argErrors[..i];
    }
    assert argErrors[..|argErrors|] == argErrors;
    if retErrors != [] {
      var errorMsgs := TabIndented(retErrors);
      execMsg := execMsg + ["Type error in return value:\n" + Join(errorMsgs, "\n")];
      assert execMsg == [FunctionHeader(funcName)] + (ArgBlocks(argErrors) + [ReturnBlock(retErrors)]);
    } else {
      assert ArgBlocks(argErrors) == Blocks(argErrors, retErrors);
    }
    msg := Join(execMsg, "\n");
  }

  // ---------------------------------------------------------------------------
  // Properties of the message

  /** The message is the header followed by every block, each on a new line. */
  lemma MessageLayout(header: string, argErrors: ArgErrors, retErrors: seq<TypeCheckError>)
    ensures Message(header, argErrors, retErrors) == header + Prefixed(Blocks(argErrors, retErrors), "\n")
  {
    JoinFirstRest(header, Blocks(argErrors, retErrors), "\n");
  }

  lemma PrefixedEmptyOnlyIfNoParts(parts: seq<string>)
    ensures Prefixed(parts, "\n") == "" <==> parts == []
  {
  }

  /**
    The message always starts with the header, and it is exactly the header
    if and only if there are no argument entries and no return errors.
  */
  lemma MessageStartsWithHeader(header: string, argErrors: ArgErrors, retErrors: seq<TypeCheckError>)
    ensures header <= Message(header, argErrors, retErrors)
    ensures Message(header, argErrors, retErrors) == header <==> argErrors == [] && retErrors == []
  {
    MessageLayout(header, argErrors, retErrors);
    PrefixedEmptyOnlyIfNoParts(Blocks(argErrors, retErrors));
    var msg := Message(header, argErrors, retErrors);
    if msg == header {
      assert Prefixed(Blocks(argErrors, retErrors), "\n") == msg[|header|..];
    }
  }

  /** Each new argument entry adds its block after all earlier ones: blocks follow insertion order. */
  lemma MessageAppendArgument(header: string, argErrors: ArgErrors, argName: string, errors: seq<TypeCheckError>)
    ensures Message(header, argErrors + [(argName, errors)], [])
         == Message(header, argErrors, []) + "\n" + ArgBlock(argName, errors)
  {
    var args' := argErrors + [(argName, errors)];
    assert args'[..|args'| - 1] == argErrors;
    assert Blocks(args', []) == Blocks(argErrors, []) + [ArgBlock(argName, errors)];
    assert [header] + Blocks(args', []) == ([header] + Blocks(argErrors, [])) + [ArgBlock(argName, errors)];
    JoinAppend([header] + Blocks(argErrors, []), ArgBlock(argName, errors), "\n");
  }

  lemma ArgBlocksConcat(first: ArgErrors, second: ArgErrors)
    ensures ArgBlocks(first + second) == ArgBlocks(first) + ArgBlocks(second)
  {
  }

  lemma MessageWithoutReturn(header: string, argErrors: ArgErrors)
    ensures Message(header, argErrors, []) == header + Prefixed(ArgBlocks(argErrors), "\n")
  {
    assert Blocks(argErrors, []) == ArgBlocks(argErrors);
    MessageLayout(header, argErrors, []);
  }

  /**
    Splitting the argument entries anywhere splits the message there: the
    blocks of the later entries follow those of the earlier ones, in order.
  */
  lemma MessageArgumentsConcat(header: string, first: ArgErrors, second: ArgErrors)
    ensures Message(header, first + second, [])
         == Message(header, first, []) + Prefixed(ArgBlocks(second), "\n")
  {
    var p1, p2 := Prefixed(ArgBlocks(first), "\n"), Prefixed(ArgBlocks(second), "\n");
    assert Prefixed(ArgBlocks(first + second), "\n") == p1 + p2 by {
      ArgBlocksConcat(first, second);
      PrefixedConcat(ArgBlocks(first), ArgBlocks(second), "\n");
    }
    assert Message(header, first + second, []) == header + (p1 + p2) by {
      MessageWithoutReturn(header, first + second);
    }
    assert Message(header, first, []) == header + p1 by {
      MessageWithoutReturn(header, first);
    }
  }

  /**
    The return block is present if and only if there are return errors, and it
    comes after every argument block.
  */
  lemma MessageReturnBlock(header: string, argErrors: ArgErrors, retErrors: seq<TypeCheckError>)
    ensures Message(header, argErrors, retErrors)
         == Message(header, argErrors, []) + (if retErrors == [] then "" else "\n" + ReturnBlock(retErrors))
  {
    if retErrors != [] {
      assert [header] + Blocks(argErrors, retErrors) == ([header] + Blocks(argErrors, [])) + [ReturnBlock(retErrors)];
      JoinAppend([header] + Blocks(argErrors, []), ReturnBlock(retErrors), "\n");
    }
  }

  /**
    Each error contributes one tab-indented segment, in list order, and the
    segments are separated by single newlines.
  */
  lemma ErrorLinesInOrder(errors: seq<TypeCheckError>, e: TypeCheckError)
    ensures ErrorLines([]) == ""
    ensures ErrorLines([e]) == "\t" + e.errorMsg
    ensures errors != [] ==> ErrorLines(errors + [e]) == ErrorLines(errors) + "\n" + "\t" + e.errorMsg
  {
  }

  /** The joined segments are the first segment followed by each later one on its own line. */
  lemma ErrorLinesLayout(errors: seq<TypeCheckError>)
    requires errors != []
    ensures ErrorLines(errors) == "\t" + errors[0].errorMsg + Prefixed(TabIndented(errors[1..]), "\n")
  {
    assert TabIndented(errors) == ["\t" + errors[0].errorMsg] + TabIndented(errors[1..]);
    JoinFirstRest("\t" + errors[0].errorMsg, TabIndented(errors[1..]), "\n");
  }

  /** An argument entry without errors is not filtered: its header line is followed by an empty line. */
  lemma EmptyArgumentEntry(header: string, argErrors: ArgErrors, argName: string)
    ensures ArgBlock(argName, []) == "Type error in argument '" + argName + "':\n"
    ensures Message(header, argErrors + [(argName, [])], [])
         == Message(header, argErrors, []) + "\n" + ("Type error in argument '" + argName + "':\n")
  {
    assert ErrorLines([]) == "";
    MessageAppendArgument(header, argErrors, argName, []);
  }

  /** The errors of the last block of the message: the return errors if any, else the last argument's. */
  function LastBlockErrors(argErrors: ArgErrors, retErrors: seq<TypeCheckError>): seq<TypeCheckError>
    requires argErrors != [] || retErrors != []
  {
    if retErrors != [] then retErrors else argErrors[|argErrors| - 1].1
  }

  lemma ErrorLinesEndWithLast(errors: seq<TypeCheckError>)
    requires errors != []
    ensures EndsWith(ErrorLines(errors), "\t" + errors[|errors| - 1].errorMsg)
  {
  }

  /**
    When the last block has errors, the message ends with the last of them,
    tab-indented: nothing (in particular no newline) is appended after it.
  */
  lemma MessageEndsWithLastError(header: string, argErrors: ArgErrors, retErrors: seq<TypeCheckError>)
    requires argErrors != [] || retErrors != []
    requires LastBlockErrors(argErrors, retErrors) != []
    ensures var last := LastBlockErrors(argErrors, retErrors);
      EndsWith(Message(header, argErrors, retErrors), "\t" + last[|last| - 1].errorMsg)
  {
    var last := LastBlockErrors(argErrors, retErrors);
    var tail := "\t" + last[|last| - 1].errorMsg;
    ErrorLinesEndWithLast(last);
    if retErrors != [] {
      MessageReturnBlock(header, argErrors, retErrors);
      var pre := Message(header, argErrors, []) + "\n";
      assert Message(header, argErrors, retErrors) == pre + ReturnBlock(retErrors);
      EndsWithAfter("Type error in return value:\n", ErrorLines(retErrors), tail);
      EndsWithAfter(pre, ReturnBlock(retErrors), tail);
    } else {
      var front := argErrors[..|argErrors| - 1];
      var a := argErrors[|argErrors| - 1];
      assert argErrors == front + [a];
      MessageAppendArgument(header, front, a.0, a.1);
      var pre := Message(header, front, []) + "\n";
      assert Message(header, argErrors, retErrors) == pre + ArgBlock(a.0, a.1);
      EndsWithAfter("Type error in argument '" + a.0 + "':\n", ErrorLines(a.1), tail);
      EndsWithAfter(pre, ArgBlock(a.0, a.1), tail);
    }
  }

  /**
    The message has no trailing newline when the last block has errors and
    the last error's message does not itself end with a newline.
  */
  lemma NoTrailingNewline(header: string, argErrors: ArgErrors, retErrors: seq<TypeCheckError>)
    requires argErrors != [] || retErrors != []
    requires LastBlockErrors(argErrors, retErrors) != []
    requires var last := LastBlockErrors(argErrors, retErrors);
      !EndsWith(last[|last| - 1].errorMsg, "\n")
    ensures var msg := Message(header, argErrors, retErrors);
      msg != [] && msg[|msg| - 1] != '\n'
  {
    var last := LastBlockErrors(argErrors, retErrors);
    var m := last[|last| - 1].errorMsg;
    var msg := Message(header, argErrors, retErrors);
    MessageEndsWithLastError(header, argErrors, retErrors);
    assert msg[|msg| - 1] == ("\t" + m)[|"\t" + m| - 1];
    if m != [] {
      assert m[|m| - 1..] == [m[|m| - 1]];
    }
  }

  lemma TwoErrorLines(e1: TypeCheckError, e2: TypeCheckError)
    ensures ErrorLines([e1, e2]) == "\t" + e1.errorMsg + "\n" + "\t" + e2.errorMsg
  {
  }

  lemma SingleArgument(header: string, argName: string, errors: seq<TypeCheckError>)
    ensures Message(header, [(argName, errors)], []) == header + "\n" + ArgBlock(argName, errors)
  {
  }

  /**
    One argument with two errors: the header line, the argument's line, then
    each error on its own tab-indented line (the shape of the Pandera
    argument-error test).
  */
  lemma OneArgumentTwoErrors(funcName: string, argName: string, e1: TypeCheckError, e2: TypeCheckError)
    ensures Message(FunctionHeader(funcName), [(argName, [e1, e2])], [])
         == "Pandas type error in function '" + funcName + "'\n"
          + "Type error in argument '" + argName + "':\n"
          + "\t" + e1.errorMsg + "\n"
          + "\t" + e2.errorMsg
  {
  }
}
