/**
  The older formatter (`pandas_type_checks/util.py`): the same message as
  `Errors.BuildExceptionMessage`, under a header that does not name the function.
*/
module Util {
  import opened Text
  import opened Errors

  /** First line of the message of the older formatter. */
  const LegacyHeader: string := "Pandas type error"

  /** Builds the message block by block, as `util.py` does, under the function-free header. */
  method BuildExceptionMessage(argErrors: ArgErrors, retErrors: seq<TypeCheckError>) returns (msg: string)
    ensures msg == Message(LegacyHeader, argErrors, retErrors)
  {
    var execMsg := [LegacyHeader];
    for i := 0 to |argErrors|
      invariant execMsg == [LegacyHeader] + ArgBlocks(argErrors[..i])
    {
      var (argName, typeCheckErrors) := argErrors[i];
      var errorMsgs := TabIndented(typeCheckErrors);
      execMsg := execMsg + ["Type error in argument '" + argName + "':\n" + Join(errorMsgs, "\n")];
      assert argErrors[..i + 1][..i] == argErrors[..i];
    }
    assert argErrors[..|argErrors|] == argErrors;
    if retErrors != [] {
      var errorMsgs := TabIndented(retErrors);
      execMsg := execMsg + ["Type error in return value:\n" + Join(errorMsgs, "\n")];
      assert execMsg == [LegacyHeader] + (ArgBlocks(argErrors) + [ReturnBlock(retErrors)]);
    } else {
      assert ArgBlocks(argErrors) == Blocks(argErrors, retErrors);
    }
    msg := Join(execMsg, "\n");
  }

  /**
    For the same argument and return errors, the two formatters agree on
    everything after the header; the newer header is the older one followed
    by the function name.
  */
  lemma VariantsAgreeAfterHeader(funcName: string, argErrors: ArgErrors, retErrors: seq<TypeCheckError>)
    ensures var named := Message(FunctionHeader(funcName), argErrors, retErrors);
      var legacy := Message(LegacyHeader, argErrors, retErrors);
      && LegacyHeader <= legacy
      && named == LegacyHeader + " in function '" + funcName + "'" + legacy[|LegacyHeader|..]
  {
    MessageLayout(FunctionHeader(funcName), argErrors, retErrors);
    MessageLayout(LegacyHeader, argErrors, retErrors);
    var rest := Prefixed(Blocks(argErrors, retErrors), "\n");
    assert Message(LegacyHeader, argErrors, retErrors)[|LegacyHeader|..] == rest;
  }

  /** One argument with one error: the first expectation of the usage example. */
  lemma OneArgumentOneError(argName: string, e: TypeCheckError)
    ensures Message(LegacyHeader, [(argName, [e])], [])
         == "Pandas type error\n" + "Type error in argument '" + argName + "':\n" + "\t" + e.errorMsg
  {
  }

  /**
    The same two errors for one argument and for the return value: the second
    expectation of the usage example, where the argument block comes first and
    the return block last.
  */
  lemma ArgumentAndReturnErrors(argName: string, e1: TypeCheckError, e2: TypeCheckError)
    ensures Message(LegacyHeader, [(argName, [e1, e2])], [e1, e2])
         == "Pandas type error\n"
          + "Type error in argument '" + argName + "':\n"
          + "\t" + e1.errorMsg + "\n"
          + "\t" + e2.errorMsg + "\n"
          + "Type error in return value:\n"
          + "\t" + e1.errorMsg + "\n"
          + "\t" + e2.errorMsg
  {
    TwoErrorLines(e1, e2);
    SingleArgument(LegacyHeader, argName, [e1, e2]);
    MessageReturnBlock(LegacyHeader, [(argName, [e1, e2])], [e1, e2]);
  }
}
