# pandas-type-checks: the error record and the error-message formatter

This project models the part of `pandas_type_checks` that has real logic. That
part is the record describing one type check error (`PandasTypeCheckError`) and
the formatter that combines all errors for one call into a single multi-line
message. It proves what that message looks like.

- `wrappers.dfy` (`Wrappers`): `Option`, for Python's `Optional[...]`.
- `text.dfy` (`Text`): Python's `sep.join(parts)` as `Join`. `Prefixed` is the
  reference shape: every part preceded by the separator.
- `errors.dfy` (`Errors`): models `src/pandas_type_checks/errors.py`.
  - `TypeCheckError` is the record. Its four optional fields default to `None`,
    as the constructor's keyword arguments do.
  - `Message(header, argErrors, retErrors)` specifies the message: the header,
    then one block per argument entry, then the return block, joined by newlines.
  - `BuildExceptionMessage` is the formatter written as `errors.py` writes it: a
    loop appends one block per argument entry, then the return block if there
    are return errors, then the list is joined. It is proved to produce
    `Message(FunctionHeader(funcName), ...)`.
  - The lemmas prove the layout of that message.
- `util.dfy` (`Util`): models the older formatter in `src/pandas_type_checks/util.py`.
  Its header is `Pandas type error`. It is proved equal to the new formatter after
  the header, and the usage-example test's expected texts are proved for any
  error messages.

The Python dictionary from argument name to errors becomes a sequence of
`(name, errors)` pairs in insertion order. Dafny sequences are values, so the
formatter cannot modify its inputs. Its result is a function of them, so equal
inputs give equal messages.

In this snapshot the type markers' `type_check` bodies are empty
(`core.py:20-21`, `core.py:55-56`) and the decorator only forwards the call
(`decorator.py:9-11`), so there is no column comparison or call-binding logic
to model.

## Model

| member | source | states |
|---|---|---|
| `Errors.MessageOnlyError` | src/pandas_type_checks/errors.py:22-31 | A record built from a message alone stores the message verbatim. Expected type, given type, column name and Pandera failure cases are all `None`. |
| `Errors.FullError` | src/pandas_type_checks/errors.py:22-31 | A record built with every field given stores each one verbatim. |
| `Errors.TabIndented` | src/pandas_type_checks/errors.py:54 | There is exactly one segment per error, in list order. Segment i is a tab followed by error i's message. |
| `Errors.ArgBlocks` | src/pandas_type_checks/errors.py:53-55 | There is exactly one block per argument entry, in entry order. Block i is `Type error in argument '<name>':` and a newline, then that entry's joined segments. |
| `Errors.Blocks` | src/pandas_type_checks/errors.py:53-60 | The argument blocks come first, in order. One more block follows if and only if the return list is non-empty, and it is the return block. |
| `Errors.BuildExceptionMessage` | src/pandas_type_checks/errors.py:34-62 | The loop-built message equals the specified message under the header `Pandas type error in function '<func_name>'`. |
| `Errors.MessageLayout` | src/pandas_type_checks/errors.py:50-62 | The message is the header, then each block preceded by a newline. |
| `Errors.MessageStartsWithHeader` | src/pandas_type_checks/errors.py:50-62 | The message starts with the header. It equals the header exactly, with no trailing newline, if and only if the argument map and the return list are both empty. |
| `Errors.MessageAppendArgument` | src/pandas_type_checks/errors.py:53-55 | Adding an argument entry appends a newline and that entry's block after all earlier blocks, so blocks follow insertion order. |
| `Errors.MessageArgumentsConcat` | src/pandas_type_checks/errors.py:53-55 | For entries `first + second`, the message is the message for `first`, then each block of `second`, in order, each preceded by a newline. |
| `Errors.MessageReturnBlock` | src/pandas_type_checks/errors.py:58-60 | With no return errors, the message is the argument-only message. Otherwise it is that message, a newline, and the return block, which comes after every argument block. |
| `Errors.ErrorLinesInOrder` | src/pandas_type_checks/errors.py:54-55 | No errors give empty text. One error gives a tab and its message. Each further error appends a newline, a tab and its message. |
| `Errors.ErrorLinesLayout` | src/pandas_type_checks/errors.py:54-55 | A non-empty error list gives the first tab-indented segment, then every later segment preceded by a newline. |
| `Errors.EmptyArgumentEntry` | src/pandas_type_checks/errors.py:53-55 | An entry with no errors is not filtered out. Its block is the argument header line followed by a newline, so the message gets an empty line. |
| `Errors.ErrorLinesEndWithLast` | src/pandas_type_checks/errors.py:54-55 | Joined segments end with a tab and the last error's message. |
| `Errors.MessageEndsWithLastError` | src/pandas_type_checks/errors.py:55-62 | If the last block has errors, the message ends with a tab and the last error's message. |
| `Errors.NoTrailingNewline` | src/pandas_type_checks/errors.py:58-62 | If the last block has errors and the last message does not end with a newline, the message does not end with a newline. |
| `Errors.TwoErrorLines` | src/pandas_type_checks/errors.py:54-55 | Two errors give the first message tab-indented, a newline, then the second message tab-indented. |
| `Errors.SingleArgument` | src/pandas_type_checks/errors.py:50-55 | One argument entry and no return errors give the header, a newline, and that entry's block. |
| `Errors.OneArgumentTwoErrors` | tests/test_pandera_support.py:61-65 | One argument with two errors gives the exact text the Pandera argument-error test expects, for any two messages. |
| `Text.Join` | src/pandas_type_checks/errors.py:62 | `sep.join(parts)`: no parts give the empty string and one part gives that part unchanged. Longer joins are characterised by `Text.JoinFirstRest` and `Text.JoinAppend`. |
| `Text.JoinFirstRest` | src/pandas_type_checks/errors.py:62 | Joining a first part and the rest gives the first part, then each later part preceded by the separator. |
| `Text.JoinAppend` | src/pandas_type_checks/errors.py:55 | Appending a part to a non-empty join adds exactly the separator and that part. |
| `Util.BuildExceptionMessage` | src/pandas_type_checks/util.py:6-32 | The older formatter's loop-built message equals the specified message under the header `Pandas type error`. |
| `Util.VariantsAgreeAfterHeader` | src/pandas_type_checks/util.py:20-32 | For the same inputs, both formatters' messages are identical after the header. The newer message is the older header, then ` in function '<func_name>'`, then the older message's remainder. |
| `Util.OneArgumentOneError` | tests/test_usage_examples.py:44-47 | One argument with one error gives `Pandas type error`, the argument line, and the tab-indented message. |
| `Util.ArgumentAndReturnErrors` | tests/test_usage_examples.py:56-63 | Two errors for one argument and the same two for the return value give the exact text the usage test expects. The argument block comes first and the return block last. |

## Left out

- The four type markers of `src/pandas_type_checks/core.py` are not modelled. They only store the `dtype` and `name` they are given, and their `type_check` bodies are empty. That includes a `dtype` holding a Pandera schema rather than a data type, which nothing in this model represents. The formatter does not use the markers.
- The decorator in `src/pandas_type_checks/decorator.py` is not modelled. It only calls the wrapped function, with no checks, binding, configuration or raise/log policy.
- The Pandera adapter in `src/pandas_type_checks/pandera_support.py` is not modelled. It depends on how Pandera's `SchemaErrors` objects render and compare.
- Configuration, logging and the decorator exception are not part of this model. They are imported in `__init__.py` but not defined in these files. `util.py` imports the error record from `core.py`, which does not define it; this model uses the `errors.py` record for both formatters.
- Data types and Pandera failure cases are opaque. A dtype is its printed name (`DType`). Failure cases are rendered rows (`FailureCases`). The formatter reads neither.
- The formatter does not need the argument map's keys to be distinct, so the model does not require it.
- No property counts lines of the message, because error messages may themselves contain newlines.
