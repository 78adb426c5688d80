/**
 * The ways a compilation can stop. `ExpectedMore` stands for every read past
 * the end of the token stream (the compiler reports those as "expected more
 * tokens"); `Crash` stands for the other runtime type errors the compiler does
 * not catch, which propagate unchanged. `ScriptError` carries no line: the
 * compiler reads the line off the token's text, where there is none.
 */
module Errors {
  import opened Tokenizer

  datatype CompileError =
    | UnexpectedToken(found: string, expected: string, line: Line)
    | UnexpectedBefore(found: string, before: string, line: Line)
    | InvalidFunctionName(name: string, line: Line)
    | LibraryComponentMissing(target: string, lib: string, line: Line)
    | LibraryMissing(lib: string, line: Line)
    | MacroFileNotFound(path: string)
    | UnexpectedValue(found: string, line: Line)
    | MacroNotFound(name: string, line: Line)
    | LocalMacroNotFound(line: Line)
    | UserError(message: string, line: Line)
    | ScriptError
    | TemplateError(template: string)
    | ParentMissing
    | ExpectedMore
    | Crash(what: string)
    | OutOfSteps
}
