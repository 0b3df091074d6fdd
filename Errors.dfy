/** The error codes the Dynamic type raises, and an exception as a code with its message. */
module Errors {

  datatype ErrorCode =
    | IllegalColumn
    | NumberOfArgumentsDoesntMatch
    | UnexpectedAstStructure

  datatype Exception = Exception(code: ErrorCode, message: string)
}
