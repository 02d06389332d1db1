/**
 * The exceptions the core raises, as tags. The agent's own classes come from
 * src/os_heat_agent/errors.py and the runner modules; the Python built-in
 * exceptions are the ones the code lets escape when a key, an index or a type
 * is not what it expects.
 */
module Errors {

  datatype Error =
    // Python built-ins
    | KeyError(key: string)
    | IndexError
    | TypeError
    | AttributeError
    | NotImplementedError
    | RuntimeError
    | FileNotFoundError(path: string)
    // ValidationError family (errors.py)
    | MissingInputs(options: set<string>)
    | MissingOutputs(outputs: set<string>)
    | NoSuchRunner(tool: string)
    // RunnerError and its subclasses (runners/__init__.py, runners/shell.py, runners/babashka.py)
    | RunnerError
    | NoEnabledRunners
    | MissingRunner
    | SerializerError
}
