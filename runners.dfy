/**
 * What the two runner modules share (src/os_heat_agent/runners/__init__.py):
 * the Output record a run returns, the process-execution oracle, and the
 * shape of one step over a configuration dict and the disk.
 */
module Runners {
  import opened Wrappers
  import opened Errors
  import opened Dicts
  import opened Values
  import opened FileSystems

  /** The result of running a command: its captured output and exit status. */
  datatype Output = Output(stdout: string, stderr: string, exitCode: int)

  /**
   * subprocess.run(argv, env=environment, capture_output=True, text=True):
   * an oracle from the argument vector and the child's environment to what
   * the child printed and returned.
   */
  type Exec = (seq<string>, Dict<Value>) -> Output

  /**
   * The effect of one runner step that may raise: the configuration dict and
   * the disk as the step leaves them (also when it raises part-way), and its
   * return value or the error it raised.
   */
  datatype Step<+T> = Step(entries: Dict<Value>, disk: Disk, result: Result<T, Error>)

  /** The registered runner modules (the values of the TOOLS registry). */
  datatype RunnerId = BabashkaTool | ShellTool
}
