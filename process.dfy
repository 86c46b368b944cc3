/**
 * What a finished `std::process::Command` hands back to the code that ran
 * it: whether it exited successfully, and its stdout and stderr decoded as
 * text.  Running the command is not part of this model; every operation
 * that runs one takes its outcome as an input.
 */
module Process {
  datatype CmdOutput = CmdOutput(success: bool, stdout: string, stderr: string)
}
