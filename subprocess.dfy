/** The child process as the two managers hold it through asyncio's
    subprocess API: a handle with a pid, the calls made on that handle, and
    whether the child has exited. Creating the process is an outcome given to
    the model, not something it performs. */
module Subprocess {

  /** The calls a manager makes on `asyncio.subprocess.Process`:
      `terminate()`, `kill()`, `wait()`, and `wait()` under
      `asyncio.wait_for` with a timeout in seconds. */
  datatype ProcessCall = Terminate | Kill | Wait | WaitAtMost(seconds: nat)

  /** A launched child. `calls` lists, oldest first, every call made on its
      handle; `exited` says whether a completed wait has seen it exit. */
  datatype Child = Child(pid: nat, calls: seq<ProcessCall>, exited: bool)

  /** The outcome of `asyncio.create_subprocess_exec`: it raised, or it
      started a child with the given pid whose standard output will carry the
      given lines (each as `readline()` returns it), in order, then end. */
  datatype Launch = LaunchFailed | Launched(pid: nat, output: seq<string>)

  /** A child freshly started by a launch, with no calls on its handle yet. */
  function Spawned(launch: Launch): Child
    requires launch.Launched?
  {
    Child(launch.pid, [], false)
  }
}
