/** The process table: struct proc without the fields that belong to the file system or the hardware. */
module Procs {
  datatype Color = RED | BLACK

  datatype ProcState = UNUSED | USED | SLEEPING | RUNNABLE | RUNNING | ZOMBIE

  /** A pointer to a process is its index in the process table, or NULL. */
  type Ptr = int

  const NULL: Ptr := -1

  datatype Proc = Proc(
    state: ProcState,
    virtualRuntime: int,
    currentRuntime: int,
    maxExecutionTime: int,
    niceVal: int,
    weightVal: int,
    color: Color,
    left: Ptr,
    right: Ptr,
    pParent: Ptr)

  type Table = seq<Proc>
}
