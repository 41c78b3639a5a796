/** What several modules share. */
module Basics {

  datatype Option<+T> = None | Some(value: T)

  /** enum TaskState of src/internal/task.h. */
  datatype TaskState = Runnable | WaitingIo | WaitingChannel | Finished

  const SIZE_MAX: nat := 0xffff_ffff_ffff_ffff
}
