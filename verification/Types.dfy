/** Values shared by the models: thread handles, return values, thread states
    and the fixed parameters of one job. */
module Types {

  datatype Option<+T> = None | Some(value: T)

  /** `dthread_t`: an index into the global thread table and the sequence
      number the slot carried when the thread was created. */
  datatype Handle = Handle(idx: nat, gen: nat)

  /** `dthread_argret_t`, reduced to its type tag and an opaque payload. */
  datatype Ret = NoData | Data(payload: nat) | Canceled

  // pth_state / finalstate values
  const LT_STARTING: nat := 1
  const LT_RUNNING: nat := 2
  const LT_RETURNED: nat := 3
  const LT_EXITED: nat := 4
  const LT_CANCELED: nat := 5
  const LT_CLEANUP: nat := 6

  /** LT_NEED_FINALSTATE */
  predicate NeedFinalState(st: nat) { st <= LT_RUNNING }

  // the errno values the manager puts in replies (0 is success)
  const ESRCH: nat := 3
  const EIO: nat := 5
  const EAGAIN: nat := 11
  const EINVAL: nat := 22

  const TWO32: nat := 0x1_0000_0000

  /** World size, size of the thread tables, size of the dispatch table. */
  datatype Config = Config(N: nat, M: nat, ndsps: nat) {
    ghost predicate Valid() { 1 <= N < 0x8000_0000 && 1 <= M && 1 <= ndsps }
  }
}
