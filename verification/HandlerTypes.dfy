// Names shared by the two scheduling policies of AsyncFunctionHandler.
module HandlerTypes {
  type Tid = nat

  // Arguments of one callback invocation.
  datatype Job = Job(time: int, period: int)

  // How a callback invocation ends.
  datatype Outcome = Returns(value: int) | Throws(error: nat)

  // The statement of the control thread.
  datatype ControlPc =
    | Idle
    | StopStore            // stop_async_callback_ = true, no lock held
    | StopLock
    | StopUnlock           // end of the empty critical section
    | StopNotify
    | Join
    | ResetLock(starting: bool)
    | ResetFlags(starting: bool)
    | ResetError(starting: bool)
    | ResetUnlock(starting: bool)
    | Spawn

  predicate ControlHolds(pc: ControlPc) {
    pc.StopUnlock? || pc.ResetFlags? || pc.ResetError? || pc.ResetUnlock?
  }

  // The control thread is between its store of the stop flag and the join.
  predicate StopUnderWay(pc: ControlPc) {
    pc.StopLock? || pc.StopUnlock? || pc.StopNotify? || pc.Join?
  }

  // The control thread has taken the mutex in stop_thread.
  predicate StopSeen(pc: ControlPc) {
    pc.StopUnlock? || pc.StopNotify? || pc.Join?
  }

  // The control thread is inside start_thread.
  predicate Starting(pc: ControlPc) {
    pc.Spawn? || ((pc.ResetLock? || pc.ResetFlags? || pc.ResetError? || pc.ResetUnlock?) && pc.starting)
  }
}
