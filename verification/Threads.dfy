/** Thread names shared by the concurrent protocols. */
module Threads {

  /** A thread of the program, or the goroutine that serves one channel of its Notify call. */
  datatype Thread = Main(id: nat) | Sender(owner: nat, channel: nat)
}
