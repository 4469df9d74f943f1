/** The durable progress of one entry of a batch. */
module Entries {
  datatype EntryState = Pending | Transferring | WaitingNetwork | NeedsReselection | Completed | Failed | Canceled

  datatype Progress = Progress(state: EntryState, offset: nat)
}
