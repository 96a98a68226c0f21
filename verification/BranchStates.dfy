/** The branch lifecycle: the six states and the legal edges between them. */
module BranchStates {

  datatype BranchState = Creating | Ready | Failed | Resetting | Destroying | Destroyed

  predicate Legal(from: BranchState, to: BranchState) {
    match from
    case Creating => to == Ready || to == Failed
    case Ready => to == Destroying || to == Resetting
    case Resetting => to == Ready || to == Failed
    case Failed => to == Destroying
    case Destroying => to == Destroyed
    case Destroyed => false
  }

  /** The two states a saga passes through while it is still at work. */
  predicate Transient(s: BranchState) {
    s == Creating || s == Resetting
  }
}
