/** Names that the runtime generates: of processes, and of monitors and calls. */
module Identifiers {
  type Pid(==, !new)
  type Ref(==, !new)
}
