/** The types that the vm package's interface passes between the manager and
    a backend. The package itself (its registry of backends, `Register` and
    `Create`) is not part of this model: its `Create` is a function parameter
    of the manager's instance loop. */
module Vm {
  import opened Wrappers

  /** The syscall allow-set handed to every instance: `None` is Go's nil map
      (no filtering), `Some(s)` the map whose keys are exactly `s` (every value
      the manager stores in it is `true`). */
  type SyscallSet = Option<set<int>>

  /** `vm.Create(type, workdir, syscalls, port, index, params)`: makes one
      instance from a backend name, a working directory, the allow-set, the
      manager's port, the instance index and the marshalled parameter bag. */
  type Creator<I> = (string, string, SyscallSet, int, int, seq<bv8>) -> Result<I, string>
}
