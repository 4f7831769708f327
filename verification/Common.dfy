// What the host-side models share.
module Common {
  import opened Wrappers

  type VmId = string

  type CmdId = string

  /** Machine names by id; an empty name counts as none. */
  type Names = map<VmId, string>

  /** Besides the host's own errors: a failed assertion, a key, word or result that cannot be read, an attribute that
      is not there. */
  datatype HostError = NoSuchVirtualMachine | NotRegistered | AssertionFailed | KeyMissing | AttributeMissing

  function NameOf(names: Names, id: VmId): Option<string> {
    if id in names && names[id] != "" then Some(names[id]) else None
  }

  predicate Known(names: Names, id: VmId) {
    NameOf(names, id).Some?
  }
}
