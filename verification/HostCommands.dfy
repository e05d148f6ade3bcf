/** What the two Wi-Fi scripts share: command outcomes, the signal latch, and address listings. */
module HostCommands {
  import RouteIsolation

  datatype Option<+T> = None | Some(value: T)

  /** A call returns, raises the script's own error, or surfaces a latched signal. */
  datatype Outcome<+T> = Done(value: T) | Failed | Interrupted(signum: nat) {
    /** The same exception for another type; a value that was refused raises the own error. */
    function Propagate<U>(): Outcome<U> {
      match this
      case Interrupted(signum) => Interrupted(signum)
      case _ => Failed
    }
  }

  datatype Interface = Wifi | Wired | Other(index: nat)

  datatype AddressRecord = AddressRecord(interface: Interface, ip: nat, prefixLen: nat)

  const HOST_IP: nat := RouteIsolation.HOST_IP

  function Owners(records: seq<AddressRecord>): seq<AddressRecord> {
    if records == [] then []
    else (if records[0].ip == HOST_IP then [records[0]] else []) + Owners(records[1..])
  }

  function AddressesOn(records: seq<AddressRecord>, interface: Interface): seq<AddressRecord> {
    if records == [] then []
    else (if records[0].interface == interface then [records[0]] else []) + AddressesOn(records[1..], interface)
  }

  /** The host address has one owner, on this interface, which holds no other address. */
  predicate ExactOwner(records: seq<AddressRecord>, interface: Interface) {
    && Owners(records) == [AddressRecord(interface, HOST_IP, 24)]
    && AddressesOn(records, interface) == [AddressRecord(interface, HOST_IP, 24)]
  }

  /** Keeps the first signal; raising is suppressed while deferred. */
  class SignalLatch {
    var pending: Option<nat>
    var deferDepth: nat

    constructor ()
      ensures pending == None && deferDepth == 0
    {
      pending, deferDepth := None, 0;
    }

    method Capture(signum: nat)
      modifies this`pending
      ensures pending == if old(pending).None? then Some(signum) else old(pending)
    {
      if pending.None? {
        pending := Some(signum);
      }
    }

    /** The signal that surfaces at this point, if any. */
    function Raises(): Option<nat>
      reads this
    {
      if deferDepth == 0 then pending else None
    }
  }
}
