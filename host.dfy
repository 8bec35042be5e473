/**
 * The host-status projection: what the panel reports about the cloud
 * instance, and the Python value that projection is at run time.
 */
module Host {
  import opened Wrappers
  import opened Cloud

  /** The pair `(status, ipv4)` returned for the managed server. */
  datatype HostStatus = HostStatus(status: string, ip: Option<string>)

  const Destroyed := "destroyed"

  /** A missing server is reported as `("destroyed", None)`. */
  function GetHostStatus(server: Option<Server>): (r: HostStatus)
    ensures r == HostStatus(Destroyed, None) <==> server.None?
    ensures r.ip.None? <==> server.None?
    ensures server.Some? ==> r.status == server.value.status && r.ip == Some(server.value.ipv4)
  {
    match server
    case None => HostStatus(Destroyed, None)
    case Some(s) => HostStatus(s.status, Some(s.ipv4))
  }

  /** The few Python values the comparison at the monitor tick involves; `==` on them is structural. */
  datatype PyValue = PyNone | PyStr(s: string) | PyTuple(items: seq<PyValue>)

  /** The host status as the Python tuple the projection returns. */
  function AsPython(h: HostStatus): (v: PyValue)
    ensures v.PyTuple? && |v.items| == 2
  {
    PyTuple([PyStr(h.status), match h.ip case None => PyNone case Some(ip) => PyStr(ip)])
  }

  /** A tuple is never equal to a string, whatever the status says. */
  lemma TupleIsNeverAString(h: HostStatus, s: string)
    ensures AsPython(h) != PyStr(s)
  {
  }
}
