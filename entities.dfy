/** The values the routing core works on: connectors, users with their quota
    snapshot, and the routables (a message with its MO or MT context). */
module Entities {

  datatype Option<+T> = None | Some(value: T) {
    function GetOr(default: T): T {
      match this
      case Some(v) => v
      case None => default
    }
  }

  datatype Result<+R, +E> = Ok(value: R) | Err(error: E)

  /** The kind of a delivery endpoint; the HTTP connector's base URL is opaque
      and not modelled. */
  datatype ConnectorKind = Generic | SmppClient | Http

  /** Two connectors are the same connector iff their id and kind agree. */
  datatype Connector = Connector(cid: string, kind: ConnectorKind)

  /** The connector type name used in display strings. */
  function KindName(k: ConnectorKind): (name: string)
    ensures |name| > 0
  {
    match k
    case Generic => "generic"
    case SmppClient => "smppc"
    case Http => "http"
  }

  lemma KindNameInjective(a: ConnectorKind, b: ConnectorKind)
    ensures KindName(a) == KindName(b) <==> a == b
  {
    if a != b {
      assert KindName(a)[0] != KindName(b)[0] || |KindName(a)| != |KindName(b)|;
    }
  }

  datatype Group = Group(gid: int)

  /** A user's MT messaging quotas; `None` is the "unlimited" (or, for the
      early decrement percentage, the "unset") marker. */
  datatype Quotas = Quotas(
    balance: Option<real>,
    earlyDecrementBalancePercent: Option<real>,
    submitSmCount: Option<int>)

  /** A freshly created user has every quota unlimited. */
  const UnlimitedQuotas := Quotas(None, None, None)

  datatype User = User(uid: int, group: Group, username: string, password: string, quotas: Quotas)

  /** A message wrapped with its context: the connector it came in on (MO,
      a deliver_sm) or the user who submitted it (MT, a submit_sm). Only the
      destination address of the PDU is read by the core. */
  datatype Routable =
    | RoutableDeliverSm(connector: Connector, destinationAddr: string)
    | RoutableSubmitSm(user: User, destinationAddr: string)
}
