/** Field selection from the output of `tailscale status --json` and the
    status page built from it. */
module Status {
  import opened Wrappers
  import Json

  /** Top-level member holding the node's addresses. */
  const AddressKey := "TailscaleIPs"
  /** Top-level member holding the client's state. */
  const StateKey := "BackendState"

  /** Why a request cannot be answered: the `.unwrap()` that would panic. */
  datatype Failure = MissingBackendState | MissingAddress

  /** The status member holds an array whose first element is a string. */
  predicate HasFirstAddress(status: Json.Value)
  {
    && status.Object?
    && AddressKey in status.members
    && status.members[AddressKey].Array?
    && |status.members[AddressKey].items| > 0
    && status.members[AddressKey].items[0].String?
  }

  /** `v["TailscaleIPs"][0].as_str()`, read by every handler. */
  function FirstAddress(status: Json.Value): (r: Option<string>)
    ensures r.Some? <==> HasFirstAddress(status)
    ensures r.Some? ==> r.value == status.members[AddressKey].items[0].s
  {
    Json.AsStr(Json.Element(Json.Member(status, AddressKey), 0))
  }

  /** `v["BackendState"].as_str()`, read by the status page. */
  function BackendState(status: Json.Value): (r: Option<string>)
    ensures r.Some? <==> status.Object? && StateKey in status.members && status.members[StateKey].String?
    ensures r.Some? ==> r.value == status.members[StateKey].s
  {
    Json.AsStr(Json.Member(status, StateKey))
  }

  /** Members other than the address list never change the first address. */
  lemma FirstAddressIgnoresOtherMembers(members: map<string, Json.Value>, key: string, v: Json.Value)
    requires key != AddressKey
    ensures FirstAddress(Json.Object(members[key := v])) == FirstAddress(Json.Object(members))
    ensures key != StateKey ==> BackendState(Json.Object(members[key := v])) == BackendState(Json.Object(members))
  {
  }

  /** When the address list is a list of strings, the first one is chosen,
      and an empty list is a failure, not a parse error. */
  lemma FirstOfAddressList(members: map<string, Json.Value>, addrs: seq<string>)
    requires AddressKey in members
    requires members[AddressKey] == Json.Array(seq(|addrs|, i requires 0 <= i < |addrs| => Json.String(addrs[i])))
    ensures FirstAddress(Json.Object(members)) == if |addrs| == 0 then None else Some(addrs[0])
  {
  }

  /** CSS colour for a backend state: green while running, yellow while
      starting, red when stopped and for any state the program does not
      know. */
  function StatusColour(state: string): (colour: string)
    ensures colour in {"green", "yellow", "red"}
    ensures colour == "green" <==> state == "Running"
    ensures colour == "yellow" <==> state == "Starting"
    ensures colour == "red" <==> state != "Running" && state != "Starting"
  {
    if state == "Running" then "green"
    else if state == "Starting" then "yellow"
    else if state == "Stopped" then "red"
    else "red"
  }
}
