/** The request handlers that answer from the status JSON: the status page
    and the three configuration-profile downloads. */
module Handlers {
  import opened Wrappers
  import Json
  import Plist
  import Status
  import Profile

  /** The three values the status page interpolates, in page order. */
  datatype StatusView = StatusView(colour: string, state: string, address: string)

  /** `GET /tailscale`. The state is read before the address, so a status
      lacking both fails on the state. */
  function StatusPage(status: Json.Value): (r: Result<StatusView, Status.Failure>)
    ensures r.Ok? <==> Status.BackendState(status).Some? && Status.HasFirstAddress(status)
    ensures r.Err? ==> (r.error == Status.MissingBackendState <==> Status.BackendState(status).None?)
    ensures r.Ok? ==> r.value.state == status.members[Status.StateKey].s
    ensures r.Ok? ==> r.value.address == status.members[Status.AddressKey].items[0].s
    ensures r.Ok? ==> (r.value.colour == "green" <==> r.value.state == "Running")
    ensures r.Ok? ==> (r.value.colour == "yellow" <==> r.value.state == "Starting")
    ensures r.Ok? ==> (r.value.colour == "red" <==> r.value.state != "Running" && r.value.state != "Starting")
  {
    match Status.BackendState(status)
    case None => Err(Status.MissingBackendState)
    case Some(state) =>
      match Status.FirstAddress(status)
      case None => Err(Status.MissingAddress)
      case Some(address) => Ok(StatusView(Status.StatusColour(state), state, address))
  }

  /** A profile download: the media type and the document. */
  datatype Response = Response(contentType: string, body: Plist.Value)

  /** `GET /ios/tailscale-{dot,doh,proxy}.mobileconfig`, with the UUIDs the
      handler would generate passed in. It fails exactly when the status
      has no first address; otherwise the document is the kind's profile for
      that address and those UUIDs, which carries each of them in its slot,
      under the same media type for every kind. */
  function ProfileResponse(kind: Profile.Kind, status: Json.Value, uuids: seq<string>): (r: Result<Response, Status.Failure>)
    requires |uuids| == Profile.SlotCount(kind)
    ensures r.Ok? <==> Status.HasFirstAddress(status)
    ensures r.Err? ==> r.error == Status.MissingAddress
    ensures r.Ok? ==> r.value.contentType == "application/x-apple-aspen-config"
    ensures r.Ok? ==> r.value.body == Profile.Render(kind, status.members[Status.AddressKey].items[0].s, uuids)
    ensures r.Ok? ==> Profile.SlotContent(r.value.body, Profile.AddressSlot(kind))
                      == Some(status.members[Status.AddressKey].items[0].s)
    ensures r.Ok? ==> forall i :: 0 <= i < |uuids| ==>
                      Profile.SlotContent(r.value.body, Profile.UuidSlots(kind)[i]) == Some(uuids[i])
    ensures r.Ok? ==> Plist.WellFormed(r.value.body)
  {
    match Status.FirstAddress(status)
    case None => Err(Status.MissingAddress)
    case Some(addr) =>
      Profile.RenderFillsSlots(kind, addr, uuids);
      Profile.RenderWellFormed(kind, addr, uuids);
      Ok(Response(Profile.ContentType, Profile.Render(kind, addr, uuids)))
  }

  /** Members of the status other than the address list never change a
      profile response. */
  lemma ProfileResponseIgnoresOtherMembers(kind: Profile.Kind, members: map<string, Json.Value>, key: string, v: Json.Value, uuids: seq<string>)
    requires |uuids| == Profile.SlotCount(kind)
    requires key != Status.AddressKey
    ensures ProfileResponse(kind, Json.Object(members[key := v]), uuids) == ProfileResponse(kind, Json.Object(members), uuids)
  {
  }

  /** A running node with one address is shown in green with that address;
      a stopped node whose address list is empty yields no profile. */
  lemma StatusExamples(uuids: seq<string>)
    requires |uuids| == 4
    ensures StatusPage(Json.Object(map[Status.StateKey := Json.String("Running"),
                                       Status.AddressKey := Json.Array([Json.String("100.1.2.3")])]))
            == Ok(StatusView("green", "Running", "100.1.2.3"))
    ensures ProfileResponse(Profile.DnsOverTls, Json.Object(map[Status.StateKey := Json.String("Stopped"),
                                                                 Status.AddressKey := Json.Array([])]), uuids)
            == Err(Status.MissingAddress)
  {
  }
}
