# dorsum: status page and configuration profiles, modelled in Dafny

dorsum is a small HTTP server that runs next to a Tailscale client. Its core
is four request handlers in `src/main.rs`. Each one runs
`tailscale status --json`, reads fields of the JSON it prints, and answers
with one of these:

- the status page `/tailscale`. It reads `BackendState` and `TailscaleIPs`
  and shows the state, coloured green, yellow or red, and the node's first
  address.
- one of three Apple configuration profiles, each served with the media type
  `application/x-apple-aspen-config`:
  - `/ios/tailscale-dot.mobileconfig`: encrypted DNS over TLS;
  - `/ios/tailscale-doh.mobileconfig`: encrypted DNS over HTTPS;
  - `/ios/tailscale-proxy.mobileconfig`: a global HTTP proxy.

  These handlers read only `TailscaleIPs`. The source writes each profile as
  a `format!` template with `{}` holes. The holes take the node's first
  address, then freshly generated UUIDs in order. The DNS profiles take
  four UUIDs and the proxy profile takes two.

The model has these parts, one module each:

- `Wrappers` (wrappers.dfy): `Option` and `Result`.
- `Json` (json.dfy): a parsed JSON value. Its indexing follows serde_json's
  rules: `v[key]` and `v[i]` give `Null` when there is nothing there, and
  `as_str` gives nothing for a value that is not a string.
- `Status` (status.dfy): the two fields the handlers read (the first
  address, read by all four, and the state, read by the status page), and the
  mapping from state to colour. Where the source calls `.unwrap()` and would
  panic, the model returns an `Err` that names the missing field.
- `Plist` (plist.dfy): property lists as trees.
  - A dictionary keeps its entries in document order.
  - `Lookup` finds a key. `At` follows a path of keys and array positions.
  - `WellFormed` says that no dictionary repeats a key.
- `Profile` (profile.dfy): the three templates as plist trees, built from
  the address and the UUIDs. A *slot* is a place in a profile where an input
  lands, possibly between fixed prefix and suffix text. `SlotContent` reads
  an input back out of its slot. This is how the model states that every
  input reaches its place intact.
- `Handlers` (handlers.dfy): the status page and the profile responses as
  functions of the status JSON, with the UUIDs passed in.

Behaviours worth noting:

- The profile handlers never read `BackendState`, so a status without it
  still yields a profile. Only the address is required.
- The status page fails when there is no first address, as well as when
  there is no state. The state is read first, so a status missing both
  fails on the state.
- Each of the four UUIDs of a DNS profile is used exactly once, in
  generation order:
  1. the suffix of the inner `PayloadIdentifier`;
  2. the inner `PayloadUUID`;
  3. the suffix of the outer `PayloadIdentifier`;
  4. the outer `PayloadUUID`.

  No UUID serves two slots.
- A first address that exists but is not a JSON string is treated like a
  missing address. This is what `as_str().unwrap()` does.

## Model

| member | source | states |
|---|---|---|
| Json.Member | src/main.rs:140 | indexing an object by a key gives that member, and gives `Null` when the key is absent or the value is not an object |
| Json.Element | src/main.rs:140 | indexing an array by a position gives that element, and gives `Null` past the end or on a non-array |
| Json.AsStr | src/main.rs:140 | `as_str` yields text exactly for JSON strings, and that text is the string's own |
| Status.FirstAddress | src/main.rs:140-346 | the address is found exactly when `TailscaleIPs` is an array whose first element is a string, and it is that string |
| Status.BackendState | src/main.rs:328-346 | the state is found exactly when `BackendState` is a string member, and it is that string |
| Status.FirstAddressIgnoresOtherMembers | src/main.rs:140 | changing any other member of the status leaves the address unchanged, and the state too unless the member is `BackendState` |
| Status.FirstOfAddressList | src/main.rs:140 | for a list of address strings the first one is chosen, and an empty list gives no address |
| Status.StatusColour | src/main.rs:328-333 | green exactly for `Running`, yellow exactly for `Starting`, red for `Stopped` and every other state, and no other colour |
| Handlers.StatusPage | src/main.rs:328-346 | the page is produced exactly when both state and first address are present; a failure names the state exactly when the state is missing; the page shows the JSON's own state and address, with the state's colour |
| Handlers.ProfileResponse | src/main.rs:62-312 | a profile is produced exactly when the status has a first address, and fails with a missing address otherwise; every kind is served as `application/x-apple-aspen-config`; the document is the kind's profile for that address and those UUIDs, so the address and every UUID can be read back from their slots; no dictionary in the document repeats a key |
| Handlers.ProfileResponseIgnoresOtherMembers | src/main.rs:62-312 | no member of the status except `TailscaleIPs` can change a profile response, `BackendState` included |
| Handlers.StatusExamples | src/main.rs:62-346 | a running node with address 100.1.2.3 is shown green with that address; a stopped node with an empty address list gets no profile |
| Profile.Render | src/main.rs:73-304 | no contract of its own: the three templates as plist trees (built from `DnsProfile`, `DnsPayload`, `DnsSettings`, `OnDemandRules`, `ProxyProfile` and `ProxyPayload`), each input in its hole; the lemmas below state what they hold |
| Profile.RenderFillsSlots | src/main.rs:73-304 | every profile gives back the address from its address slot, and the i-th UUID from the i-th UUID slot, for all three kinds |
| Profile.DnsAddressSlot | src/main.rs:85-182 | a DNS profile gives back the address: verbatim as the TLS server name, and as the HTTPS server URL once the `/query` suffix is removed |
| Profile.DnsPayloadIdSlot | src/main.rs:111-208 | the first UUID follows `com.apple.dnsSettings.managed.` in the inner payload identifier |
| Profile.DnsPayloadUuidSlot | src/main.rs:115-212 | the second UUID is the inner payload's UUID |
| Profile.DnsProfileSlots | src/main.rs:127-230 | the third UUID follows `sh.dorsum.apple-dns.` in the outer identifier, and the fourth is the outer UUID |
| Profile.ProxySlots | src/main.rs:273-303 | the proxy profile gives back the address as proxy server, the first UUID as payload UUID and the second as profile UUID |
| Profile.SlotContentsDistinct | src/main.rs:141-303 | distinct generated UUIDs give pairwise distinct slot contents |
| Profile.RenderInjective | src/main.rs:73-304 | two profiles of one kind are equal only if they were made from the same address and the same UUIDs, so no input is lost or overwritten |
| Profile.TlsSettings | src/main.rs:79-87 | the DNS-over-TLS settings are protocol `TLS`, an empty server address list and the address as server name, and nothing else |
| Profile.HttpsSettings | src/main.rs:175-183 | the DNS-over-HTTPS settings are protocol `HTTPS`, an empty server address list and a server URL of the address followed by exactly `/query`, and nothing else |
| Profile.OnDemandRuleOrder | src/main.rs:88-106 | the rules connect on WiFi, connect on Cellular, then disconnect with no interface match, and there is no fourth rule |
| Profile.DnsRules | src/main.rs:88-202 | both DNS profiles carry that rule list as the payload's `OnDemandRules` |
| Profile.DnsNotLocked | src/main.rs:119-226 | neither DNS profile prohibits disabling its payload or disallows removing the profile |
| Profile.DnsPayloadLabel | src/main.rs:109-206 | the DNS payload's display name names its transport: TLS or HTTPS |
| Profile.DnsProfileLabel | src/main.rs:125-222 | both DNS profiles are displayed as `Encrypted DNS (DoH, DoT)` |
| Profile.ProfileHeader | src/main.rs:73-298 | every profile is of type `Configuration`, version 1 |
| Profile.PayloadHeader | src/main.rs:113-284 | the payload is of type `com.apple.proxy.http.global` for the proxy and `com.apple.dnsSettings.managed` for DNS, version 1 |
| Profile.SinglePayload | src/main.rs:76-286 | the payload content is a list of exactly one payload, the kind's own |
| Profile.ProfileKeysExactly | src/main.rs:73-298 | a key is found at the top of a profile if and only if the template lists it there, so a profile has no other top-level fields |
| Profile.ProxyFields | src/main.rs:270-290 | the proxy server is the address, on port 8080, captive login allowed, with fixed payload and profile identifiers |
| Profile.SettingsKeyOrder | src/main.rs:80-183 | the DNS settings list their keys in template order, each once |
| Profile.DnsPayloadKeyOrder | src/main.rs:78-217 | the DNS payload lists its nine keys in template order, each once |
| Profile.DnsProfileKeyOrder | src/main.rs:75-233 | the DNS profile lists its eight keys in template order, each once |
| Profile.ProxyPayloadKeyOrder | src/main.rs:270-285 | the proxy payload lists its seven keys in template order, each once |
| Profile.ProxyProfileKeyOrder | src/main.rs:267-297 | the proxy profile lists its six keys in template order, each once |
| Profile.RenderWellFormed | src/main.rs:73-298 | no dictionary anywhere in any profile repeats a key, as the property-list format requires |

## Left out

- The HTTP server, the routing table, the static HTML pages and the
  certificate downloads carry no logic of their own.
- Running `tailscale status --json`, decoding its output as UTF-8 and parsing
  the JSON are I/O and library calls. Their failures are `.expect` panics
  before any field is read. The model starts from a parsed JSON value.
- UUID generation is randomness. UUIDs are parameters, so freshness across
  requests is not modelled. Distinct UUIDs appear only as the precondition of
  `Profile.SlotContentsDistinct`.
- The profile text is not modelled: indentation, line breaks, the XML
  declaration and DOCTYPE lines of the proxy profile, and the `<plist>`
  wrapper. Profiles are modelled as the plist trees the text denotes, so
  "the address appears exactly once in the text" is stated as "the address
  is read back from its slot". Relating a serialized tree to the literal
  templates character by character was too costly to prove.
- The address and the UUIDs are written into the templates unescaped, as in
  the source. The tree model does not look at XML escaping, so an address
  containing markup is not modelled as breaking the document.
- The status page's HTML text is not modelled, only the three values it
  interpolates, in page order.
- JSON numbers keep their literal text, because no handler reads one.
