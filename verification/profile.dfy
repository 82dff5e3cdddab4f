/** The three configuration profiles served under `/ios/…mobileconfig`:
    encrypted DNS over TLS, encrypted DNS over HTTPS and a global HTTP proxy. */
module Profile {
  import opened Wrappers
  import opened Plist

  datatype Kind = DnsOverTls | DnsOverHttps | HttpProxy

  /** The media type of every profile response. */
  const ContentType := "application/x-apple-aspen-config"

  /** How many generated UUIDs a profile of this kind takes. */
  function SlotCount(kind: Kind): nat
  {
    match kind
    case HttpProxy => 2
    case _ => 4
  }

  /** Identifier prefixes the DNS profiles complete with a UUID. */
  const DnsPayloadPrefix := "com.apple.dnsSettings.managed."
  const DnsProfilePrefix := "sh.dorsum.apple-dns."

  function ConnectRule(interface: string): Value
  {
    Dict([Entry("Action", String("Connect")), Entry("InterfaceTypeMatch", String(interface))])
  }

  const DisconnectRule := Dict([Entry("Action", String("Disconnect"))])

  /** Resolve encrypted over Wi-Fi and cellular; otherwise do not. */
  const OnDemandRules := Array([ConnectRule("WiFi"), ConnectRule("Cellular"), DisconnectRule])

  /** The `DNSSettings` dictionary: the server is named by the address for
      TLS and reached at the address followed by `/query` for HTTPS. */
  function DnsSettings(kind: Kind, addr: string): Value
    requires kind != HttpProxy
  {
    if kind == DnsOverTls then
      Dict([
        Entry("DNSProtocol", String("TLS")),
        Entry("ServerAddresses", Array([])),
        Entry("ServerName", String(addr))])
    else
      Dict([
        Entry("DNSProtocol", String("HTTPS")),
        Entry("ServerAddresses", Array([])),
        Entry("ServerURL", String(addr + "/query"))])
  }

  /** Fixed texts of the DNS profiles. */
  const DnsPayloadType := "com.apple.dnsSettings.managed"
  const DnsProfileDescription := "Adds different encrypted DNS configurations to Big Sur (or newer) and iOS 14 (or newer) based systems"
  const DnsProfileName := "Encrypted DNS (DoH, DoT)"

  function DnsPayloadDescription(kind: Kind): string
    requires kind != HttpProxy
  {
    if kind == DnsOverTls then "Configures device to use dorsum Encrypted DNS over TLS"
    else "Configures device to use dorsum Encrypted DNS over HTTPS"
  }

  function DnsPayloadName(kind: Kind): string
    requires kind != HttpProxy
  {
    if kind == DnsOverTls then "dorsum DNS over TLS" else "dorsum DNS over HTTPS"
  }

  /** Fixed texts of the proxy profile; its identifiers take no UUID. */
  const ProxyPayloadType := "com.apple.proxy.http.global"
  const ProxyPayloadId := "sh.dorsum.proxy"
  const ProxyProfileName := "GlobalHTTPProxy"
  const ProxyProfileId := "com.example.myprofile"

  /** The payload type of both outer profiles. */
  const ProfileType := "Configuration"

  /** The inner `com.apple.dnsSettings.managed` payload. */
  function DnsPayload(kind: Kind, addr: string, id: string, uuid: string): Value
    requires kind != HttpProxy
  {
    Dict([
      Entry("DNSSettings", DnsSettings(kind, addr)),
      Entry("OnDemandRules", OnDemandRules),
      Entry("PayloadDescription", String(DnsPayloadDescription(kind))),
      Entry("PayloadDisplayName", String(DnsPayloadName(kind))),
      Entry("PayloadIdentifier", String(DnsPayloadPrefix + id)),
      Entry("PayloadType", String(DnsPayloadType)),
      Entry("PayloadUUID", String(uuid)),
      Entry("PayloadVersion", Integer(1)),
      Entry("ProhibitDisablement", Bool(false))])
  }

  /** The outer configuration profile wrapping one DNS payload. */
  function DnsProfile(kind: Kind, addr: string, uuids: seq<string>): Value
    requires kind != HttpProxy && |uuids| == 4
  {
    Dict([
      Entry("PayloadContent", Array([DnsPayload(kind, addr, uuids[0], uuids[1])])),
      Entry("PayloadDescription", String(DnsProfileDescription)),
      Entry("PayloadDisplayName", String(DnsProfileName)),
      Entry("PayloadIdentifier", String(DnsProfilePrefix + uuids[2])),
      Entry("PayloadRemovalDisallowed", Bool(false)),
      Entry("PayloadType", String(ProfileType)),
      Entry("PayloadUUID", String(uuids[3])),
      Entry("PayloadVersion", Integer(1))])
  }

  /** The inner `com.apple.proxy.http.global` payload. */
  function ProxyPayload(addr: string, uuid: string): Value
  {
    Dict([
      Entry("ProxyCaptiveLoginAllowed", Bool(true)),
      Entry("ProxyServer", String(addr)),
      Entry("ProxyServerPort", Integer(8080)),
      Entry("PayloadIdentifier", String(ProxyPayloadId)),
      Entry("PayloadType", String(ProxyPayloadType)),
      Entry("PayloadUUID", String(uuid)),
      Entry("PayloadVersion", Integer(1))])
  }

  /** The outer configuration profile wrapping the proxy payload. */
  function ProxyProfile(addr: string, uuids: seq<string>): Value
    requires |uuids| == 2
  {
    Dict([
      Entry("PayloadContent", Array([ProxyPayload(addr, uuids[0])])),
      Entry("PayloadDisplayName", String(ProxyProfileName)),
      Entry("PayloadIdentifier", String(ProxyProfileId)),
      Entry("PayloadType", String(ProfileType)),
      Entry("PayloadUUID", String(uuids[1])),
      Entry("PayloadVersion", Integer(1))])
  }

  /** The inner payload of a profile of a kind. */
  function Payload(kind: Kind, addr: string, uuids: seq<string>): Value
    requires |uuids| == SlotCount(kind)
  {
    if kind == HttpProxy then ProxyPayload(addr, uuids[0]) else DnsPayload(kind, addr, uuids[0], uuids[1])
  }

  /** The profile of a kind for the node's first address, with the UUIDs
      used in the order they were generated. */
  function Render(kind: Kind, addr: string, uuids: seq<string>): Value
    requires |uuids| == SlotCount(kind)
  {
    match kind
    case HttpProxy => ProxyProfile(addr, uuids)
    case _ => DnsProfile(kind, addr, uuids)
  }

  /** Path to the single inner payload. */
  const PayloadPath := [Key("PayloadContent"), Index(0)]
  /** Path to the `DNSSettings` dictionary of a DNS profile. */
  const SettingsPath := PayloadPath + [Key("DNSSettings")]

  /** A place in a profile where an input lands: the string at `path` is
      `prefix`, then the input, then `suffix`. */
  datatype Slot = Slot(path: seq<Step>, prefix: string, suffix: string)

  /** Where the node's address lands. */
  function AddressSlot(kind: Kind): Slot
  {
    match kind
    case DnsOverTls => Slot(SettingsPath + [Key("ServerName")], "", "")
    case DnsOverHttps => Slot(SettingsPath + [Key("ServerURL")], "", "/query")
    case HttpProxy => Slot(PayloadPath + [Key("ProxyServer")], "", "")
  }

  /** Where the UUIDs land, in the order they are used. */
  function UuidSlots(kind: Kind): (slots: seq<Slot>)
    ensures |slots| == SlotCount(kind)
  {
    match kind
    case HttpProxy => [
      Slot(PayloadPath + [Key("PayloadUUID")], "", ""),
      Slot([Key("PayloadUUID")], "", "")]
    case _ => [
      Slot(PayloadPath + [Key("PayloadIdentifier")], DnsPayloadPrefix, ""),
      Slot(PayloadPath + [Key("PayloadUUID")], "", ""),
      Slot([Key("PayloadIdentifier")], DnsProfilePrefix, ""),
      Slot([Key("PayloadUUID")], "", "")]
  }

  /** The input found in a slot of a document: the string at the slot's
      path with the slot's prefix and suffix removed. */
  function SlotContent(doc: Value, slot: Slot): Option<string>
  {
    match At(doc, slot.path)
    case Some(String(t)) =>
      var p, s := |slot.prefix|, |slot.suffix|;
      if p + s <= |t| && t[..p] == slot.prefix && t[|t| - s..] == slot.suffix
      then Some(t[p..|t| - s])
      else None
    case _ => None
  }

  /** A slot gives back exactly what was written into it. */
  lemma SlotRoundTrip(doc: Value, slot: Slot, x: string)
    requires At(doc, slot.path) == Some(String(slot.prefix + x + slot.suffix))
    ensures SlotContent(doc, slot) == Some(x)
  {
  }

  /** A slot whose text is the input alone. */
  lemma PlainSlot(doc: Value, path: seq<Step>, x: string)
    requires At(doc, path) == Some(String(x))
    ensures SlotContent(doc, Slot(path, "", "")) == Some(x)
  {
    assert "" + x + "" == x;
    SlotRoundTrip(doc, Slot(path, "", ""), x);
  }

  /** A slot whose text is a prefix followed by the input. */
  lemma PrefixSlot(doc: Value, path: seq<Step>, prefix: string, x: string)
    requires At(doc, path) == Some(String(prefix + x))
    ensures SlotContent(doc, Slot(path, prefix, "")) == Some(x)
  {
    assert prefix + x + "" == prefix + x;
    SlotRoundTrip(doc, Slot(path, prefix, ""), x);
  }

  // Key order of every dictionary, as the templates list the keys.

  function SettingsKeys(kind: Kind): seq<string>
  {
    ["DNSProtocol", "ServerAddresses", if kind == DnsOverTls then "ServerName" else "ServerURL"]
  }
  const DnsPayloadKeys := [
    "DNSSettings", "OnDemandRules", "PayloadDescription", "PayloadDisplayName",
    "PayloadIdentifier", "PayloadType", "PayloadUUID", "PayloadVersion", "ProhibitDisablement"]
  const DnsProfileKeys := [
    "PayloadContent", "PayloadDescription", "PayloadDisplayName", "PayloadIdentifier",
    "PayloadRemovalDisallowed", "PayloadType", "PayloadUUID", "PayloadVersion"]
  const ProxyPayloadKeys := [
    "ProxyCaptiveLoginAllowed", "ProxyServer", "ProxyServerPort", "PayloadIdentifier",
    "PayloadType", "PayloadUUID", "PayloadVersion"]
  const ProxyProfileKeys := [
    "PayloadContent", "PayloadDisplayName", "PayloadIdentifier", "PayloadType",
    "PayloadUUID", "PayloadVersion"]

  lemma KeyListsDistinct(kind: Kind)
    ensures Distinct(SettingsKeys(kind))
    ensures Distinct(DnsPayloadKeys) && Distinct(DnsProfileKeys)
    ensures Distinct(ProxyPayloadKeys) && Distinct(ProxyProfileKeys)
  {
  }

  /** The dictionaries of the profiles list their keys in template order,
      and so name every key once. */
  lemma SettingsKeyOrder(kind: Kind, addr: string)
    requires kind != HttpProxy
    ensures Keys(DnsSettings(kind, addr).entries) == SettingsKeys(kind)
    ensures Distinct(Keys(DnsSettings(kind, addr).entries))
  {
  }

  lemma DnsPayloadKeyOrder(kind: Kind, addr: string, id: string, uuid: string)
    requires kind != HttpProxy
    ensures Keys(DnsPayload(kind, addr, id, uuid).entries) == DnsPayloadKeys
    ensures Distinct(Keys(DnsPayload(kind, addr, id, uuid).entries))
  {
    KeyListsDistinct(kind);
  }

  lemma DnsProfileKeyOrder(kind: Kind, addr: string, uuids: seq<string>)
    requires kind != HttpProxy && |uuids| == 4
    ensures Keys(DnsProfile(kind, addr, uuids).entries) == DnsProfileKeys
    ensures Distinct(Keys(DnsProfile(kind, addr, uuids).entries))
  {
    KeyListsDistinct(kind);
  }

  lemma ProxyPayloadKeyOrder(addr: string, uuid: string)
    ensures Keys(ProxyPayload(addr, uuid).entries) == ProxyPayloadKeys
    ensures Distinct(Keys(ProxyPayload(addr, uuid).entries))
  {
  }

  lemma ProxyProfileKeyOrder(addr: string, uuids: seq<string>)
    requires |uuids| == 2
    ensures Keys(ProxyProfile(addr, uuids).entries) == ProxyProfileKeys
    ensures Distinct(Keys(ProxyProfile(addr, uuids).entries))
  {
  }

  /** Following a path into the inner payload. */
  lemma AtPayload(kind: Kind, addr: string, uuids: seq<string>, rest: seq<Step>)
    requires |uuids| == SlotCount(kind)
    ensures At(Render(kind, addr, uuids), PayloadPath + rest) == At(Payload(kind, addr, uuids), rest)
  {
    var doc := Render(kind, addr, uuids);
    var content := Array([Payload(kind, addr, uuids)]);
    assert Child(doc, Key("PayloadContent")) == Some(content);
    AtStep(doc, Key("PayloadContent"), content, [Index(0)] + rest);
    assert PayloadPath + rest == [Key("PayloadContent")] + ([Index(0)] + rest);
    AtStep(content, Index(0), content.items[0], rest);
  }

  /** Following a path into the `DNSSettings` dictionary. */
  lemma AtSettings(kind: Kind, addr: string, uuids: seq<string>, rest: seq<Step>)
    requires kind != HttpProxy && |uuids| == SlotCount(kind)
    ensures At(Render(kind, addr, uuids), SettingsPath + rest) == At(DnsSettings(kind, addr), rest)
  {
    var payload := Payload(kind, addr, uuids);
    assert SettingsPath + rest == PayloadPath + ([Key("DNSSettings")] + rest);
    AtPayload(kind, addr, uuids, [Key("DNSSettings")] + rest);
    assert Child(payload, Key("DNSSettings")) == Some(DnsSettings(kind, addr));
    AtStep(payload, Key("DNSSettings"), DnsSettings(kind, addr), rest);
  }

  /** A field of the inner payload, reached from the top of the profile. */
  lemma PayloadField(kind: Kind, addr: string, uuids: seq<string>, i: nat, key: string, v: Value)
    requires |uuids| == SlotCount(kind)
    requires i < |Payload(kind, addr, uuids).entries| && Payload(kind, addr, uuids).entries[i] == Entry(key, v)
    ensures At(Render(kind, addr, uuids), PayloadPath + [Key(key)]) == Some(v)
  {
    if kind == HttpProxy {
      ProxyPayloadKeyOrder(addr, uuids[0]);
    } else {
      DnsPayloadKeyOrder(kind, addr, uuids[0], uuids[1]);
    }
    AtField(Payload(kind, addr, uuids), key, v);
    AtPayload(kind, addr, uuids, [Key(key)]);
  }

  /** A field of the outer profile. */
  lemma ProfileField(kind: Kind, addr: string, uuids: seq<string>, i: nat, key: string, v: Value)
    requires |uuids| == SlotCount(kind)
    requires i < |Render(kind, addr, uuids).entries| && Render(kind, addr, uuids).entries[i] == Entry(key, v)
    ensures At(Render(kind, addr, uuids), [Key(key)]) == Some(v)
  {
    if kind == HttpProxy {
      ProxyProfileKeyOrder(addr, uuids);
    } else {
      DnsProfileKeyOrder(kind, addr, uuids);
    }
    AtField(Render(kind, addr, uuids), key, v);
  }

  /** A field of the `DNSSettings` dictionary, reached from the top of a
      DNS profile. */
  lemma SettingsField(kind: Kind, addr: string, uuids: seq<string>, i: nat, key: string, v: Value)
    requires kind != HttpProxy && |uuids| == 4
    requires i < |DnsSettings(kind, addr).entries| && DnsSettings(kind, addr).entries[i] == Entry(key, v)
    ensures At(Render(kind, addr, uuids), SettingsPath + [Key(key)]) == Some(v)
  {
    SettingsKeyOrder(kind, addr);
    AtField(DnsSettings(kind, addr), key, v);
    AtSettings(kind, addr, uuids, [Key(key)]);
  }

  /** Where the proxy profile puts its address and its two UUIDs. */
  lemma ProxySlots(addr: string, uuids: seq<string>)
    requires |uuids| == 2
    ensures SlotContent(Render(HttpProxy, addr, uuids), AddressSlot(HttpProxy)) == Some(addr)
    ensures SlotContent(Render(HttpProxy, addr, uuids), UuidSlots(HttpProxy)[0]) == Some(uuids[0])
    ensures SlotContent(Render(HttpProxy, addr, uuids), UuidSlots(HttpProxy)[1]) == Some(uuids[1])
  {
    var doc := Render(HttpProxy, addr, uuids);
    PayloadField(HttpProxy, addr, uuids, 1, "ProxyServer", String(addr));
    PlainSlot(doc, PayloadPath + [Key("ProxyServer")], addr);
    PayloadField(HttpProxy, addr, uuids, 5, "PayloadUUID", String(uuids[0]));
    PlainSlot(doc, PayloadPath + [Key("PayloadUUID")], uuids[0]);
    ProfileField(HttpProxy, addr, uuids, 4, "PayloadUUID", String(uuids[1]));
    PlainSlot(doc, [Key("PayloadUUID")], uuids[1]);
  }

  /** Where a DNS profile puts its address. */
  lemma DnsAddressSlot(kind: Kind, addr: string, uuids: seq<string>)
    requires kind != HttpProxy && |uuids| == 4
    ensures SlotContent(Render(kind, addr, uuids), AddressSlot(kind)) == Some(addr)
  {
    var doc := Render(kind, addr, uuids);
    if kind == DnsOverTls {
      SettingsField(kind, addr, uuids, 2, "ServerName", String(addr));
      PlainSlot(doc, SettingsPath + [Key("ServerName")], addr);
    } else {
      SettingsField(kind, addr, uuids, 2, "ServerURL", String(addr + "/query"));
      assert "" + addr + "/query" == addr + "/query";
      SlotRoundTrip(doc, AddressSlot(kind), addr);
    }
  }

  /** Where a DNS profile puts its first UUID: the inner payload's
      identifier, after the managed-DNS prefix. */
  lemma DnsPayloadIdSlot(kind: Kind, addr: string, uuids: seq<string>)
    requires kind != HttpProxy && |uuids| == 4
    ensures SlotContent(Render(kind, addr, uuids), UuidSlots(kind)[0]) == Some(uuids[0])
  {
    PayloadField(kind, addr, uuids, 4, "PayloadIdentifier", String(DnsPayloadPrefix + uuids[0]));
    PrefixSlot(Render(kind, addr, uuids), PayloadPath + [Key("PayloadIdentifier")], DnsPayloadPrefix, uuids[0]);
  }

  /** Where a DNS profile puts its second UUID: the inner payload's UUID. */
  lemma DnsPayloadUuidSlot(kind: Kind, addr: string, uuids: seq<string>)
    requires kind != HttpProxy && |uuids| == 4
    ensures SlotContent(Render(kind, addr, uuids), UuidSlots(kind)[1]) == Some(uuids[1])
  {
    PayloadField(kind, addr, uuids, 6, "PayloadUUID", String(uuids[1]));
    PlainSlot(Render(kind, addr, uuids), PayloadPath + [Key("PayloadUUID")], uuids[1]);
  }

  /** Where a DNS profile puts its last two UUIDs: the outer profile. */
  lemma DnsProfileSlots(kind: Kind, addr: string, uuids: seq<string>)
    requires kind != HttpProxy && |uuids| == 4
    ensures SlotContent(Render(kind, addr, uuids), UuidSlots(kind)[2]) == Some(uuids[2])
    ensures SlotContent(Render(kind, addr, uuids), UuidSlots(kind)[3]) == Some(uuids[3])
  {
    var doc := Render(kind, addr, uuids);
    ProfileField(kind, addr, uuids, 3, "PayloadIdentifier", String(DnsProfilePrefix + uuids[2]));
    PrefixSlot(doc, [Key("PayloadIdentifier")], DnsProfilePrefix, uuids[2]);
    ProfileField(kind, addr, uuids, 6, "PayloadUUID", String(uuids[3]));
    PlainSlot(doc, [Key("PayloadUUID")], uuids[3]);
  }

  /** Every UUID lands in its own slot, in generation order, and the
      address lands in the kind's address slot. */
  lemma RenderFillsSlots(kind: Kind, addr: string, uuids: seq<string>)
    requires |uuids| == SlotCount(kind)
    ensures SlotContent(Render(kind, addr, uuids), AddressSlot(kind)) == Some(addr)
    ensures forall i :: 0 <= i < |uuids| ==> SlotContent(Render(kind, addr, uuids), UuidSlots(kind)[i]) == Some(uuids[i])
  {
    if kind == HttpProxy {
      ProxySlots(addr, uuids);
    } else {
      DnsAddressSlot(kind, addr, uuids);
      forall i | 0 <= i < |uuids|
        ensures SlotContent(Render(kind, addr, uuids), UuidSlots(kind)[i]) == Some(uuids[i])
      {
        if i == 0 {
          DnsPayloadIdSlot(kind, addr, uuids);
        } else if i == 1 {
          DnsPayloadUuidSlot(kind, addr, uuids);
        } else {
          DnsProfileSlots(kind, addr, uuids);
        }
      }
    }
  }

  /** The `DNSSettings` of the DNS-over-TLS profile: protocol TLS, no fixed
      server addresses, and the server named by the address verbatim;
      nothing else. */
  lemma TlsSettings(addr: string, uuids: seq<string>)
    requires |uuids| == 4
    ensures At(Render(DnsOverTls, addr, uuids), SettingsPath) == Some(Dict([
      Entry("DNSProtocol", String("TLS")),
      Entry("ServerAddresses", Array([])),
      Entry("ServerName", String(addr))]))
  {
    AtSettings(DnsOverTls, addr, uuids, []);
    assert SettingsPath + [] == SettingsPath;
  }

  /** The `DNSSettings` of the DNS-over-HTTPS profile: protocol HTTPS, no
      fixed server addresses, and a server URL that is the address followed
      by exactly `/query`, in place of a server name. */
  lemma HttpsSettings(addr: string, uuids: seq<string>)
    requires |uuids| == 4
    ensures At(Render(DnsOverHttps, addr, uuids), SettingsPath) == Some(Dict([
      Entry("DNSProtocol", String("HTTPS")),
      Entry("ServerAddresses", Array([])),
      Entry("ServerURL", String(addr + "/query"))]))
  {
    AtSettings(DnsOverHttps, addr, uuids, []);
    assert SettingsPath + [] == SettingsPath;
  }

  /** Path to the on-demand rules of a DNS profile. */
  const RulesPath := PayloadPath + [Key("OnDemandRules")]

  /** The rule list itself: connect on Wi-Fi, connect on cellular, and
      otherwise disconnect, with no interface to match. */
  lemma OnDemandRuleOrder()
    ensures At(OnDemandRules, [Index(0), Key("Action")]) == Some(String("Connect"))
    ensures At(OnDemandRules, [Index(0), Key("InterfaceTypeMatch")]) == Some(String("WiFi"))
    ensures At(OnDemandRules, [Index(1), Key("Action")]) == Some(String("Connect"))
    ensures At(OnDemandRules, [Index(1), Key("InterfaceTypeMatch")]) == Some(String("Cellular"))
    ensures At(OnDemandRules, [Index(2), Key("Action")]) == Some(String("Disconnect"))
    ensures At(OnDemandRules, [Index(2), Key("InterfaceTypeMatch")]) == None
    ensures At(OnDemandRules, [Index(3)]) == None
  {
  }

  /** Both DNS profiles carry that rule list. */
  lemma DnsRules(kind: Kind, addr: string, uuids: seq<string>)
    requires kind != HttpProxy && |uuids| == 4
    ensures At(Render(kind, addr, uuids), RulesPath) == Some(OnDemandRules)
  {
    PayloadField(kind, addr, uuids, 1, "OnDemandRules", OnDemandRules);
  }

  /** Neither DNS profile forbids the user to disable or remove it. */
  lemma DnsNotLocked(kind: Kind, addr: string, uuids: seq<string>)
    requires kind != HttpProxy && |uuids| == 4
    ensures At(Render(kind, addr, uuids), PayloadPath + [Key("ProhibitDisablement")]) == Some(Bool(false))
    ensures At(Render(kind, addr, uuids), [Key("PayloadRemovalDisallowed")]) == Some(Bool(false))
  {
    PayloadField(kind, addr, uuids, 8, "ProhibitDisablement", Bool(false));
    ProfileField(kind, addr, uuids, 4, "PayloadRemovalDisallowed", Bool(false));
  }

  /** The proxy profile: proxy host is the address, port 8080, captive
      login allowed, and identifiers that are fixed strings. */
  lemma ProxyFields(addr: string, uuids: seq<string>)
    requires |uuids| == 2
    ensures At(Render(HttpProxy, addr, uuids), PayloadPath + [Key("ProxyServer")]) == Some(String(addr))
    ensures At(Render(HttpProxy, addr, uuids), PayloadPath + [Key("ProxyServerPort")]) == Some(Integer(8080))
    ensures At(Render(HttpProxy, addr, uuids), PayloadPath + [Key("ProxyCaptiveLoginAllowed")]) == Some(Bool(true))
    ensures At(Render(HttpProxy, addr, uuids), PayloadPath + [Key("PayloadIdentifier")]) == Some(String(ProxyPayloadId))
    ensures At(Render(HttpProxy, addr, uuids), [Key("PayloadIdentifier")]) == Some(String(ProxyProfileId))
  {
    PayloadField(HttpProxy, addr, uuids, 1, "ProxyServer", String(addr));
    PayloadField(HttpProxy, addr, uuids, 2, "ProxyServerPort", Integer(8080));
    PayloadField(HttpProxy, addr, uuids, 0, "ProxyCaptiveLoginAllowed", Bool(true));
    PayloadField(HttpProxy, addr, uuids, 3, "PayloadIdentifier", String(ProxyPayloadId));
    ProfileField(HttpProxy, addr, uuids, 2, "PayloadIdentifier", String(ProxyProfileId));
  }

  /** Every profile is a version-1 `Configuration`. */
  lemma ProfileHeader(kind: Kind, addr: string, uuids: seq<string>)
    requires |uuids| == SlotCount(kind)
    ensures At(Render(kind, addr, uuids), [Key("PayloadType")]) == Some(String("Configuration"))
    ensures At(Render(kind, addr, uuids), [Key("PayloadVersion")]) == Some(Integer(1))
  {
    var n := if kind == HttpProxy then 3 else 5;
    ProfileField(kind, addr, uuids, n, "PayloadType", String(ProfileType));
    ProfileField(kind, addr, uuids, n + 2, "PayloadVersion", Integer(1));
  }

  /** Its payload is a version-1 payload of the kind's payload type. */
  lemma PayloadHeader(kind: Kind, addr: string, uuids: seq<string>)
    requires |uuids| == SlotCount(kind)
    ensures At(Render(kind, addr, uuids), PayloadPath + [Key("PayloadType")])
            == Some(String(if kind == HttpProxy then "com.apple.proxy.http.global" else "com.apple.dnsSettings.managed"))
    ensures At(Render(kind, addr, uuids), PayloadPath + [Key("PayloadVersion")]) == Some(Integer(1))
  {
    var n := if kind == HttpProxy then 4 else 5;
    PayloadField(kind, addr, uuids, n, "PayloadType", String(if kind == HttpProxy then ProxyPayloadType else DnsPayloadType));
    PayloadField(kind, addr, uuids, n + 2, "PayloadVersion", Integer(1));
  }

  /** The payload content is a list of exactly one payload, the kind's. */
  lemma SinglePayload(kind: Kind, addr: string, uuids: seq<string>)
    requires |uuids| == SlotCount(kind)
    ensures At(Render(kind, addr, uuids), [Key("PayloadContent")]) == Some(Array([Payload(kind, addr, uuids)]))
    ensures At(Render(kind, addr, uuids), [Key("PayloadContent"), Index(1)]) == None
  {
  }

  /** The top level of a profile holds exactly the template's keys: a key
      is found there if and only if the template lists it. */
  lemma ProfileKeysExactly(kind: Kind, addr: string, uuids: seq<string>, key: string)
    requires |uuids| == SlotCount(kind)
    ensures At(Render(kind, addr, uuids), [Key(key)]).Some?
            <==> key in (if kind == HttpProxy then ProxyProfileKeys else DnsProfileKeys)
  {
    var doc := Render(kind, addr, uuids);
    if kind == HttpProxy {
      ProxyProfileKeyOrder(addr, uuids);
    } else {
      DnsProfileKeyOrder(kind, addr, uuids);
    }
    LookupFinds(doc.entries, key);
    assert At(doc, [Key(key)]).Some? <==> Lookup(doc.entries, key).Some?;
  }

  /** The name a user sees for a DNS payload names its transport. */
  lemma DnsPayloadLabel(kind: Kind, addr: string, uuids: seq<string>)
    requires kind != HttpProxy && |uuids| == 4
    ensures At(Render(kind, addr, uuids), PayloadPath + [Key("PayloadDisplayName")])
            == Some(String(if kind == DnsOverTls then "dorsum DNS over TLS" else "dorsum DNS over HTTPS"))
  {
    PayloadField(kind, addr, uuids, 3, "PayloadDisplayName", String(DnsPayloadName(kind)));
  }

  /** The name a user sees for a DNS profile is shared by both transports. */
  lemma DnsProfileLabel(kind: Kind, addr: string, uuids: seq<string>)
    requires kind != HttpProxy && |uuids| == 4
    ensures At(Render(kind, addr, uuids), [Key("PayloadDisplayName")]) == Some(String("Encrypted DNS (DoH, DoT)"))
  {
    ProfileField(kind, addr, uuids, 2, "PayloadDisplayName", String(DnsProfileName));
  }

  /** Distinct UUIDs give pairwise distinct slot contents. */
  lemma SlotContentsDistinct(kind: Kind, addr: string, uuids: seq<string>, i: nat, j: nat)
    requires |uuids| == SlotCount(kind) && Distinct(uuids)
    requires i < j < |uuids|
    ensures SlotContent(Render(kind, addr, uuids), UuidSlots(kind)[i]) != SlotContent(Render(kind, addr, uuids), UuidSlots(kind)[j])
  {
    RenderFillsSlots(kind, addr, uuids);
  }

  /** A rendered profile determines its address and every UUID: no input is
      lost or overwritten by another. */
  lemma RenderInjective(kind: Kind, addr: string, uuids: seq<string>, addr': string, uuids': seq<string>)
    requires |uuids| == SlotCount(kind) && |uuids'| == SlotCount(kind)
    requires Render(kind, addr, uuids) == Render(kind, addr', uuids')
    ensures addr == addr' && uuids == uuids'
  {
    RenderFillsSlots(kind, addr, uuids);
    RenderFillsSlots(kind, addr', uuids');
    forall i | 0 <= i < |uuids|
      ensures uuids[i] == uuids'[i]
    {
    }
  }

  lemma OnDemandRulesWellFormed()
    ensures WellFormed(OnDemandRules)
  {
  }

  lemma DnsPayloadWellFormed(kind: Kind, addr: string, id: string, uuid: string)
    requires kind != HttpProxy
    ensures WellFormed(DnsPayload(kind, addr, id, uuid))
  {
    SettingsKeyOrder(kind, addr);
    assert WellFormed(DnsSettings(kind, addr));
    OnDemandRulesWellFormed();
    DnsPayloadKeyOrder(kind, addr, id, uuid);
  }

  lemma ProxyPayloadWellFormed(addr: string, uuid: string)
    ensures WellFormed(ProxyPayload(addr, uuid))
  {
  }

  /** Every dictionary of every profile names each key once, as the
      property-list format requires. */
  lemma RenderWellFormed(kind: Kind, addr: string, uuids: seq<string>)
    requires |uuids| == SlotCount(kind)
    ensures WellFormed(Render(kind, addr, uuids))
  {
    var payload := Payload(kind, addr, uuids);
    if kind == HttpProxy {
      ProxyPayloadWellFormed(addr, uuids[0]);
      ProxyProfileKeyOrder(addr, uuids);
    } else {
      DnsPayloadWellFormed(kind, addr, uuids[0], uuids[1]);
      DnsProfileKeyOrder(kind, addr, uuids);
    }
    assert WellFormed(Array([payload]));
  }
}
