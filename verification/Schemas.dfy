/** The settings of avahi-daemon.conf, and the order of its sections. */
module Schemas {
  datatype Kind = Bool | Dbus | HostLabel | Domain | Uint | Domains | Interfaces | Ips | Free

  const SERVER_NAMES: map<string, Kind> := map[
    "host-name" := HostLabel, "domain-name" := Domain, "host-name-from-machine-id" := Bool,
    "browse-domains" := Domains, "allow-interfaces" := Interfaces, "deny-interfaces" := Interfaces]
  const SERVER_SWITCHES: map<string, Kind> := map[
    "use-ipv4" := Bool, "use-ipv6" := Bool, "check-response-ttl" := Bool, "use-iff-running" := Bool,
    "enable-dbus" := Dbus, "disallow-other-stacks" := Bool, "allow-point-to-point" := Bool]
  const SERVER_LIMITS: map<string, Kind> := map[
    "cache-entries-max" := Uint, "clients-max" := Uint, "objects-per-client-max" := Uint]
  const SERVER_RATES: map<string, Kind> := map[
    "entries-per-entry-group-max" := Uint, "ratelimit-interval-usec" := Uint, "ratelimit-burst" := Uint]
  const PUBLISH_SWITCHES: map<string, Kind> := map[
    "disable-publishing" := Bool, "disable-user-service-publishing" := Bool, "add-service-cookie" := Bool]
  const PUBLISH_WHAT: map<string, Kind> := map[
    "publish-addresses" := Bool, "publish-hinfo" := Bool, "publish-workstation" := Bool, "publish-domain" := Bool,
    "publish-dns-servers" := Ips]
  const PUBLISH_HOW: map<string, Kind> := map[
    "publish-resolv-conf-dns-servers" := Bool, "publish-aaaa-on-ipv4" := Bool,
    "publish-a-on-ipv6" := Bool]
  const REFLECTOR: map<string, Kind> :=
    map["enable-reflector" := Bool, "reflect-ipv" := Bool, "reflect-filters" := Free]
  const RLIMITS: map<string, Kind> := map[
    "rlimit-as" := Uint, "rlimit-core" := Uint, "rlimit-data" := Uint, "rlimit-fsize" := Uint,
    "rlimit-nofile" := Uint, "rlimit-stack" := Uint, "rlimit-nproc" := Uint]

  const KINDS: map<string, map<string, Kind>> := map[
    "server" := SERVER_NAMES + SERVER_SWITCHES + SERVER_LIMITS + SERVER_RATES,
    "wide-area" := map["enable-wide-area" := Bool],
    "publish" := PUBLISH_SWITCHES + PUBLISH_WHAT + PUBLISH_HOW,
    "reflector" := REFLECTOR,
    "rlimits" := RLIMITS]

  const ORDER := ["server", "wide-area", "publish", "reflector", "rlimits"]

  /** Names of the schema: lower-case letters, digits and dashes. */
  predicate Plain(s: string) {
    s != "" && forall i | 0 <= i < |s| :: 'a' <= s[i] <= 'z' || '0' <= s[i] <= '9' || s[i] == '-'
  }

  ghost predicate AllPlain(m: map<string, Kind>) {
    forall k | k in m :: Plain(k)
  }

  lemma ServerNamesPlain()
    ensures AllPlain(SERVER_NAMES)
  {
    assert Plain("host-name") && Plain("domain-name") && Plain("host-name-from-machine-id") &&
      Plain("browse-domains") && Plain("allow-interfaces") && Plain("deny-interfaces");
    hide Plain;
  }

  lemma ServerSwitchesPlain()
    ensures AllPlain(SERVER_SWITCHES)
  {
    assert Plain("use-ipv4") && Plain("use-ipv6") && Plain("check-response-ttl") && Plain("use-iff-running") &&
      Plain("enable-dbus") && Plain("disallow-other-stacks") && Plain("allow-point-to-point");
    hide Plain;
  }

  lemma ServerLimitsPlain()
    ensures AllPlain(SERVER_LIMITS)
  {
    assert Plain("cache-entries-max") && Plain("clients-max") && Plain("objects-per-client-max");
    hide Plain;
  }

  lemma ServerRatesPlain()
    ensures AllPlain(SERVER_RATES)
  {
    assert Plain("entries-per-entry-group-max") && Plain("ratelimit-interval-usec") && Plain("ratelimit-burst");
    hide Plain;
  }

  lemma PublishSwitchesPlain()
    ensures AllPlain(PUBLISH_SWITCHES)
  {
    assert Plain("disable-publishing") && Plain("disable-user-service-publishing") && Plain("add-service-cookie");
    hide Plain;
  }

  lemma PublishWhatPlain()
    ensures AllPlain(PUBLISH_WHAT)
  {
    assert Plain("publish-addresses") && Plain("publish-hinfo") && Plain("publish-workstation") &&
      Plain("publish-domain") && Plain("publish-dns-servers");
    hide Plain;
  }

  lemma PublishHowPlain()
    ensures AllPlain(PUBLISH_HOW)
  {
    assert Plain("publish-resolv-conf-dns-servers") && Plain("publish-aaaa-on-ipv4") && Plain("publish-a-on-ipv6");
    hide Plain;
  }

  lemma ReflectorPlain()
    ensures AllPlain(REFLECTOR)
  {
    assert Plain("enable-reflector") && Plain("reflect-ipv") && Plain("reflect-filters");
    hide Plain;
  }

  lemma RlimitsPlain()
    ensures AllPlain(RLIMITS)
  {
    assert Plain("rlimit-as") && Plain("rlimit-core") && Plain("rlimit-data") && Plain("rlimit-fsize") &&
      Plain("rlimit-nofile") && Plain("rlimit-stack") && Plain("rlimit-nproc");
    hide Plain;
  }

  /** Every name of the schema is plain, and the sections are those that Marshal visits. */
  lemma SchemaPlain()
    ensures KINDS.Keys == set s | s in ORDER
    ensures forall i | 0 <= i < |ORDER| :: Plain(ORDER[i])
    ensures forall s | s in KINDS :: AllPlain(KINDS[s])
  {
    ServerNamesPlain();
    ServerSwitchesPlain();
    ServerLimitsPlain();
    ServerRatesPlain();
    PublishSwitchesPlain();
    PublishWhatPlain();
    PublishHowPlain();
    ReflectorPlain();
    RlimitsPlain();
    OrderPlain();
    WideAreaPlain();
    hide SERVER_NAMES, SERVER_SWITCHES, SERVER_LIMITS, SERVER_RATES, PUBLISH_SWITCHES, PUBLISH_WHAT, PUBLISH_HOW,
      REFLECTOR, RLIMITS, Plain;
  }

  lemma OrderPlain()
    ensures forall i | 0 <= i < |ORDER| :: Plain(ORDER[i])
  {
  }

  lemma WideAreaPlain()
    ensures AllPlain(map["enable-wide-area" := Bool])
  {
  }
}
