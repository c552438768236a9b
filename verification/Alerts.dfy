// The alerts raised when a window closes, as tags with their data.
module Alerts {
  import opened Basics

  datatype Alert =
    | ClockLostAlert(domain: nat, version: nat, kind: Option<string>)
    | ClockDropout
    | StreamCountSpike(current: nat, average: nat)
    | QueryIntervalLong(secs: nat)
    | MultipleQuerierAlert(ips: set<Ip>)
    | QuerierVersionMismatch
    | FilterUnregistered
    | HighMulticastBandwidth(bytes: nat)
    | SnoopingBlocksPtp
    | NoDhcpAddress(ip: Ip)
    | SubnetsSpanned(subnets: nat)
    | RedundancyBridged(mac: nat, ips: set<Ip>)
    | FollowersMissing(ips: set<Ip>)
    | MultiplePreferredLeaders(domain: nat, ips: set<Ip>)
    | MultipleSyncSenders(domain: nat, ips: set<Ip>)
}
