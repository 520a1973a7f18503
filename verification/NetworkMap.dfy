/** Mapping a VM's interfaces onto the target's networks (netmap.go). */
module NetworkMap {
  import opened Collections
  import opened MigrationTypes

  /** A network is the first of the target's with a name. */
  ghost predicate IsFirstNamed(networks: seq<Network>, name: string, network: Network) {
    exists i ::
      && 0 <= i < |networks| && networks[i] == network && network.name == name
      && forall j :: 0 <= j < i ==> networks[j].name != name
  }

  ghost predicate Exists(networks: seq<Network>, name: string) {
    exists n :: n in networks && n.name == name
  }

  function FirstNamed(networks: seq<Network>, name: string): (r: Option<Network>)
    ensures r.Some? <==> Exists(networks, name)
    ensures r.Some? ==> IsFirstNamed(networks, name, r.value)
  {
    if networks == [] then None
    else if networks[0].name == name then Some(networks[0])
    else
      assert forall i :: 0 <= i < |networks| - 1 ==> networks[1..][i] == networks[i + 1];
      FirstNamed(networks[1..], name)
  }

  /** The target network of one interface, if its network is mapped to one that exists. */
  function NetworkFor(mappings: map<string, string>, networks: seq<Network>, nic: string): Option<Network> {
    if nic in mappings then FirstNamed(networks, mappings[nic]) else None
  }

  predicate AllMapped(mappings: map<string, string>, networks: seq<Network>, nics: seq<string>) {
    forall i :: 0 <= i < |nics| ==> NetworkFor(mappings, networks, nics[i]).Some?
  }

  /** One target network per interface, in order, when all of them can be mapped. */
  function NetworksFor(mappings: map<string, string>, networks: seq<Network>, nics: seq<string>): (r: seq<Network>)
    requires AllMapped(mappings, networks, nics)
    ensures |r| == |nics| && forall i :: 0 <= i < |r| ==> Some(r[i]) == NetworkFor(mappings, networks, nics[i])
  {
    seq(|nics|, i requires 0 <= i < |nics| => NetworkFor(mappings, networks, nics[i]).value)
  }

  method MapNic(mappings: map<string, string>, networks: seq<Network>, nic: string) returns (r: Option<Network>)
    ensures r == NetworkFor(mappings, networks, nic)
  {
    if nic !in mappings {
      return None;
    }
    for i := 0 to |networks|
      invariant FirstNamed(networks, mappings[nic]) == FirstNamed(networks[i..], mappings[nic])
    {
      assert networks[i..][1..] == networks[i + 1..];
      if networks[i].name == mappings[nic] {
        return Some(networks[i]);
      }
    }
    return None;
  }

  /** MapAllNICs goes through all interfaces and collects what fails. */
  method MapAllNics(mappings: map<string, string>, networks: seq<Network>, nics: seq<string>)
    returns (mapped: seq<Network>, failures: nat)
    ensures failures == 0 <==> AllMapped(mappings, networks, nics)
    ensures failures == 0 ==> mapped == NetworksFor(mappings, networks, nics)
    ensures failures == 0 <==>
              forall i :: 0 <= i < |nics| ==> nics[i] in mappings && Exists(networks, mappings[nics[i]])
    ensures failures == 0 ==>
              forall i :: 0 <= i < |nics| ==> IsFirstNamed(networks, mappings[nics[i]], mapped[i])
    ensures |mapped| + failures == |nics|
  {
    mapped, failures := [], 0;
    for i := 0 to |nics|
      invariant |mapped| + failures == i
      invariant failures == 0 <==> AllMapped(mappings, networks, nics[..i])
      invariant failures == 0 ==> mapped == NetworksFor(mappings, networks, nics[..i])
    {
      assert nics[..i + 1] == nics[..i] + [nics[i]];
      var target := MapNic(mappings, networks, nics[i]);
      if target.None? {
        assert nics[..i + 1][i] == nics[i];
        failures := failures + 1;
      } else {
        mapped := mapped + [target.value];
      }
    }
    assert nics[..|nics|] == nics;
  }
}
