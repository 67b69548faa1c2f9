/**
 * The reaper of reaper/watcher.go: the orphan reaper run on every metadata change
 * (onChange, removeContainer) and the duplicate-singleton guard (CheckMetadata).
 *
 * The Docker client is a class that answers from fixed outcome oracles and records
 * every call made on it in `calls`; the metadata client is an immutable snapshot.
 * Each method is specified by a pure function giving the calls it issues, and the
 * lemmas below state what those calls are.
 */
module Reaper {
  import opened Common

  const UuidLabel := "io.rancher.container.uuid"
  const ServiceNameLabel := "io.rancher.stack_service.name"
  const MetadataService := "network-services/metadata"
  const DnsService := "network-services/metadata/dns"

  /** The agent's own container, never removed. */
  const AgentName := "/rancher-agent"
  const RunningState := "running"
  /** The grace period of every duplicate stop: time.Duration(0). */
  const StopTimeout := 0

  datatype Host = Host(uuid: string)

  /** A container record of the metadata service. */
  datatype MetadataContainer = MetadataContainer(
    uuid: string,
    externalId: string,
    hostUuid: string,
    name: string,
    labels: map<string, string>)

  /** The metadata client, as the answers of GetSelfHost and GetContainers. */
  datatype MetadataClient = MetadataClient(
    selfHost: Result<Host>,
    containers: Result<seq<MetadataContainer>>)

  /** One entry of Docker's container list. */
  datatype ContainerSummary = ContainerSummary(id: string, state: string, labels: map<string, string>)

  /** A call issued on the Docker client. */
  datatype DockerCall =
    | ListAll
    | Inspect(id: string)
    | Remove(id: string, force: bool)
    | Stop(id: string, timeout: int)

  /** Go's `labels[key]`: a missing key reads as the empty string. */
  function Label(labels: map<string, string>, key: string): (value: string)
  {
    if key in labels then labels[key] else ""
  }

  /**
   * The Docker client. `listing` answers ContainerList; `names` maps the container IDs
   * that inspect successfully to their names (any other ID fails to inspect);
   * `removeFailures` and `stopFailures` are the IDs whose remove or stop fails.
   */
  class DockerClient {
    const listing: Result<seq<ContainerSummary>>
    const names: map<string, string>
    const removeFailures: set<string>
    const stopFailures: set<string>
    var calls: seq<DockerCall>

    constructor (listing: Result<seq<ContainerSummary>>, names: map<string, string>,
                 removeFailures: set<string>, stopFailures: set<string>)
      ensures this.listing == listing && this.names == names
      ensures this.removeFailures == removeFailures && this.stopFailures == stopFailures
      ensures calls == []
    {
      this.listing := listing;
      this.names := names;
      this.removeFailures := removeFailures;
      this.stopFailures := stopFailures;
      calls := [];
    }

    /** ContainerList with All: true. */
    method ContainerList() returns (r: Result<seq<ContainerSummary>>)
      modifies this`calls
      ensures r == listing
      ensures calls == old(calls) + [ListAll]
    {
      r := listing;
      calls := calls + [ListAll];
    }

    /** ContainerInspect, giving the inspected name. */
    method ContainerInspect(id: string) returns (r: Result<string>)
      modifies this`calls
      ensures r.Ok? <==> id in names
      ensures r.Ok? ==> r.value == names[id]
      ensures calls == old(calls) + [Inspect(id)]
    {
      r := if id in names then Ok(names[id]) else Err(Error("no such container: " + id));
      calls := calls + [Inspect(id)];
    }

    method ContainerRemove(id: string, force: bool) returns (err: Option<Error>)
      modifies this`calls
      ensures err.Some? <==> id in removeFailures
      ensures calls == old(calls) + [Remove(id, force)]
    {
      err := if id in removeFailures then Some(Error("remove failed: " + id)) else None;
      calls := calls + [Remove(id, force)];
    }

    method ContainerStop(id: string, timeout: int) returns (err: Option<Error>)
      modifies this`calls
      ensures err.Some? <==> id in stopFailures
      ensures calls == old(calls) + [Stop(id, timeout)]
    {
      err := if id in stopFailures then Some(Error("stop failed: " + id)) else None;
      calls := calls + [Stop(id, timeout)];
    }
  }

  // ---------------------------------------------------------------------------
  // Orphan reaper: specification

  /** A record on this host whose uuid label is present and differs from its UUID. */
  predicate IsOrphan(host: Host, c: MetadataContainer)
  {
    c.hostUuid == host.uuid && UuidLabel in c.labels && c.labels[UuidLabel] != c.uuid
  }

  /** The inspect of `c` succeeds and does not name the agent's own container. */
  predicate Removable(names: map<string, string>, c: MetadataContainer)
  {
    c.externalId in names && names[c.externalId] != AgentName
  }

  /** The calls removeContainer issues for `c`. */
  function RemovalCalls(names: map<string, string>, c: MetadataContainer): (calls: seq<DockerCall>)
  {
    [Inspect(c.externalId)] + (if Removable(names, c) then [Remove(c.externalId, true)] else [])
  }

  /** The calls one pass of onChange issues over the records `cs`, in order. */
  function OnChangeCalls(host: Host, names: map<string, string>, cs: seq<MetadataContainer>): (calls: seq<DockerCall>)
  {
    if cs == [] then []
    else
      var c := cs[|cs| - 1];
      OnChangeCalls(host, names, cs[..|cs| - 1]) + (if IsOrphan(host, c) then RemovalCalls(names, c) else [])
  }

  /** The orphans among `cs`, in list order. */
  function Orphans(host: Host, cs: seq<MetadataContainer>): (r: seq<MetadataContainer>)
    ensures |r| <= |cs|
    ensures forall c :: c in r <==> c in cs && IsOrphan(host, c)
  {
    if cs == [] then []
    else
      var c := cs[|cs| - 1];
      assert cs == cs[..|cs| - 1] + [c];
      Orphans(host, cs[..|cs| - 1]) + (if IsOrphan(host, c) then [c] else [])
  }

  /** The orphans among `cs` that are actually removed, in list order. */
  function Doomed(host: Host, names: map<string, string>, cs: seq<MetadataContainer>): (r: seq<MetadataContainer>)
    ensures |r| <= |Orphans(host, cs)|
    ensures forall c :: c in r <==> c in cs && IsOrphan(host, c) && Removable(names, c)
  {
    if cs == [] then []
    else
      var c := cs[|cs| - 1];
      assert cs == cs[..|cs| - 1] + [c];
      Doomed(host, names, cs[..|cs| - 1]) + (if IsOrphan(host, c) && Removable(names, c) then [c] else [])
  }

  function ExternalIds(cs: seq<MetadataContainer>): (ids: seq<string>)
  {
    seq(|cs|, i requires 0 <= i < |cs| => cs[i].externalId)
  }

  /** The IDs inspected by `calls`, in order. */
  function InspectedIds(calls: seq<DockerCall>): (ids: seq<string>)
  {
    if calls == [] then []
    else
      var call := calls[|calls| - 1];
      InspectedIds(calls[..|calls| - 1]) + (if call.Inspect? then [call.id] else [])
  }

  /** The IDs removed by `calls`, in order. */
  function RemovedIds(calls: seq<DockerCall>): (ids: seq<string>)
  {
    if calls == [] then []
    else
      var call := calls[|calls| - 1];
      RemovedIds(calls[..|calls| - 1]) + (if call.Remove? then [call.id] else [])
  }

  /** Each orphan appears in Orphans as often as in the input; nothing else appears. */
  lemma {:induction false} OrphansCount(host: Host, cs: seq<MetadataContainer>, c: MetadataContainer)
    ensures multiset(Orphans(host, cs))[c] == if IsOrphan(host, c) then multiset(cs)[c] else 0
    decreases |cs|
  {
    if cs != [] {
      var prefix := cs[..|cs| - 1];
      assert cs == prefix + [cs[|cs| - 1]];
      OrphansCount(host, prefix, c);
    }
  }

  /** Each removable orphan appears in Doomed as often as in the input; nothing else appears. */
  lemma {:induction false} DoomedCount(host: Host, names: map<string, string>, cs: seq<MetadataContainer>,
                                       c: MetadataContainer)
    ensures multiset(Doomed(host, names, cs))[c] ==
              if IsOrphan(host, c) && Removable(names, c) then multiset(cs)[c] else 0
    decreases |cs|
  {
    if cs != [] {
      var prefix := cs[..|cs| - 1];
      assert cs == prefix + [cs[|cs| - 1]];
      DoomedCount(host, names, prefix, c);
    }
  }

  // ---------------------------------------------------------------------------
  // Orphan reaper: the code

  /** The watcher struct: a Docker client and a metadata client. */
  class Watcher {
    const dc: DockerClient
    const c: MetadataClient

    constructor (dc: DockerClient, c: MetadataClient)
      ensures this.dc == dc && this.c == c
    {
      this.dc := dc;
      this.c := c;
    }

    /**
     * One reconciliation pass. A failing GetSelfHost or GetContainers is returned and no
     * Docker call is made; otherwise every orphan record is handed to RemoveContainer and
     * the pass returns no error, whatever the removals did.
     */
    method OnChange(version: string) returns (err: Option<Error>)
      modifies dc`calls
      ensures c.selfHost.Err? ==> err == Some(c.selfHost.error) && dc.calls == old(dc.calls)
      ensures c.selfHost.Ok? && c.containers.Err? ==>
                err == Some(c.containers.error) && dc.calls == old(dc.calls)
      ensures c.selfHost.Ok? && c.containers.Ok? ==>
                err == None &&
                dc.calls == old(dc.calls) + OnChangeCalls(c.selfHost.value, dc.names, c.containers.value)
    {
      if c.selfHost.Err? {
        return Some(c.selfHost.error);
      }
      var host := c.selfHost.value;
      if c.containers.Err? {
        return Some(c.containers.error);
      }
      var containers := c.containers.value;

      for i := 0 to |containers|
        invariant dc.calls == old(dc.calls) + OnChangeCalls(host, dc.names, containers[..i])
      {
        var container := containers[i];
        assert containers[..i + 1][..i] == containers[..i];
        if container.hostUuid != host.uuid {
          continue;
        }
        if UuidLabel !in container.labels {
          continue;
        }
        var uuid := container.labels[UuidLabel];
        if container.uuid != uuid {
          RemoveContainer(container);
        }
      }
      assert containers[..|containers|] == containers;
      return None;
    }

    /**
     * Inspects the container; removes it with force unless the inspect fails or names
     * the agent. A failing remove is only logged.
     */
    method RemoveContainer(container: MetadataContainer)
      modifies dc`calls
      ensures dc.calls == old(dc.calls) + RemovalCalls(dc.names, container)
    {
      var inspected := dc.ContainerInspect(container.externalId);
      if inspected.Err? {
        return;
      }
      if inspected.value == AgentName {
        return;
      }
      var removeErr := dc.ContainerRemove(container.externalId, true);
    }
  }

  // ---------------------------------------------------------------------------
  // Orphan reaper: properties

  lemma {:induction false} InspectedIdsAppend(a: seq<DockerCall>, b: seq<DockerCall>)
    ensures InspectedIds(a + b) == InspectedIds(a) + InspectedIds(b)
    decreases |b|
  {
    if b == [] {
      assert a + b == a;
    } else {
      var b' := b[..|b| - 1];
      assert (a + b)[..|a + b| - 1] == a + b';
      InspectedIdsAppend(a, b');
    }
  }

  lemma {:induction false} RemovedIdsAppend(a: seq<DockerCall>, b: seq<DockerCall>)
    ensures RemovedIds(a + b) == RemovedIds(a) + RemovedIds(b)
    decreases |b|
  {
    if b == [] {
      assert a + b == a;
    } else {
      var b' := b[..|b| - 1];
      assert (a + b)[..|a + b| - 1] == a + b';
      RemovedIdsAppend(a, b');
    }
  }

  /** removeContainer for one record inspects it once and removes it only when Removable. */
  lemma RemovalCallsEffect(names: map<string, string>, c: MetadataContainer)
    ensures InspectedIds(RemovalCalls(names, c)) == [c.externalId]
    ensures RemovedIds(RemovalCalls(names, c)) == if Removable(names, c) then [c.externalId] else []
  {
    var rest := if Removable(names, c) then [Remove(c.externalId, true)] else [];
    InspectedIdsAppend([Inspect(c.externalId)], rest);
    RemovedIdsAppend([Inspect(c.externalId)], rest);
    assert [Inspect(c.externalId)][..0] == [];
    if Removable(names, c) {
      assert rest[..0] == [];
    }
  }

  lemma ExternalIdsSnoc(cs: seq<MetadataContainer>, c: MetadataContainer)
    ensures ExternalIds(cs + [c]) == ExternalIds(cs) + [c.externalId]
  {
  }

  /** removeContainer is called exactly once per orphan, in list order: one inspect each. */
  lemma {:induction false} OnChangeInspectsEachOrphan(host: Host, names: map<string, string>, cs: seq<MetadataContainer>)
    ensures InspectedIds(OnChangeCalls(host, names, cs)) == ExternalIds(Orphans(host, cs))
    decreases |cs|
  {
    if cs != [] {
      var c := cs[|cs| - 1];
      var prefix := cs[..|cs| - 1];
      OnChangeInspectsEachOrphan(host, names, prefix);
      var tail := if IsOrphan(host, c) then RemovalCalls(names, c) else [];
      InspectedIdsAppend(OnChangeCalls(host, names, prefix), tail);
      if IsOrphan(host, c) {
        RemovalCallsEffect(names, c);
        ExternalIdsSnoc(Orphans(host, prefix), c);
      } else {
        assert Orphans(host, cs) == Orphans(host, prefix) + [];
      }
    }
  }

  /** Exactly the orphans whose inspect succeeds and is not the agent are removed, in list order. */
  lemma {:induction false} OnChangeRemovesExactlyDoomed(host: Host, names: map<string, string>, cs: seq<MetadataContainer>)
    ensures RemovedIds(OnChangeCalls(host, names, cs)) == ExternalIds(Doomed(host, names, cs))
    decreases |cs|
  {
    if cs != [] {
      var c := cs[|cs| - 1];
      var prefix := cs[..|cs| - 1];
      OnChangeRemovesExactlyDoomed(host, names, prefix);
      var tail := if IsOrphan(host, c) then RemovalCalls(names, c) else [];
      RemovedIdsAppend(OnChangeCalls(host, names, prefix), tail);
      if IsOrphan(host, c) {
        RemovalCallsEffect(names, c);
      }
      if IsOrphan(host, c) && Removable(names, c) {
        ExternalIdsSnoc(Doomed(host, names, prefix), c);
      } else {
        assert Doomed(host, names, cs) == Doomed(host, names, prefix) + [];
      }
    }
  }

  /**
   * A remove call is issued for `id` exactly when some orphan record with that external
   * ID inspects successfully under a name other than the agent's, and it always forces.
   */
  lemma {:induction false} OnChangeRemoveIff(host: Host, names: map<string, string>, cs: seq<MetadataContainer>,
                                             id: string, force: bool)
    ensures Remove(id, force) in OnChangeCalls(host, names, cs) <==>
              force && exists c :: c in cs && IsOrphan(host, c) && Removable(names, c) && c.externalId == id
    decreases |cs|
  {
    if cs != [] {
      var c := cs[|cs| - 1];
      var prefix := cs[..|cs| - 1];
      assert cs == prefix + [c];
      OnChangeRemoveIff(host, names, prefix, id, force);
    }
  }

  /** Every call of a pass targets a record of this host whose uuid label is present and differs. */
  lemma {:induction false} OnChangeTouchesOnlyOrphans(host: Host, names: map<string, string>, cs: seq<MetadataContainer>)
    ensures forall call :: call in OnChangeCalls(host, names, cs) ==>
              (call.Inspect? || call.Remove?) &&
              exists c :: c in cs && c.externalId == call.id && c.hostUuid == host.uuid &&
                          UuidLabel in c.labels && c.labels[UuidLabel] != c.uuid
    decreases |cs|
  {
    if cs != [] {
      var c := cs[|cs| - 1];
      var prefix := cs[..|cs| - 1];
      assert cs == prefix + [c];
      OnChangeTouchesOnlyOrphans(host, names, prefix);
    }
  }

  /** The agent's container, and a container whose inspect fails, are never removed. */
  lemma {:induction false} AgentNeverRemoved(host: Host, names: map<string, string>, cs: seq<MetadataContainer>, id: string, force: bool)
    requires id !in names || names[id] == AgentName
    ensures Remove(id, force) !in OnChangeCalls(host, names, cs)
  {
    OnChangeRemoveIff(host, names, cs, id, force);
  }

  // ---------------------------------------------------------------------------
  // Duplicate singleton guard: specification

  /** A running container with a non-empty uuid label and the given service-name label. */
  predicate IsServiceMatch(c: ContainerSummary, service: string)
  {
    c.state == RunningState && Label(c.labels, UuidLabel) != "" && Label(c.labels, ServiceNameLabel) == service
  }

  /** The IDs of the containers of `cs` that match `service`, in list order. */
  function MatchIds(cs: seq<ContainerSummary>, service: string): (r: seq<string>)
    ensures |r| <= |cs|
    ensures forall id :: id in r <==> exists i :: 0 <= i < |cs| && cs[i].id == id && IsServiceMatch(cs[i], service)
  {
    if cs == [] then []
    else
      var c := cs[|cs| - 1];
      var prefix := cs[..|cs| - 1];
      assert forall i :: 0 <= i < |prefix| ==> prefix[i] == cs[i];
      MatchIds(prefix, service) + (if IsServiceMatch(c, service) then [c.id] else [])
  }

  /**
   * The IDs CheckMetadata stops: the last (oldest) match of each service that has more
   * than one, the metadata service first.
   */
  function StopTargets(cs: seq<ContainerSummary>): (r: seq<string>)
    ensures |r| == (if |MatchIds(cs, MetadataService)| > 1 then 1 else 0) +
                   (if |MatchIds(cs, DnsService)| > 1 then 1 else 0)
    ensures forall id :: id in r ==> id in MatchIds(cs, MetadataService) || id in MatchIds(cs, DnsService)
    ensures |MatchIds(cs, MetadataService)| > 1 ==>
              r[0] == MatchIds(cs, MetadataService)[|MatchIds(cs, MetadataService)| - 1]
    ensures |MatchIds(cs, DnsService)| > 1 ==>
              r[|r| - 1] == MatchIds(cs, DnsService)[|MatchIds(cs, DnsService)| - 1]
  {
    var metadataIds := MatchIds(cs, MetadataService);
    var dnsIds := MatchIds(cs, DnsService);
    (if |metadataIds| > 1 then [metadataIds[|metadataIds| - 1]] else []) +
    (if |dnsIds| > 1 then [dnsIds[|dnsIds| - 1]] else [])
  }

  /** One zero-timeout stop per ID, in order. */
  function StopCalls(ids: seq<string>): (calls: seq<DockerCall>)
  {
    seq(|ids|, i requires 0 <= i < |ids| => Stop(ids[i], StopTimeout))
  }

  // ---------------------------------------------------------------------------
  // Duplicate singleton guard: the code

  /**
   * One detection pass. A failing list is returned and nothing is stopped; otherwise the
   * stop targets are stopped with a zero timeout and the pass returns no error, whatever
   * the stops did.
   */
  method CheckMetadata(dc: DockerClient) returns (err: Option<Error>)
    modifies dc`calls
    ensures dc.listing.Err? ==> err == Some(dc.listing.error) && dc.calls == old(dc.calls) + [ListAll]
    ensures dc.listing.Ok? ==>
              err == None && dc.calls == old(dc.calls) + [ListAll] + StopCalls(StopTargets(dc.listing.value))
  {
    var listed := dc.ContainerList();
    if listed.Err? {
      return Some(listed.error);
    }
    var containers := listed.value;

    var metadataIds: seq<string> := [];
    var dnsIds: seq<string> := [];
    for i := 0 to |containers|
      invariant metadataIds == MatchIds(containers[..i], MetadataService)
      invariant dnsIds == MatchIds(containers[..i], DnsService)
    {
      var container := containers[i];
      assert containers[..i + 1][..i] == containers[..i];
      if container.state != RunningState {
        continue;
      }
      if Label(container.labels, UuidLabel) != "" && Label(container.labels, ServiceNameLabel) == MetadataService {
        metadataIds := metadataIds + [container.id];
      }
      if Label(container.labels, UuidLabel) != "" && Label(container.labels, ServiceNameLabel) == DnsService {
        dnsIds := dnsIds + [container.id];
      }
    }
    assert containers[..|containers|] == containers;

    // Lists are ordered newest to oldest, so the last match is the one stopped.
    var toStop: seq<string> := [];
    if |metadataIds| > 1 {
      toStop := toStop + [metadataIds[|metadataIds| - 1]];
    }
    if |dnsIds| > 1 {
      toStop := toStop + [dnsIds[|dnsIds| - 1]];
    }

    ghost var listedCalls := dc.calls;
    for j := 0 to |toStop|
      invariant dc.calls == listedCalls + StopCalls(toStop[..j])
    {
      var stopErr := dc.ContainerStop(toStop[j], StopTimeout);
    }
    assert toStop[..|toStop|] == toStop;
    return None;
  }

  // ---------------------------------------------------------------------------
  // Duplicate singleton guard: properties

  /**
   * When a service has more than one match, the ID stopped for it belongs to its last
   * match in the (newest-first) list, and a newer match of the same service remains.
   */
  lemma {:induction false} StopTargetIsOldestMatch(cs: seq<ContainerSummary>, service: string)
    requires |MatchIds(cs, service)| > 1
    ensures exists i, k :: 0 <= k < i < |cs| &&
              IsServiceMatch(cs[k], service) && IsServiceMatch(cs[i], service) &&
              cs[i].id == MatchIds(cs, service)[|MatchIds(cs, service)| - 1] &&
              forall j :: i < j < |cs| ==> !IsServiceMatch(cs[j], service)
    decreases |cs|
  {
    var n := |cs|;
    var c := cs[n - 1];
    var prefix := cs[..n - 1];
    var m := MatchIds(prefix, service);
    if IsServiceMatch(c, service) {
      assert |m| >= 1;
      assert m[0] in m;
      var k :| 0 <= k < |prefix| && prefix[k].id == m[0] && IsServiceMatch(prefix[k], service);
      assert cs[k] == prefix[k];
      assert 0 <= k < n - 1 && IsServiceMatch(cs[k], service) && IsServiceMatch(cs[n - 1], service);
    } else {
      assert MatchIds(cs, service) == m;
      StopTargetIsOldestMatch(prefix, service);
      var i, k :| 0 <= k < i < |prefix| &&
              IsServiceMatch(prefix[k], service) && IsServiceMatch(prefix[i], service) &&
              prefix[i].id == m[|m| - 1] &&
              forall j :: i < j < |prefix| ==> !IsServiceMatch(prefix[j], service);
      assert cs[k] == prefix[k] && cs[i] == prefix[i];
      assert forall j :: i < j < n ==> !IsServiceMatch(cs[j], service) by {
        forall j | i < j < n ensures !IsServiceMatch(cs[j], service) {
          if j < n - 1 {
            assert cs[j] == prefix[j];
          }
        }
      }
    }
  }

  /** Two matching containers of a service mean more than one collected ID, hence a stop. */
  lemma {:induction false} TwoMatchesCollected(cs: seq<ContainerSummary>, service: string, k: nat, i: nat)
    requires k < i < |cs| && IsServiceMatch(cs[k], service) && IsServiceMatch(cs[i], service)
    ensures |MatchIds(cs, service)| > 1
    decreases |cs|
  {
    var n := |cs|;
    var prefix := cs[..n - 1];
    if i < n - 1 {
      assert prefix[k] == cs[k] && prefix[i] == cs[i];
      TwoMatchesCollected(prefix, service, k, i);
    } else {
      assert prefix[k] == cs[k];
      assert cs[k].id in MatchIds(prefix, service);
    }
  }

  /** At most one matching container of a service means at most one collected ID, hence no stop. */
  lemma AtMostOneMatchCollected(cs: seq<ContainerSummary>, service: string)
    requires forall k, i :: 0 <= k < i < |cs| ==> !(IsServiceMatch(cs[k], service) && IsServiceMatch(cs[i], service))
    ensures |MatchIds(cs, service)| <= 1
  {
    if |MatchIds(cs, service)| > 1 {
      StopTargetIsOldestMatch(cs, service);
    }
  }

  /** The match lists keep list order: earlier IDs come from earlier (newer) containers. */
  lemma {:induction false} MatchIdsKeepListOrder(cs: seq<ContainerSummary>, service: string, p: nat, q: nat)
    requires p < q < |MatchIds(cs, service)|
    ensures exists i, j :: 0 <= i < j < |cs| &&
              cs[i].id == MatchIds(cs, service)[p] && IsServiceMatch(cs[i], service) &&
              cs[j].id == MatchIds(cs, service)[q] && IsServiceMatch(cs[j], service)
    decreases |cs|
  {
    var n := |cs|;
    var c := cs[n - 1];
    var prefix := cs[..n - 1];
    var m := MatchIds(prefix, service);
    if IsServiceMatch(c, service) && q == |m| {
      assert m[p] in m;
      var i :| 0 <= i < |prefix| && prefix[i].id == m[p] && IsServiceMatch(prefix[i], service);
      assert cs[i] == prefix[i];
      assert MatchIds(cs, service)[q] == cs[n - 1].id;
    } else {
      assert q < |m|;
      assert MatchIds(cs, service)[p] == m[p] && MatchIds(cs, service)[q] == m[q];
      MatchIdsKeepListOrder(prefix, service, p, q);
      var i, j :| 0 <= i < j < |prefix| &&
              prefix[i].id == m[p] && IsServiceMatch(prefix[i], service) &&
              prefix[j].id == m[q] && IsServiceMatch(prefix[j], service);
      assert cs[i] == prefix[i] && cs[j] == prefix[j];
    }
  }

  /** Container IDs are unique within one listing. */
  ghost predicate DistinctIds(cs: seq<ContainerSummary>)
  {
    forall i, j :: 0 <= i < j < |cs| ==> cs[i].id != cs[j].id
  }

  /** With unique IDs, no container is collected both as metadata and as dns. */
  lemma ServiceMatchesDisjoint(cs: seq<ContainerSummary>)
    requires DistinctIds(cs)
    ensures forall id :: !(id in MatchIds(cs, MetadataService) && id in MatchIds(cs, DnsService))
  {
    assert |MetadataService| != |DnsService|;
    forall id | id in MatchIds(cs, MetadataService)
      ensures id !in MatchIds(cs, DnsService)
    {
      var i :| 0 <= i < |cs| && cs[i].id == id && IsServiceMatch(cs[i], MetadataService);
    }
  }

  /** With unique IDs, at most one container per service is stopped and the two stops differ. */
  lemma StopTargetsDistinct(cs: seq<ContainerSummary>)
    requires DistinctIds(cs)
    ensures |StopTargets(cs)| == 2 ==> StopTargets(cs)[0] != StopTargets(cs)[1]
  {
    var r := StopTargets(cs);
    if |r| == 2 {
      var m := MatchIds(cs, MetadataService);
      var d := MatchIds(cs, DnsService);
      assert r[0] == m[|m| - 1] && r[1] == d[|d| - 1];
      assert r[0] in m && r[1] in d;
      ServiceMatchesDisjoint(cs);
    }
  }

  // ---------------------------------------------------------------------------
  // Worked cases

  /** A record of this host labelled "a2" but with UUID "a1", inspected as "/web-1": inspected, then removed. */
  lemma MismatchedRecordRemoved()
    ensures OnChangeCalls(Host("h"), map["d1" := "/web-1"],
              [MetadataContainer("a1", "d1", "h", "web-1", map[UuidLabel := "a2"])]) ==
            [Inspect("d1"), Remove("d1", true)]
  {
  }

  /** The same record inspected as the agent: inspected only. */
  lemma MismatchedAgentKept()
    ensures OnChangeCalls(Host("h"), map["d1" := AgentName],
              [MetadataContainer("a1", "d1", "h", "web-1", map[UuidLabel := "a2"])]) ==
            [Inspect("d1")]
  {
  }

  /** A record of this host without a uuid label is not touched at all. */
  lemma UnlabelledRecordSkipped()
    ensures OnChangeCalls(Host("h"), map["d1" := "/web-1"],
              [MetadataContainer("a1", "d1", "h", "web-1", map[])]) == []
  {
  }

  /** Three running metadata instances listed newest first: only the oldest is stopped. */
  lemma OldestOfThreeStopped()
    ensures StopTargets([
              ContainerSummary("m3", RunningState, map[UuidLabel := "u3", ServiceNameLabel := MetadataService]),
              ContainerSummary("m2", RunningState, map[UuidLabel := "u2", ServiceNameLabel := MetadataService]),
              ContainerSummary("m1", RunningState, map[UuidLabel := "u1", ServiceNameLabel := MetadataService])]) ==
            ["m1"]
  {
    var m3 := ContainerSummary("m3", RunningState, map[UuidLabel := "u3", ServiceNameLabel := MetadataService]);
    var m2 := ContainerSummary("m2", RunningState, map[UuidLabel := "u2", ServiceNameLabel := MetadataService]);
    var m1 := ContainerSummary("m1", RunningState, map[UuidLabel := "u1", ServiceNameLabel := MetadataService]);
    assert |MetadataService| != |DnsService|;
    assert [m3, m2, m1][..2] == [m3, m2] && [m3, m2][..1] == [m3] && [m3][..0] == [];
    assert MatchIds([m3, m2], MetadataService) == ["m3", "m2"];
    assert MatchIds([m3, m2, m1], MetadataService) == ["m3", "m2", "m1"];
    assert !IsServiceMatch(m3, DnsService) && !IsServiceMatch(m2, DnsService) && !IsServiceMatch(m1, DnsService);
    assert forall id :: id !in MatchIds([m3, m2, m1], DnsService);

  }
}
