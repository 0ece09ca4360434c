/**
 * Resource state and usage helpers of the management console: state-icon
 * tables per resource kind, the type-icon and display-name lookups, resource
 * ids, the buckets connected to a resource and the distribution of a
 * resource's usage over buckets.
 *
 * Everything here is a pure function of its arguments. Sizes are `nat`
 * (bytes), ratios `real`. Where the source evaluates to a JavaScript
 * `undefined`, `false` or a thrown TypeError, the model returns None or the
 * matching constructor of IconResult.
 */
module ResourceUtils {
  import opened Optional

  const GB: nat := 1073741824

  // ---------------------------------------------------------------------------
  // State icons

  /** The resource modes that the state tables name. */
  datatype Mode =
    | HasNoNodes | AllNodesOffline | NoCapacity | AllHostsInProcess
    | MostNodesIssues | ManyNodesIssues | MostStorageIssues | ManyStorageIssues
    | MostS3Issues | ManyS3Issues | ManyNodesOffline | LowCapacity
    | HighDataActivity | Optimal | IoErrors | StorageNotExist | AuthFailed | Initializing

  /**
   * An icon's tooltip. Two tooltips are rendered by formatting libraries; the
   * model keeps the values they format: the offline share of a pool's hosts,
   * and the capacity limit in bytes.
   */
  datatype Tooltip =
    | Text(text: string)
    | OfflineShare(offlineHosts: nat, hostCount: nat)
    | CapacityBelow(limit: real)

  datatype StateIcon = StateIcon(tooltip: Tooltip, css: string, name: string)

  /** The fields of a pool or resource that the state lookups read. */
  datatype Resource = Resource(
    mode: Mode,
    cloudType: string,           // `type` of a cloud resource: 'AWS', 'AZURE', ...
    service: string,             // `service` of a namespace resource
    hostCount: nat,
    offlineHosts: Option<nat>,   // `hostsByMode.OFFLINE`
    storageFree: nat)            // `storage.free`, in bytes

  /** A state table entry: a fixed icon, or a function of the resource. */
  datatype Entry = Fixed(icon: StateIcon) | Computed(render: Resource -> StateIcon)

  const HEALTHY: StateIcon := StateIcon(Text("Healthy"), "success", "healthy")

  function Problem(text: string): StateIcon { StateIcon(Text(text), "error", "problem") }
  function Warning(text: string): StateIcon { StateIcon(Text(text), "warning", "problem") }
  function Working(text: string): StateIcon { StateIcon(Text(text), "warning", "working") }

  /** The capacity limit below which a pool has low capacity: `max(30 GB, 0.2 * free)`. */
  function CapacityLimit(free: nat): (limit: real)
    ensures limit >= (30 * GB) as real && limit >= 0.2 * free as real
    ensures limit == (30 * GB) as real || limit == 0.2 * free as real
  {
    if (30 * GB) as real >= 0.2 * free as real then (30 * GB) as real else 0.2 * free as real
  }

  /** The icon of a pool with many offline nodes; `hostsByMode.OFFLINE || 0` of `hostCount`. */
  function ManyNodesOfflineIcon(pool: Resource): StateIcon {
    StateIcon(OfflineShare(pool.offlineHosts.GetOr(0), pool.hostCount), "warning", "problem")
  }

  /** The icon of a pool or internal resource with low capacity. */
  function LowCapacityIcon(pool: Resource): StateIcon {
    StateIcon(CapacityBelow(CapacityLimit(pool.storageFree)), "warning", "problem")
  }

  /** The icon of a cloud resource whose target container or bucket does not exist. */
  function StorageNotExistIcon(resource: Resource): StateIcon {
    var tooltip := if resource.cloudType == "AZURE"
      then "Target Azure container does not exist"
      else "Target S3 bucket does not exist";
    StateIcon(Text(tooltip), "error", "problem")
  }

  /** The modes each state table has an entry for. */
  const HOSTS_POOL_MODES: set<Mode> := {
    HasNoNodes, AllNodesOffline, NoCapacity, AllHostsInProcess, MostNodesIssues, ManyNodesIssues,
    MostStorageIssues, ManyStorageIssues, MostS3Issues, ManyS3Issues, ManyNodesOffline, LowCapacity,
    HighDataActivity, Optimal}
  const CLOUD_RESOURCE_MODES: set<Mode> := {Optimal, IoErrors, StorageNotExist, AuthFailed, Initializing, AllNodesOffline}
  const INTERNAL_RESOURCE_MODES: set<Mode> := {Initializing, LowCapacity, AllNodesOffline, NoCapacity, IoErrors, Optimal}
  const NAMESPACE_RESOURCE_MODES: set<Mode> := {Optimal}

  /** The hosts-pool table: an entry for each of its fourteen modes, computed for MANY_NODES_OFFLINE and LOW_CAPACITY. */
  function HostsPoolEntry(mode: Mode): (r: Option<Entry>)
    ensures r.Some? <==> mode in HOSTS_POOL_MODES
    ensures r.Some? && r.value.Computed? <==> mode == ManyNodesOffline || mode == LowCapacity
  {
    match mode
    case HasNoNodes => Some(Fixed(Problem("Pool is empty")))
    case AllNodesOffline => Some(Fixed(Problem("All nodes are offline")))
    case NoCapacity => Some(Fixed(Problem("No available pool capacity")))
    case AllHostsInProcess => Some(Fixed(Working("All Nodes are migrating/deactivating/initializing ")))
    case MostNodesIssues => Some(Fixed(Problem("More than 90% of drives and endpoints have issues")))
    case ManyNodesIssues => Some(Fixed(Warning("More than 50% of drives and endpoints have issues")))
    case MostStorageIssues => Some(Fixed(Problem("More than 90% of storage drives have issues")))
    case ManyStorageIssues => Some(Fixed(Warning("More than 50% of storage drives have issues")))
    case MostS3Issues => Some(Fixed(Problem("More than 90% of S3 endpoints have issues")))
    case ManyS3Issues => Some(Fixed(Warning("More than 50% of S3 endpoints have issues")))
    case ManyNodesOffline => Some(Computed(ManyNodesOfflineIcon))
    case LowCapacity => Some(Computed(LowCapacityIcon))
    case HighDataActivity => Some(Fixed(Working("High data activity in pool")))
    case Optimal => Some(Fixed(HEALTHY))
    case _ => None
  }

  /** The cloud-resource table: six modes, computed for STORAGE_NOT_EXIST. */
  function CloudResourceEntry(mode: Mode): (r: Option<Entry>)
    ensures r.Some? <==> mode in CLOUD_RESOURCE_MODES
    ensures r.Some? && r.value.Computed? <==> mode == StorageNotExist
  {
    match mode
    case Optimal => Some(Fixed(HEALTHY))
    case IoErrors => Some(Fixed(Problem("Resource has Read/Write problems")))
    case StorageNotExist => Some(Computed(StorageNotExistIcon))
    case AuthFailed => Some(Fixed(Problem("Authentication failure")))
    case Initializing => Some(Fixed(Working("Initializing")))
    case AllNodesOffline => Some(Fixed(Problem("Offline")))
    case _ => None
  }

  /** The internal-resource table: six modes, computed for LOW_CAPACITY. */
  function InternalResourceEntry(mode: Mode): (r: Option<Entry>)
    ensures r.Some? <==> mode in INTERNAL_RESOURCE_MODES
    ensures r.Some? && r.value.Computed? <==> mode == LowCapacity
  {
    match mode
    case Initializing => Some(Fixed(Working("Initializing")))
    case LowCapacity => Some(Computed(LowCapacityIcon))
    case AllNodesOffline => Some(Fixed(Problem("Resource is offline")))
    case NoCapacity => Some(Fixed(Problem("No available resource capacity")))
    case IoErrors => Some(Fixed(Problem("Resource has Read/Write problems")))
    case Optimal => Some(Fixed(HEALTHY))
    case _ => None
  }

  /** The namespace-resource table: fixed icons only, for OPTIMAL alone. */
  function NamespaceResourceEntry(mode: Mode): (r: Option<StateIcon>)
    ensures r.Some? <==> mode in NAMESPACE_RESOURCE_MODES
  {
    match mode
    case Optimal => Some(HEALTHY)
    case _ => None
  }

  /** `isFunction(state) ? state(resource) : state`. */
  function Resolve(entry: Option<Entry>, resource: Resource): Option<StateIcon> {
    match entry
    case None => None
    case Some(Fixed(icon)) => Some(icon)
    case Some(Computed(render)) => Some(render(resource))
  }

  /** A state lookup finds an icon exactly for the modes its table has. */
  function HostsPoolStateIcon(pool: Resource): (r: Option<StateIcon>)
    ensures r.Some? <==> pool.mode in HOSTS_POOL_MODES
  {
    Resolve(HostsPoolEntry(pool.mode), pool)
  }

  function CloudResourceStateIcon(resource: Resource): (r: Option<StateIcon>)
    ensures r.Some? <==> resource.mode in CLOUD_RESOURCE_MODES
  {
    Resolve(CloudResourceEntry(resource.mode), resource)
  }

  function InternalResourceStateIcon(resource: Resource): (r: Option<StateIcon>)
    ensures r.Some? <==> resource.mode in INTERNAL_RESOURCE_MODES
  {
    Resolve(InternalResourceEntry(resource.mode), resource)
  }

  function NamespaceResourceStateIcon(resource: Resource): (r: Option<StateIcon>)
    ensures r.Some? <==> resource.mode in NAMESPACE_RESOURCE_MODES
  {
    NamespaceResourceEntry(resource.mode)
  }

  /**
   * Each state lookup takes the entry of the resource's mode: a fixed entry is
   * returned unchanged, a function entry is applied to the resource, and a mode
   * missing from the table gives nothing.
   */
  lemma LookupsFollowTheirTables(resource: Resource)
    ensures forall icon :: HostsPoolEntry(resource.mode) == Some(Fixed(icon)) ==> HostsPoolStateIcon(resource) == Some(icon)
    ensures forall f :: HostsPoolEntry(resource.mode) == Some(Computed(f)) ==> HostsPoolStateIcon(resource) == Some(f(resource))
    ensures HostsPoolEntry(resource.mode).None? <==> HostsPoolStateIcon(resource).None?
    ensures forall icon :: CloudResourceEntry(resource.mode) == Some(Fixed(icon)) ==> CloudResourceStateIcon(resource) == Some(icon)
    ensures forall f :: CloudResourceEntry(resource.mode) == Some(Computed(f)) ==> CloudResourceStateIcon(resource) == Some(f(resource))
    ensures CloudResourceEntry(resource.mode).None? <==> CloudResourceStateIcon(resource).None?
    ensures forall icon :: InternalResourceEntry(resource.mode) == Some(Fixed(icon)) ==> InternalResourceStateIcon(resource) == Some(icon)
    ensures forall f :: InternalResourceEntry(resource.mode) == Some(Computed(f)) ==> InternalResourceStateIcon(resource) == Some(f(resource))
    ensures InternalResourceEntry(resource.mode).None? <==> InternalResourceStateIcon(resource).None?
    ensures NamespaceResourceStateIcon(resource) == NamespaceResourceEntry(resource.mode)
  {
  }

  /** OPTIMAL is the same healthy icon in all four tables. */
  lemma OptimalIsHealthy(resource: Resource)
    requires resource.mode == Optimal
    ensures HostsPoolStateIcon(resource) == Some(StateIcon(Text("Healthy"), "success", "healthy"))
    ensures CloudResourceStateIcon(resource) == Some(StateIcon(Text("Healthy"), "success", "healthy"))
    ensures InternalResourceStateIcon(resource) == Some(StateIcon(Text("Healthy"), "success", "healthy"))
    ensures NamespaceResourceStateIcon(resource) == Some(StateIcon(Text("Healthy"), "success", "healthy"))
  {
  }

  /** Whether a lookup produced an icon showing a healthy resource. */
  predicate ShowsHealthy(icon: Option<StateIcon>) {
    icon.Some? && icon.value.css == "success" && icon.value.name == "healthy"
  }

  /** Whether every icon a lookup produced that has css 'error' is named 'problem'. */
  predicate ErrorsAreProblems(icon: Option<StateIcon>) {
    icon.Some? && icon.value.css == "error" ==> icon.value.name == "problem"
  }

  /** In every table, a lookup shows a healthy resource exactly when the mode is OPTIMAL, and css 'error' always goes with the name 'problem'. */
  lemma HealthyExactlyWhenOptimal(resource: Resource)
    ensures ShowsHealthy(HostsPoolStateIcon(resource)) <==> resource.mode == Optimal
    ensures ShowsHealthy(CloudResourceStateIcon(resource)) <==> resource.mode == Optimal
    ensures ShowsHealthy(InternalResourceStateIcon(resource)) <==> resource.mode == Optimal
    ensures ShowsHealthy(NamespaceResourceStateIcon(resource)) <==> resource.mode == Optimal
    ensures ErrorsAreProblems(HostsPoolStateIcon(resource))
    ensures ErrorsAreProblems(CloudResourceStateIcon(resource))
    ensures ErrorsAreProblems(InternalResourceStateIcon(resource))
  {
  }

  /** A cloud resource whose storage does not exist is an error; its tooltip names an Azure container exactly for AZURE resources. */
  lemma StorageNotExistTooltip(resource: Resource)
    requires resource.mode == StorageNotExist
    ensures CloudResourceStateIcon(resource).Some?
    ensures CloudResourceStateIcon(resource).value.css == "error"
    ensures CloudResourceStateIcon(resource).value.name == "problem"
    ensures CloudResourceStateIcon(resource).value.tooltip == Text("Target Azure container does not exist")
      <==> resource.cloudType == "AZURE"
    ensures CloudResourceStateIcon(resource).value.tooltip == Text("Target S3 bucket does not exist")
      <==> resource.cloudType != "AZURE"
  {
  }

  /** The low-capacity icons of the hosts and internal tables carry a limit of at least 30 GB and at least a fifth of the free space. */
  lemma LowCapacityLimit(resource: Resource)
    requires resource.mode == LowCapacity
    ensures HostsPoolStateIcon(resource) == InternalResourceStateIcon(resource)
    ensures HostsPoolStateIcon(resource).Some? && HostsPoolStateIcon(resource).value.tooltip.CapacityBelow?
    ensures HostsPoolStateIcon(resource).value.tooltip.limit >= (30 * GB) as real
    ensures HostsPoolStateIcon(resource).value.tooltip.limit >= 0.2 * resource.storageFree as real
    ensures CloudResourceStateIcon(resource).None?
  {
  }

  /** The value of `getResourceStateIcon`: an icon, or one of the falsy values `false` and `undefined`. */
  datatype IconResult = Icon(icon: StateIcon) | False | Undefined

  /** An optional icon as a JavaScript value: a missing table entry is `undefined`. */
  function AsValue(icon: Option<StateIcon>): IconResult {
    match icon
    case Some(i) => Icon(i)
    case None => Undefined
  }

  /**
   * `true && t === 'HOSTS' && hosts(r) || t === 'CLOUD' && cloud(r) || t === 'INTERNAL' && internal(r)`,
   * evaluated with JavaScript's short-circuit rules (an icon object is truthy).
   */
  function ResourceStateIcon(resourceType: string, resource: Resource): (r: IconResult)
    ensures resourceType == "HOSTS" ==>
      r == if HostsPoolStateIcon(resource).Some? then Icon(HostsPoolStateIcon(resource).value) else False
    ensures resourceType == "CLOUD" ==>
      r == if CloudResourceStateIcon(resource).Some? then Icon(CloudResourceStateIcon(resource).value) else False
    ensures resourceType == "INTERNAL" ==>
      r == if InternalResourceStateIcon(resource).Some? then Icon(InternalResourceStateIcon(resource).value) else Undefined
    ensures resourceType !in {"HOSTS", "CLOUD", "INTERNAL"} ==> r == False
  {
    var hosts := if resourceType == "HOSTS" then AsValue(HostsPoolStateIcon(resource)) else False;
    if hosts.Icon? then hosts
    else
      var cloud := if resourceType == "CLOUD" then AsValue(CloudResourceStateIcon(resource)) else False;
      if cloud.Icon? then cloud
      else if resourceType == "INTERNAL" then AsValue(InternalResourceStateIcon(resource))
      else False
  }

  // ---------------------------------------------------------------------------
  // Type icons and display names

  datatype TypeIcon = TypeIcon(name: string, tooltip: string)

  /** Icons of the cloud and namespace services, by service name. */
  const CLOUD_AND_NAMESPACE_TYPE_ICONS: map<string, TypeIcon> := map[
    "AWS" := TypeIcon("aws-s3", "AWS S3 resource"),
    "AZURE" := TypeIcon("azure", "Azure blob resource"),
    "GOOGLE" := TypeIcon("google-cloud", "Google Cloud resource"),
    "S3_COMPATIBLE" := TypeIcon("cloud", "Generic S3 compatible resource"),
    "NET_STORAGE" := TypeIcon("net-storage", "NetStorage resource"),
    "FLASHBLADE" := TypeIcon("pure", "Pure FlashBlade")
  ]

  const SERVICES: set<string> := {"AWS", "AZURE", "GOOGLE", "S3_COMPATIBLE", "NET_STORAGE", "FLASHBLADE"}

  function CloudResourceTypeIcon(resource: Resource): (icon: Option<TypeIcon>)
    ensures icon.Some? <==> resource.cloudType in SERVICES
    ensures resource.cloudType == "AZURE" ==> icon == Some(TypeIcon("azure", "Azure blob resource"))
  {
    if resource.cloudType in CLOUD_AND_NAMESPACE_TYPE_ICONS
    then Some(CLOUD_AND_NAMESPACE_TYPE_ICONS[resource.cloudType])
    else None
  }

  function NamespaceResourceTypeIcon(resource: Resource): (icon: Option<TypeIcon>)
    ensures icon.Some? <==> resource.service in SERVICES
    ensures icon == CloudResourceTypeIcon(resource.(cloudType := resource.service))
  {
    if resource.service in CLOUD_AND_NAMESPACE_TYPE_ICONS
    then Some(CLOUD_AND_NAMESPACE_TYPE_ICONS[resource.service])
    else None
  }

  function ResourceTypeDisplayName(resourceType: string): (name: Option<string>)
    ensures name.Some? <==> resourceType in {"HOSTS", "CLOUD"}
    ensures resourceType == "HOSTS" ==> name == Some("pool")
    ensures resourceType == "CLOUD" ==> name == Some("cloud resource")
  {
    if resourceType == "HOSTS" then Some("pool")
    else if resourceType == "CLOUD" then Some("cloud resource")
    else None
  }

  // ---------------------------------------------------------------------------
  // Resource ids

  /** `${type}:${name}`. */
  function ResourceId(resourceType: string, name: string): (id: string)
    ensures |id| == |resourceType| + 1 + |name|
    ensures id[..|resourceType|] == resourceType
    ensures id[|resourceType|] == ':'
    ensures id[|resourceType| + 1..] == name
  {
    resourceType + ":" + name
  }

  /** Two ids are equal exactly when their types and names are, as long as no type holds a colon. */
  lemma ResourceIdInjective(type1: string, name1: string, type2: string, name2: string)
    requires ':' !in type1 && ':' !in type2
    ensures ResourceId(type1, name1) == ResourceId(type2, name2) <==> type1 == type2 && name1 == name2
  {
    // the first colon of an id ends its type
    if ResourceId(type1, name1) == ResourceId(type2, name2) {
      assert |type1| == |type2|;
    }
  }

  /** Without that condition ids collide: a colon may sit in the type or in the name. */
  lemma ResourceIdCollides()
    ensures ResourceId("A:B", "C") == ResourceId("A", "B:C")
  {
  }

  // ---------------------------------------------------------------------------
  // Internal resource display names: `name.replace(/-pool.*/, '')`

  const POOL_MARKER: string := "-pool"

  predicate OccursAt(s: string, pattern: string, i: nat) {
    i + |pattern| <= |s| && s[i..i + |pattern|] == pattern
  }

  predicate Contains(s: string, pattern: string) {
    exists i: nat :: i <= |s| && OccursAt(s, pattern, i)
  }

  /** The characters at which the regular expression `.` stops. */
  predicate IsLineTerminator(ch: char) {
    ch == '\n' || ch == '\r' || ch == '\U{2028}' || ch == '\U{2029}'
  }

  predicate SingleLine(s: string) {
    forall k :: 0 <= k < |s| ==> !IsLineTerminator(s[k])
  }

  /** The leftmost position at or after `from` where `pattern` occurs in `s`. */
  function FirstOccurrence(s: string, pattern: string, from: nat): (r: Option<nat>)
    requires from <= |s|
    ensures r.Some? ==> from <= r.value && OccursAt(s, pattern, r.value)
    ensures r.Some? ==> forall j: nat :: from <= j < r.value ==> !OccursAt(s, pattern, j)
    ensures r.None? ==> forall j: nat :: from <= j <= |s| ==> !OccursAt(s, pattern, j)
    decreases |s| - from
  {
    if OccursAt(s, pattern, from) then Some(from)
    else if from == |s| then None
    else FirstOccurrence(s, pattern, from + 1)
  }

  /** How far `.*` matches from `from`: the first line terminator at or after it, or the end. */
  function LineEnd(s: string, from: nat): (k: nat)
    requires from <= |s|
    ensures from <= k <= |s|
    ensures k == |s| || IsLineTerminator(s[k])
    ensures forall j :: from <= j < k ==> !IsLineTerminator(s[j])
    decreases |s| - from
  {
    if from == |s| || IsLineTerminator(s[from]) then from else LineEnd(s, from + 1)
  }

  /**
   * The first match of `-pool.*` is removed; nothing else changes. The name
   * changes exactly when it contains '-pool', and then loses at least the
   * marker's five characters.
   */
  function InternalResourceDisplayName(name: string): (r: string)
    ensures r == name <==> !Contains(name, POOL_MARKER)
    ensures Contains(name, POOL_MARKER) ==> |r| <= |name| - |POOL_MARKER|
  {
    match FirstOccurrence(name, POOL_MARKER, 0)
    case None => name
    case Some(i) => name[..i] + name[LineEnd(name, i + |POOL_MARKER|)..]
  }

  /** No occurrence of the marker can start inside `base` and run into a marker that follows it. */
  lemma MarkerDoesNotOverlap(base: string, tail: string, j: nat)
    requires j < |base|
    requires OccursAt(base + POOL_MARKER + tail, POOL_MARKER, j)
    ensures OccursAt(base, POOL_MARKER, j)
  {
    var s := base + POOL_MARKER + tail;
    // '-' opens the marker and does not occur again in it
    assert s[|base|] == '-';
    assert forall k :: 0 <= k < |POOL_MARKER| ==> s[j + k] == POOL_MARKER[k];
    assert j + |POOL_MARKER| <= |base|;
    assert s[j..j + |POOL_MARKER|] == base[j..j + |POOL_MARKER|];
  }

  /**
   * The display name of `base + '-pool' + rest + tail`, where `base` holds no
   * '-pool', `rest` no line break and `tail` is empty or starts at a line
   * break, is `base + tail`; a name without '-pool' is its own display name.
   */
  lemma DisplayNameRemovesFirstMatch(base: string, rest: string, tail: string)
    requires !Contains(base, POOL_MARKER)
    requires SingleLine(rest)
    requires tail == [] || IsLineTerminator(tail[0])
    ensures InternalResourceDisplayName(base + POOL_MARKER + rest + tail) == base + tail
    ensures InternalResourceDisplayName(base) == base
  {
    var s := base + POOL_MARKER + rest + tail;
    assert s == base + POOL_MARKER + (rest + tail);
    assert OccursAt(s, POOL_MARKER, |base|);
    var first := FirstOccurrence(s, POOL_MARKER, 0);
    if first.value < |base| {
      MarkerDoesNotOverlap(base, rest + tail, first.value);
      assert false;
    }
    assert first.value == |base|;
    var end := LineEnd(s, |base| + |POOL_MARKER|);
    forall j | |base| + |POOL_MARKER| <= j < |base| + |POOL_MARKER| + |rest|
      ensures !IsLineTerminator(s[j])
    {
      assert s[j] == rest[j - |base| - |POOL_MARKER|];
    }
    var restEnd := |base| + |POOL_MARKER| + |rest|;
    assert restEnd < |s| ==> s[restEnd] == tail[0];
    assert end == restEnd;
    assert s[..|base|] == base;
    assert s[end..] == tail;
    assert FirstOccurrence(base, POOL_MARKER, 0).None?;
  }

  lemma SliceOfPrefix(s: string, i: nat, j: nat, n: nat)
    requires j + n <= i <= |s|
    ensures s[..i][j..j + n] == s[j..j + n]
  {
    var a, b := s[..i][j..j + n], s[j..j + n];
    assert forall k :: 0 <= k < n ==> a[k] == b[k];
  }

  /** For a name on one line, the display name is the part before the first '-pool', and it holds no '-pool'. */
  lemma DisplayNameCutsAtMarker(name: string)
    requires SingleLine(name)
    ensures forall i: nat ::
      (OccursAt(name, POOL_MARKER, i) && (forall j: nat :: j < i ==> !OccursAt(name, POOL_MARKER, j)))
      ==> InternalResourceDisplayName(name) == name[..i]
    ensures !Contains(name, POOL_MARKER) ==> InternalResourceDisplayName(name) == name
    ensures !Contains(InternalResourceDisplayName(name), POOL_MARKER)
  {
    match FirstOccurrence(name, POOL_MARKER, 0)
    case None =>
    case Some(i) =>
      assert LineEnd(name, i + |POOL_MARKER|) == |name|;
      var r := name[..i];
      assert InternalResourceDisplayName(name) == r;
      forall j: nat | j <= |r| ensures !OccursAt(r, POOL_MARKER, j) {
        if j + |POOL_MARKER| <= |r| {
          SliceOfPrefix(name, i, j, |POOL_MARKER|);
          assert !OccursAt(name, POOL_MARKER, j);
        }
      }
      forall i': nat | OccursAt(name, POOL_MARKER, i') && (forall j: nat :: j < i' ==> !OccursAt(name, POOL_MARKER, j))
        ensures i' == i
      {
      }
  }

  /** Taking the display name twice changes nothing further. */
  lemma DisplayNameIdempotent(name: string)
    requires SingleLine(name)
    ensures InternalResourceDisplayName(InternalResourceDisplayName(name)) == InternalResourceDisplayName(name)
  {
    DisplayNameCutsAtMarker(name);
    var r := InternalResourceDisplayName(name);
    assert FirstOccurrence(r, POOL_MARKER, 0).None?;
  }

  // ---------------------------------------------------------------------------
  // Buckets connected to a resource, and the resource's usage by bucket

  /** A placement or spillover target of a bucket. */
  datatype ResourceRef = ResourceRef(resourceType: string, name: string)
  datatype MirrorSet = MirrorSet(resources: seq<ResourceRef>)
  datatype Placement = Placement(mirrorSets: seq<MirrorSet>)
  /** A bucket's `usageDistribution`: bytes by resource id, and when it was computed. */
  datatype BucketUsage = BucketUsage(resources: map<string, nat>, lastUpdate: int)
  datatype Bucket = Bucket(name: string, placement: Placement, spillover: Option<ResourceRef>, usage: BucketUsage)

  /** `flatMap(placement.mirrorSets, ms => ms.resources)`. */
  function PlacementResources(mirrorSets: seq<MirrorSet>): (r: seq<ResourceRef>)
    ensures forall res :: res in r <==> exists k :: 0 <= k < |mirrorSets| && res in mirrorSets[k].resources
  {
    if mirrorSets == [] then []
    else
      var rest := PlacementResources(mirrorSets[1..]);
      assert forall res, k :: 1 <= k < |mirrorSets| && res in mirrorSets[k].resources ==> res in rest by {
        forall res, k | 1 <= k < |mirrorSets| && res in mirrorSets[k].resources ensures res in rest {
          assert mirrorSets[1..][k - 1] == mirrorSets[k];
        }
      }
      mirrorSets[0].resources + rest
  }

  predicate RefersTo(res: ResourceRef, resourceType: string, resourceName: string) {
    res.resourceType == resourceType && res.name == resourceName
  }

  /** Some placement resource of `b` is the given resource. */
  predicate PlacedOn(b: Bucket, resourceType: string, resourceName: string) {
    exists res :: res in PlacementResources(b.placement.mirrorSets) && RefersTo(res, resourceType, resourceName)
  }

  /** Some mirror-set resource or the spillover of `b` is the given resource. */
  predicate Connected(b: Bucket, resourceType: string, resourceName: string) {
    PlacedOn(b, resourceType, resourceName) || (b.spillover.Some? && RefersTo(b.spillover.value, resourceType, resourceName))
  }

  /**
   * `[...placement, spillover].some(res => res.type === t && res.name === n)`:
   * None when the scan reaches a null spillover, where `res.type` throws.
   */
  function ConnectionTest(b: Bucket, resourceType: string, resourceName: string): (r: Option<bool>)
    ensures r.None? <==> b.spillover.None? && !PlacedOn(b, resourceType, resourceName)
    ensures r.Some? ==> (r.value <==> Connected(b, resourceType, resourceName))
  {
    if PlacedOn(b, resourceType, resourceName) then Some(true)
    else
      match b.spillover
      case None => None
      case Some(spillover) => Some(RefersTo(spillover, resourceType, resourceName))
  }

  /** `a` is `b` with some elements left out, the rest kept in order. */
  ghost predicate IsSubsequence<T>(a: seq<T>, b: seq<T>)
    decreases |b|
  {
    a == [] || (b != [] && ((a[0] == b[0] && IsSubsequence(a[1..], b[1..])) || IsSubsequence(a, b[1..])))
  }

  /**
   * `getConnectedBuckets`: the buckets connected to the resource, in input
   * order; None when the filter throws, which it does exactly when some
   * bucket has no spillover and no placement resource that matches.
   */
  function ConnectedBuckets(resourceType: string, resourceName: string, buckets: seq<Bucket>): (r: Option<seq<Bucket>>)
    ensures r.None? <==>
      exists b :: b in buckets && b.spillover.None? && !PlacedOn(b, resourceType, resourceName)
    ensures r.Some? ==>
      forall b :: b in r.value <==> b in buckets && Connected(b, resourceType, resourceName)
    ensures r.Some? ==> IsSubsequence(r.value, buckets)
  {
    if buckets == [] then Some([])
    else
      var rest := ConnectedBuckets(resourceType, resourceName, buckets[1..]);
      assert buckets == [buckets[0]] + buckets[1..];
      match ConnectionTest(buckets[0], resourceType, resourceName)
      case None => None
      case Some(keep) =>
        if rest.None? then None
        else if keep then
          assert ([buckets[0]] + rest.value)[1..] == rest.value;
          Some([buckets[0]] + rest.value)
        else
          assert rest.value != [] ==> IsSubsequence(rest.value, buckets);
          rest
  }

  /** Why a bucket uses the resource. */
  datatype Reason = PlacementTarget | SpilloverTarget | WaitingToBeWiped

  /** A bucket's usage of the resource before its ratio is known. */
  datatype UsageEntry = UsageEntry(bucket: string, lastUpdate: int, reason: Reason, size: nat)

  /** An entry of the usage distribution: `{ ...record, ratio }`. */
  datatype UsageRecord = UsageRecord(entry: UsageEntry, ratio: real)

  /** Some placement resource of `b` has the id `resId`. */
  predicate PlacedOnId(b: Bucket, resId: string) {
    exists res :: res in PlacementResources(b.placement.mirrorSets) && ResourceId(res.resourceType, res.name) == resId
  }

  /**
   * The bucket's usage of the resource with id `resId`, or None when the
   * bucket is dropped: it is dropped exactly when the resource is neither a
   * placement resource nor the spillover and the bucket reports no usage on
   * it. An entry carries the bucket's name and `lastUpdate`, and its size is
   * the reported usage, or 0 when there is none.
   */
  function BucketEntry(resId: string, b: Bucket): (r: Option<UsageEntry>)
    ensures r.None? <==>
      && !PlacedOnId(b, resId)
      && !(b.spillover.Some? && ResourceId(b.spillover.value.resourceType, b.spillover.value.name) == resId)
      && resId !in b.usage.resources
    ensures r.Some? ==> r.value.bucket == b.name && r.value.lastUpdate == b.usage.lastUpdate
    ensures r.Some? ==> r.value.size == if resId in b.usage.resources then b.usage.resources[resId] else 0
  {
    var usage := if resId in b.usage.resources then Some(b.usage.resources[resId]) else None;
    if PlacedOnId(b, resId) then
      Some(UsageEntry(b.name, b.usage.lastUpdate, PlacementTarget, usage.GetOr(0)))
    else if b.spillover.Some? && ResourceId(b.spillover.value.resourceType, b.spillover.value.name) == resId then
      Some(UsageEntry(b.name, b.usage.lastUpdate, SpilloverTarget, usage.GetOr(0)))
    else if usage.Some? then
      Some(UsageEntry(b.name, b.usage.lastUpdate, WaitingToBeWiped, usage.value))
    else
      None
  }

  /** No resource type the bucket refers to holds a colon. */
  predicate ColonFreeTypes(b: Bucket) {
    && (forall res :: res in PlacementResources(b.placement.mirrorSets) ==> ':' !in res.resourceType)
    && (b.spillover.Some? ==> ':' !in b.spillover.value.resourceType)
  }

  /**
   * The reason a bucket uses the resource, in priority order: a placement
   * target, else the spillover target, else waiting to be wiped when the
   * bucket reports usage on it; otherwise the bucket is dropped. The size is
   * the reported usage, or 0 when there is none.
   */
  lemma BucketReason(resourceType: string, resourceName: string, b: Bucket)
    requires ':' !in resourceType && ColonFreeTypes(b)
    ensures var e := BucketEntry(ResourceId(resourceType, resourceName), b);
      && (e.Some? && e.value.reason == PlacementTarget <==> PlacedOn(b, resourceType, resourceName))
      && (e.Some? && e.value.reason == SpilloverTarget <==>
            !PlacedOn(b, resourceType, resourceName) && b.spillover.Some? && RefersTo(b.spillover.value, resourceType, resourceName))
      && (e.Some? && e.value.reason == WaitingToBeWiped <==>
            !Connected(b, resourceType, resourceName) && ResourceId(resourceType, resourceName) in b.usage.resources)
      && (e.None? <==> !Connected(b, resourceType, resourceName) && ResourceId(resourceType, resourceName) !in b.usage.resources)
      && (e.Some? ==> e.value.bucket == b.name && e.value.lastUpdate == b.usage.lastUpdate)
      && (e.Some? ==> e.value.size == if ResourceId(resourceType, resourceName) in b.usage.resources
                                      then b.usage.resources[ResourceId(resourceType, resourceName)] else 0)
  {
    var resId := ResourceId(resourceType, resourceName);
    forall res | res in PlacementResources(b.placement.mirrorSets)
      ensures ResourceId(res.resourceType, res.name) == resId <==> RefersTo(res, resourceType, resourceName)
    {
      ResourceIdInjective(res.resourceType, res.name, resourceType, resourceName);
    }
    if b.spillover.Some? {
      ResourceIdInjective(b.spillover.value.resourceType, b.spillover.value.name, resourceType, resourceName);
    }
  }

  /**
   * For a bucket on which `getConnectedBuckets` does not throw, the bucket is
   * connected to the resource exactly when its usage entry names it a
   * placement or spillover target.
   */
  lemma ConnectedIffTarget(resourceType: string, resourceName: string, b: Bucket)
    requires ':' !in resourceType && ColonFreeTypes(b)
    requires ConnectionTest(b, resourceType, resourceName).Some?
    ensures ConnectionTest(b, resourceType, resourceName) == Some(true) <==>
      var e := BucketEntry(ResourceId(resourceType, resourceName), b);
      e.Some? && e.value.reason in {PlacementTarget, SpilloverTarget}
  {
    BucketReason(resourceType, resourceName, b);
  }

  /** `buckets.map(...).filter(Boolean)`: the entries of the buckets that are not dropped, in order. */
  function UsageList(resId: string, buckets: seq<Bucket>): (r: seq<UsageEntry>)
    ensures |r| <= |buckets|
  {
    if buckets == [] then []
    else
      var rest := UsageList(resId, buckets[1..]);
      match BucketEntry(resId, buckets[0])
      case None => rest
      case Some(e) => [e] + rest
  }

  /** The list holds exactly the entries of buckets that are not dropped. */
  lemma {:induction false} UsageListMembers(resId: string, buckets: seq<Bucket>)
    ensures forall e :: e in UsageList(resId, buckets) <==> exists b :: b in buckets && BucketEntry(resId, b) == Some(e)
  {
    if buckets != [] {
      UsageListMembers(resId, buckets[1..]);
      assert forall b :: b in buckets <==> b == buckets[0] || b in buckets[1..];
    }
  }

  /** Listing the buckets in two parts lists their entries in the same two parts. */
  lemma {:induction false} UsageListAppend(resId: string, first: seq<Bucket>, second: seq<Bucket>)
    ensures UsageList(resId, first + second) == UsageList(resId, first) + UsageList(resId, second)
  {
    if first == [] {
      assert first + second == second;
    } else {
      assert (first + second)[0] == first[0];
      assert (first + second)[1..] == first[1..] + second;
      UsageListAppend(resId, first[1..], second);
    }
  }

  /**
   * `sumBy(usageList, record => record.size)`: every entry's size is at most
   * the total.
   */
  function TotalSize(entries: seq<UsageEntry>): (total: nat)
    ensures forall k :: 0 <= k < |entries| ==> entries[k].size <= total
  {
    if entries == [] then 0
    else
      var rest := TotalSize(entries[1..]);
      assert forall k :: 1 <= k < |entries| ==> entries[k] == entries[1..][k - 1];
      entries[0].size + rest
  }

  /** `size / total` when the total is positive, else 0. */
  function Ratio(size: nat, total: nat): real {
    if total > 0 then size as real / total as real else 0.0
  }

  /** Each entry with its ratio of `total`. */
  function WithRatios(entries: seq<UsageEntry>, total: nat): (r: seq<UsageRecord>)
    ensures |r| == |entries|
    ensures forall k :: 0 <= k < |r| ==> r[k].entry == entries[k] && r[k].ratio == Ratio(entries[k].size, total)
  {
    if entries == [] then []
    else [UsageRecord(entries[0], Ratio(entries[0].size, total))] + WithRatios(entries[1..], total)
  }

  function SumOfRatios(records: seq<UsageRecord>): real {
    if records == [] then 0.0 else records[0].ratio + SumOfRatios(records[1..])
  }

  lemma {:induction false} RatiosAddUp(entries: seq<UsageEntry>, total: nat)
    requires total > 0
    ensures SumOfRatios(WithRatios(entries, total)) == TotalSize(entries) as real / total as real
  {
    if entries != [] {
      var r := WithRatios(entries, total);
      assert r[1..] == WithRatios(entries[1..], total);
      RatiosAddUp(entries[1..], total);
      SumOverCommonDivisor(entries[0].size as real, TotalSize(entries[1..]) as real, total as real);
      calc {
        SumOfRatios(r);
        entries[0].size as real / total as real + TotalSize(entries[1..]) as real / total as real;
        (entries[0].size as real + TotalSize(entries[1..]) as real) / total as real;
      }
    }
  }

  lemma SumOverCommonDivisor(a: real, b: real, d: real)
    requires d > 0.0
    ensures a / d + b / d == (a + b) / d
  {
  }

  lemma ShareAtMostOne(size: nat, total: nat)
    requires size <= total
    ensures 0.0 <= Ratio(size, total) <= 1.0
  {
    if total > 0 {
      var r := size as real / total as real;
      assert r * total as real == size as real;
    }
  }

  /** Every share of a list of entries lies in [0, 1]. */
  lemma SharesBounded(entries: seq<UsageEntry>)
    ensures forall k :: 0 <= k < |entries| ==> 0.0 <= WithRatios(entries, TotalSize(entries))[k].ratio <= 1.0
  {
    var total := TotalSize(entries);
    var r := WithRatios(entries, total);
    forall k | 0 <= k < |entries| ensures 0.0 <= r[k].ratio <= 1.0 {
      ShareAtMostOne(entries[k].size, total);
    }
  }

  /** The shares of a list of entries add up to 1 when the total is positive. */
  lemma SharesAddUpToOne(entries: seq<UsageEntry>)
    requires TotalSize(entries) > 0
    ensures SumOfRatios(WithRatios(entries, TotalSize(entries))) == 1.0
  {
    var total := TotalSize(entries);
    RatiosAddUp(entries, total);
    assert total as real / total as real == 1.0;
  }

  /**
   * `getUsageDistribution`: the usage entries of the buckets, in order, each
   * with its share of the total size. Shares lie in [0, 1] and add up to 1
   * when the total is positive; they are all 0 otherwise.
   */
  function UsageDistribution(resourceType: string, resourceName: string, buckets: seq<Bucket>): (r: seq<UsageRecord>)
    ensures var entries := UsageList(ResourceId(resourceType, resourceName), buckets);
      && |r| == |entries|
      && (forall k :: 0 <= k < |r| ==> r[k].entry == entries[k])
      && (forall k :: 0 <= k < |r| ==>
            r[k].ratio == if TotalSize(entries) > 0 then entries[k].size as real / TotalSize(entries) as real else 0.0)
      && (forall k :: 0 <= k < |r| ==> 0.0 <= r[k].ratio <= 1.0)
      && (TotalSize(entries) > 0 ==> SumOfRatios(r) == 1.0)
  {
    var entries := UsageList(ResourceId(resourceType, resourceName), buckets);
    SharesBounded(entries);
    if TotalSize(entries) > 0 then
      SharesAddUpToOne(entries);
      WithRatios(entries, TotalSize(entries))
    else
      WithRatios(entries, TotalSize(entries))
  }
}
